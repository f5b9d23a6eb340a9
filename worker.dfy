/**
 * The publish worker. Given a job's post id it checks the post is QUEUED, marks it
 * PROCESSING, fans out to one rail per target, and commits the aggregate status with
 * the per-target results in one update.
 *
 * `Run` is the specification of the fan-out loop, `Process` of the whole request;
 * `PublishTargets` is the loop itself, and `Store.ProcessJob` the request handler.
 */
module Worker {
  import opened Wrappers
  import opened Domain
  import Rails

  const MISSING_POST_ID := "Missing postId"
  const POST_NOT_FOUND := "Post not found"
  const NOT_QUEUED := "Post not in QUEUED status"
  const INTERNAL_ERROR := "Internal Server Error"
  const NO_ACCOUNT := "No social account configured"
  const UNSUPPORTED := "Platform not supported"

  /** `decrypt` on a stored token: the plaintext, or None where it throws. */
  type Decrypt = string -> Option<string>

  /** What the network gives the rail call made for the target at a given position, per request. */
  type Network = nat -> HttpRequest -> FetchOutcome

  /** The social accounts of a brand (the brand's `socialAccounts` relation). */
  function AccountsOf(accounts: map<BrandId, seq<SocialAccount>>, brandId: BrandId): seq<SocialAccount> {
    if brandId in accounts then accounts[brandId] else []
  }

  /** The first account whose provider equals the platform exactly (case matters here). */
  function FindAccount(accounts: seq<SocialAccount>, platform: string): (found: Option<SocialAccount>)
    ensures found.Some? ==> found.value in accounts && found.value.provider == platform
    ensures found.Some? ==>
      exists k :: 0 <= k < |accounts| && accounts[k] == found.value && (forall j :: 0 <= j < k ==> accounts[j].provider != platform)
    ensures found.None? <==> forall k :: 0 <= k < |accounts| ==> accounts[k].provider != platform
  {
    if accounts == [] then None
    else if accounts[0].provider == platform then Some(accounts[0])
    else FindAccount(accounts[1..], platform)
  }

  /** What one iteration of the loop does for the target at position i. */
  datatype Step = Recorded(outcome: RailResult, request: Option<HttpRequest>) | Crashed

  /**
   * One target: the account match first, then `decrypt` (which may throw), then the
   * registry, then the rail; whatever the rail reports is recorded as it is.
   */
  function TargetStep(post: Post, accounts: seq<SocialAccount>, decrypt: Decrypt, network: Network, i: nat): (step: Step)
    requires i < |post.targets|
    ensures step.Recorded? ==> WellFormedResult(step.outcome)
  {
    var platform := post.targets[i];
    match FindAccount(accounts, platform)
    case None => Recorded(FailedWith(NO_ACCOUNT), None)
    case Some(account) =>
      match decrypt(account.accessToken)
      case None => Crashed
      case Some(token) =>
        match Rails.CreateRail(platform)
        case None => Recorded(FailedWith(UNSUPPORTED), None)
        case Some(rail) =>
          var request := Rails.Request(rail, post.content, post.mediaUrls, token, account.platformId);
          Recorded(Rails.Result(rail, network(i)(request)), Some(request))
  }

  function SentBy(request: Option<HttpRequest>): seq<HttpRequest> {
    match request
    case None => []
    case Some(r) => [r]
  }

  /** The step of every target, in order. */
  function Steps(post: Post, accounts: seq<SocialAccount>, decrypt: Decrypt, network: Network): (steps: seq<Step>)
    ensures |steps| == |post.targets|
  {
    seq(|post.targets|, i requires 0 <= i < |post.targets| => TargetStep(post, accounts, decrypt, network, i))
  }

  predicate RecordedWellFormed(steps: seq<Step>) {
    forall i :: 0 <= i < |steps| && steps[i].Recorded? ==> WellFormedResult(steps[i].outcome)
  }

  /** The state of the loop: the `results` dictionary, the requests sent so far, and whether it threw. */
  datatype FanOut = FanOut(results: map<string, RailResult>, requests: seq<HttpRequest>, threw: bool)

  /**
   * `results[platform] = outcome` on the plain object `results`: an own entry, except
   * for `__proto__`, whose assignment goes to the prototype setter and stores nothing.
   */
  function Assign(results: map<string, RailResult>, platform: string, outcome: RailResult): map<string, RailResult> {
    if platform == PROTO_KEY then results else results[platform := outcome]
  }

  /**
   * The loop after its first k iterations, given each target's step. A later target
   * overwrites the entry of an earlier equal one; an exception ends the loop with what
   * was done so far.
   */
  function Run(targets: seq<string>, steps: seq<Step>, k: nat): (r: FanOut)
    requires k <= |targets| && k <= |steps|
    decreases k
  {
    if k == 0 then FanOut(map[], [], false)
    else
      var prev := Run(targets, steps, k - 1);
      if prev.threw then prev
      else if steps[k - 1].Crashed? then prev.(threw := true)
      else FanOut(Assign(prev.results, targets[k - 1], steps[k - 1].outcome), prev.requests + SentBy(steps[k - 1].request), false)
  }

  /** The platforms among the first k targets. */
  function Prefix(targets: seq<string>, k: nat): set<string>
    requires k <= |targets|
  {
    if k == 0 then {} else Prefix(targets, k - 1) + {targets[k - 1]}
  }

  /** The whole loop over a post's targets. */
  function FanOutOf(post: Post, accounts: seq<SocialAccount>, decrypt: Decrypt, network: Network): FanOut {
    Run(post.targets, Steps(post, accounts, decrypt, network), |post.targets|)
  }

  /** `Object.values(results).every(r => r.success)` decides the terminal status. */
  function FinalStatus(results: map<string, RailResult>): Status {
    if AllSucceeded(results) then Completed else Failed
  }

  function RailCalls(requests: seq<HttpRequest>): (effects: seq<Effect>)
    ensures |effects| == |requests|
    ensures forall k :: 0 <= k < |requests| ==> effects[k] == RailCalled(requests[k])
  {
    if requests == [] then [] else [RailCalled(requests[0])] + RailCalls(requests[1..])
  }

  /** The worker endpoint on a post table: the reply, the new table and the effects in order. */
  function Process(posts: map<PostId, Post>, accounts: map<BrandId, seq<SocialAccount>>, postId: Option<string>,
                   decrypt: Decrypt, network: Network, commitFails: bool)
    : Transition<map<string, RailResult>, map<PostId, Post>>
  {
    if !Truthy(postId) then Transition(Error(400, MISSING_POST_ID), posts, [])
    else if postId.value !in posts then Transition(Error(404, POST_NOT_FOUND), posts, [])
    else
      var id := postId.value;
      var post := posts[id];
      if post.status != Queued then Transition(Error(400, NOT_QUEUED), posts, [])
      else
        var marked := posts[id := post.(status := Processing)];
        var fanOut := FanOutOf(post, AccountsOf(accounts, post.brandId), decrypt, network);
        var started := [PostUpdated(id, Processing, None)] + RailCalls(fanOut.requests);
        if fanOut.threw || commitFails then Transition(Error(500, INTERNAL_ERROR), marked, started)
        else
          var status := FinalStatus(fanOut.results);
          Transition(Ok(200, fanOut.results),
                     marked[id := post.(status := status, results := Outcomes(fanOut.results))],
                     started + [PostUpdated(id, status, Some(Outcomes(fanOut.results)))])
  }

  /**
   * The body of the loop for the target at position i: look up the account, decrypt
   * its token, resolve the rail, publish. An exception from `decrypt` is `Crashed`.
   */
  method PublishTarget(post: Post, accounts: seq<SocialAccount>, decrypt: Decrypt, network: Network, i: nat)
    returns (step: Step)
    requires i < |post.targets|
    ensures step == TargetStep(post, accounts, decrypt, network, i)
  {
    var platform := post.targets[i];
    var account := FindAccount(accounts, platform);
    if account.None? {
      return Recorded(FailedWith(NO_ACCOUNT), None);
    }
    var token := decrypt(account.value.accessToken);
    if token.None? {
      return Crashed;
    }
    var rail := Rails.CreateRail(platform);
    if rail.None? {
      return Recorded(FailedWith(UNSUPPORTED), None);
    }
    var result, request := Rails.Publish(rail.value, post.content, post.mediaUrls, token.value,
                                         account.value.platformId, network(i));
    step := Recorded(result, Some(request));
  }

  /**
   * The loop over the post's targets: one entry per target, a later duplicate
   * overwriting an earlier one; it stops only when a target's body throws.
   */
  method PublishTargets(post: Post, accounts: seq<SocialAccount>, decrypt: Decrypt, network: Network)
    returns (results: map<string, RailResult>, requests: seq<HttpRequest>, threw: bool)
    ensures FanOut(results, requests, threw) == FanOutOf(post, accounts, decrypt, network)
  {
    ghost var steps := Steps(post, accounts, decrypt, network);
    results, requests, threw := map[], [], false;
    var i := 0;
    while i < |post.targets|
      invariant 0 <= i <= |post.targets|
      invariant FanOut(results, requests, false) == Run(post.targets, steps, i)
    {
      var step := PublishTarget(post, accounts, decrypt, network, i);
      assert steps[i] == step;
      LoopStep(post.targets, steps, i, results, requests, step);
      if step.Crashed? {
        threw := true;
        return;
      }
      results := Assign(results, post.targets[i], step.outcome);
      requests := requests + SentBy(step.request);
      i := i + 1;
    }
  }

  /** One iteration of the loop: the step either ends it, thrown, or extends its state. */
  lemma LoopStep(targets: seq<string>, steps: seq<Step>, i: nat,
                 results: map<string, RailResult>, requests: seq<HttpRequest>, step: Step)
    requires i < |targets| == |steps|
    requires FanOut(results, requests, false) == Run(targets, steps, i)
    requires step == steps[i]
    ensures step.Crashed? ==> Run(targets, steps, |targets|) == FanOut(results, requests, true)
    ensures step.Recorded? ==>
      Run(targets, steps, i + 1) == FanOut(Assign(results, targets[i], step.outcome), requests + SentBy(step.request), false)
  {
    if step.Crashed? {
      RunStaysThrown(targets, steps, i + 1, |targets|);
    }
  }

  // ----- the fan-out loop -----

  /** Unless the loop threw, its entries are exactly the platforms of the targets it went through, but `__proto__`. */
  lemma {:induction false} RunKeys(targets: seq<string>, steps: seq<Step>, k: nat)
    requires k <= |targets| && k <= |steps|
    requires !Run(targets, steps, k).threw
    ensures Run(targets, steps, k).results.Keys == Prefix(targets, k) - {PROTO_KEY}
    decreases k
  {
    if k > 0 {
      RunKeys(targets, steps, k - 1);
    }
  }

  /** Each entry is a step's own outcome, so well-formed steps give well-formed entries. */
  lemma {:induction false} RunWellFormed(targets: seq<string>, steps: seq<Step>, k: nat)
    requires k <= |targets| && k <= |steps|
    requires RecordedWellFormed(steps)
    ensures AllWellFormed(Run(targets, steps, k).results)
    decreases k
  {
    if k > 0 {
      RunWellFormed(targets, steps, k - 1);
    }
  }

  /** Every entry of the fan-out is a well-formed outcome. */
  lemma FanOutWellFormed(post: Post, accounts: seq<SocialAccount>, decrypt: Decrypt, network: Network)
    ensures AllWellFormed(FanOutOf(post, accounts, decrypt, network).results)
  {
    var steps := Steps(post, accounts, decrypt, network);
    assert RecordedWellFormed(steps) by {
      forall i | 0 <= i < |steps| && steps[i].Recorded?
        ensures WellFormedResult(steps[i].outcome)
      {
        assert steps[i] == TargetStep(post, accounts, decrypt, network, i);
      }
    }
    RunWellFormed(post.targets, steps, |post.targets|);
  }

  lemma {:induction false} RunStaysThrown(targets: seq<string>, steps: seq<Step>, k: nat, n: nat)
    requires k <= n <= |targets| && n <= |steps|
    requires Run(targets, steps, k).threw
    ensures Run(targets, steps, n) == Run(targets, steps, k)
    decreases n
  {
    if n > k {
      RunStaysThrown(targets, steps, k, n - 1);
    }
  }

  /** No later position in s[..k] holds the same platform as position j. */
  predicate IsLastOccurrence(s: seq<string>, j: nat, k: nat)
    requires j < k <= |s|
  {
    forall j' :: j < j' < k ==> s[j'] != s[j]
  }

  /** The position of the last occurrence of p in s. */
  function LastIndexOf(s: seq<string>, p: string): (j: nat)
    requires p in s
    ensures j < |s| && s[j] == p && IsLastOccurrence(s, j, |s|)
    decreases |s|
  {
    if s[|s| - 1] == p then |s| - 1 else LastIndexOf(s[..|s| - 1], p)
  }

  /**
   * Unless the loop threw, each target's entry holds the outcome of that target's last
   * occurrence: a duplicate target keeps its last outcome. (`__proto__` has no entry.)
   */
  lemma {:induction false} RunKeepsLastOutcome(targets: seq<string>, steps: seq<Step>, k: nat, j: nat)
    requires j < k <= |targets| && k <= |steps|
    requires !Run(targets, steps, k).threw
    requires IsLastOccurrence(targets, j, k) && targets[j] != PROTO_KEY
    ensures steps[j].Recorded?
    ensures targets[j] in Run(targets, steps, k).results
    ensures Run(targets, steps, k).results[targets[j]] == steps[j].outcome
    decreases k
  {
    if j < k - 1 {
      RunKeepsLastOutcome(targets, steps, k - 1, j);
    }
  }

  /** The loop throws exactly when some target's step throws; otherwise every target is recorded. */
  lemma {:induction false} RunThrewIff(targets: seq<string>, steps: seq<Step>, k: nat)
    requires k <= |targets| && k <= |steps|
    ensures Run(targets, steps, k).threw <==> exists j :: 0 <= j < k && steps[j].Crashed?
    decreases k
  {
    if k > 0 {
      RunThrewIff(targets, steps, k - 1);
      if steps[k - 1].Crashed? {
        assert 0 <= k - 1 < k;
      }
    }
  }

  lemma {:induction false} PrefixIsTargetSet(targets: seq<string>, k: nat)
    requires k <= |targets|
    ensures Prefix(targets, k) == set p | p in targets[..k]
    decreases k
  {
    if k > 0 {
      PrefixIsTargetSet(targets, k - 1);
      assert targets[..k] == targets[..k - 1] + [targets[k - 1]];
    }
  }

  /** Unless the loop threw, the results' keys are exactly the post's targets other than `__proto__`. */
  lemma FanOutCoversTargets(post: Post, accounts: seq<SocialAccount>, decrypt: Decrypt, network: Network)
    requires !FanOutOf(post, accounts, decrypt, network).threw
    ensures FanOutOf(post, accounts, decrypt, network).results.Keys == ResultKeys(post)
  {
    RunKeys(post.targets, Steps(post, accounts, decrypt, network), |post.targets|);
    PrefixIsTargetSet(post.targets, |post.targets|);
    assert post.targets[..|post.targets|] == post.targets;
  }

  predicate RecordedSuccess(step: Step) {
    step.Recorded? && step.outcome.success
  }

  /** The aggregate is read off the kept outcomes: COMPLETED iff the outcome kept for every target not `__proto__` (its last occurrence) succeeded. */
  lemma CompletedIffEveryTargetSucceeded(targets: seq<string>, steps: seq<Step>)
    requires |steps| == |targets|
    requires !Run(targets, steps, |targets|).threw
    ensures FinalStatus(Run(targets, steps, |targets|).results) == Completed <==>
      forall j :: 0 <= j < |targets| && targets[j] != PROTO_KEY && IsLastOccurrence(targets, j, |targets|) ==>
        RecordedSuccess(steps[j])
  {
    var results := Run(targets, steps, |targets|).results;
    if AllSucceeded(results) {
      SucceededEverywhere(targets, steps);
    } else {
      var p :| p in results && !results[p].success;
      FailureIsKept(targets, steps, p);
    }
  }

  /** When every entry succeeded, so did the kept outcome of every target. */
  lemma SucceededEverywhere(targets: seq<string>, steps: seq<Step>)
    requires |steps| == |targets|
    requires !Run(targets, steps, |targets|).threw
    requires AllSucceeded(Run(targets, steps, |targets|).results)
    ensures forall j :: 0 <= j < |targets| && targets[j] != PROTO_KEY && IsLastOccurrence(targets, j, |targets|) ==>
      RecordedSuccess(steps[j])
  {
    var n := |targets|;
    forall j | 0 <= j < n && targets[j] != PROTO_KEY && IsLastOccurrence(targets, j, n)
      ensures RecordedSuccess(steps[j])
    {
      RunKeepsLastOutcome(targets, steps, n, j);
    }
  }

  /** A failed entry is the kept outcome of the last occurrence of its platform. */
  lemma FailureIsKept(targets: seq<string>, steps: seq<Step>, p: string)
    requires |steps| == |targets|
    requires !Run(targets, steps, |targets|).threw
    requires p in Run(targets, steps, |targets|).results && !Run(targets, steps, |targets|).results[p].success
    ensures exists j ::
      (0 <= j < |targets| && targets[j] != PROTO_KEY && IsLastOccurrence(targets, j, |targets|) && !RecordedSuccess(steps[j]))
  {
    var n := |targets|;
    RunKeys(targets, steps, n);
    PrefixIsTargetSet(targets, n);
    assert targets[..n] == targets;
    var j := LastIndexOf(targets, p);
    RunKeepsLastOutcome(targets, steps, n, j);
  }

  /** When every step is the no-account failure: no exception, nothing sent, every entry that failure. */
  lemma {:induction false} RunWithoutAccounts(targets: seq<string>, steps: seq<Step>, k: nat)
    requires k <= |targets| && k <= |steps|
    requires forall j :: 0 <= j < |steps| ==> steps[j] == Recorded(FailedWith(NO_ACCOUNT), None)
    ensures var r := Run(targets, steps, k);
      !r.threw && r.requests == [] &&
      forall p :: p in r.results ==> r.results[p] == FailedWith(NO_ACCOUNT)
    decreases k
  {
    if k > 0 {
      RunWithoutAccounts(targets, steps, k - 1);
    }
  }

  // ----- one target -----

  /** No account: the structural failure, and neither `decrypt` nor the network is consulted. */
  lemma NoAccountStep(post: Post, accounts: seq<SocialAccount>, decrypt: Decrypt, network: Network,
                      otherDecrypt: Decrypt, otherNetwork: Network, i: nat)
    requires i < |post.targets|
    requires FindAccount(accounts, post.targets[i]).None?
    ensures TargetStep(post, accounts, decrypt, network, i) == Recorded(FailedWith(NO_ACCOUNT), None)
    ensures TargetStep(post, accounts, decrypt, network, i) == TargetStep(post, accounts, otherDecrypt, otherNetwork, i)
  { }

  /** An account but no adapter: the structural failure, and the network is not consulted. */
  lemma UnsupportedStep(post: Post, accounts: seq<SocialAccount>, decrypt: Decrypt, network: Network,
                        otherNetwork: Network, i: nat)
    requires i < |post.targets|
    requires FindAccount(accounts, post.targets[i]).Some?
    requires decrypt(FindAccount(accounts, post.targets[i]).value.accessToken).Some?
    requires Rails.CreateRail(post.targets[i]).None?
    ensures TargetStep(post, accounts, decrypt, network, i) == Recorded(FailedWith(UNSUPPORTED), None)
    ensures TargetStep(post, accounts, decrypt, network, i) == TargetStep(post, accounts, decrypt, otherNetwork, i)
  { }

  /** An account, a token and an adapter: the rail's outcome is recorded verbatim, with the request it sent. */
  lemma PublishedStep(post: Post, accounts: seq<SocialAccount>, decrypt: Decrypt, network: Network, i: nat)
    requires i < |post.targets|
    requires FindAccount(accounts, post.targets[i]).Some?
    requires decrypt(FindAccount(accounts, post.targets[i]).value.accessToken).Some?
    requires Rails.CreateRail(post.targets[i]).Some?
    ensures var account := FindAccount(accounts, post.targets[i]).value;
            var token := decrypt(account.accessToken).value;
            var rail := Rails.CreateRail(post.targets[i]).value;
            var request := Rails.Request(rail, post.content, post.mediaUrls, token, account.platformId);
      TargetStep(post, accounts, decrypt, network, i) == Recorded(Rails.Result(rail, network(i)(request)), Some(request))
  { }

  /** `decrypt` runs before the registry: when it throws, the loop throws even for an unsupported platform. */
  lemma DecryptPrecedesRegistry(post: Post, accounts: seq<SocialAccount>, decrypt: Decrypt, network: Network, i: nat)
    requires i < |post.targets|
    requires FindAccount(accounts, post.targets[i]).Some?
    requires decrypt(FindAccount(accounts, post.targets[i]).value.accessToken).None?
    ensures TargetStep(post, accounts, decrypt, network, i) == Crashed
  { }

  /** The account match is exact-case: a target "Facebook" does not find a "facebook" account, though the registry would accept it. */
  lemma AccountMatchIsExactCase(decrypt: Decrypt, network: Network)
    ensures var post := Post("post-1", "hello", [], ["Facebook"], "brand-1", Queued, Outcomes(map[]));
            var accounts := [SocialAccount("facebook", "page-1", "enc", "brand-1")];
            && Rails.CreateRail("Facebook") == Some(Rails.MetaRail)
            && TargetStep(post, accounts, decrypt, network, 0) == Recorded(FailedWith(NO_ACCOUNT), None)
  {
    Rails.LowerIs("Facebook", "facebook");
  }

  // ----- the whole request -----

  /** A missing id gives 400, an unknown one 404; the table is unchanged and nothing happens. */
  lemma InvalidPostUntouched(posts: map<PostId, Post>, accounts: map<BrandId, seq<SocialAccount>>, postId: Option<string>,
                             decrypt: Decrypt, network: Network, commitFails: bool)
    requires !Truthy(postId) || postId.value !in posts
    ensures var t := Process(posts, accounts, postId, decrypt, network, commitFails);
      && t.state == posts && t.effects == []
      && t.reply == (if !Truthy(postId) then Error(400, MISSING_POST_ID) else Error(404, POST_NOT_FOUND))
  { }

  /** A post that has left QUEUED gets 400 and no write: status and results stay as they are. */
  lemma NotQueuedIsNoOp(posts: map<PostId, Post>, accounts: map<BrandId, seq<SocialAccount>>, postId: Option<string>,
                        decrypt: Decrypt, network: Network, commitFails: bool)
    requires Truthy(postId) && postId.value in posts && posts[postId.value].status != Queued
    ensures var t := Process(posts, accounts, postId, decrypt, network, commitFails);
      t.reply == Error(400, NOT_QUEUED) && t.state == posts && t.effects == []
  { }

  /** Delivering the same job a second time, after the first run, changes nothing and calls no rail. */
  lemma RedeliveryIsNoOp(posts: map<PostId, Post>, accounts: map<BrandId, seq<SocialAccount>>, postId: Option<string>,
                         decrypt: Decrypt, network: Network, commitFails: bool,
                         decrypt2: Decrypt, network2: Network, commitFails2: bool)
    ensures var first := Process(posts, accounts, postId, decrypt, network, commitFails);
            var second := Process(first.state, accounts, postId, decrypt2, network2, commitFails2);
            second.state == first.state && second.effects == [] && second.reply.Error?
  { }

  /** The PROCESSING write is the first effect, before any rail is called. */
  lemma MarkPrecedesRailCalls(posts: map<PostId, Post>, accounts: map<BrandId, seq<SocialAccount>>, postId: Option<string>,
                              decrypt: Decrypt, network: Network, commitFails: bool)
    ensures var t := Process(posts, accounts, postId, decrypt, network, commitFails);
      forall k :: 0 <= k < |t.effects| && t.effects[k].RailCalled? ==>
        0 < k && Truthy(postId) && t.effects[0] == PostUpdated(postId.value, Processing, None)
  { }

  /**
   * A processed job: 200 with one entry per target but `__proto__`; the post gets the aggregate status
   * and the full results together, in the last effect and the only one that writes results.
   */
  lemma CommitWritesAllResults(posts: map<PostId, Post>, accounts: map<BrandId, seq<SocialAccount>>, postId: Option<string>,
                               decrypt: Decrypt, network: Network, commitFails: bool)
    requires Process(posts, accounts, postId, decrypt, network, commitFails).reply.Ok?
    ensures Truthy(postId) && postId.value in posts && posts[postId.value].status == Queued
    ensures var t := Process(posts, accounts, postId, decrypt, network, commitFails);
            var id := postId.value;
            var results := t.reply.data;
      && t.reply.code == 200
      && results.Keys == ResultKeys(posts[id])
      && t.state == posts[id := posts[id].(status := FinalStatus(results), results := Outcomes(results))]
      && |t.effects| > 0
      && t.effects[|t.effects| - 1] == PostUpdated(id, FinalStatus(results), Some(Outcomes(results)))
      && forall k :: 0 <= k < |t.effects| - 1 ==> !(t.effects[k].PostUpdated? && t.effects[k].results.Some?)
  {
    var id := postId.value;
    var post := posts[id];
    FanOutCoversTargets(post, AccountsOf(accounts, post.brandId), decrypt, network);
  }

  /** An exception in the loop, or a failed final write, gives 500 and leaves the post PROCESSING without results. */
  lemma CrashLeavesProcessing(posts: map<PostId, Post>, accounts: map<BrandId, seq<SocialAccount>>, postId: Option<string>,
                              decrypt: Decrypt, network: Network, commitFails: bool)
    requires Truthy(postId) && postId.value in posts && posts[postId.value].status == Queued
    requires var post := posts[postId.value];
      FanOutOf(post, AccountsOf(accounts, post.brandId), decrypt, network).threw || commitFails
    ensures var t := Process(posts, accounts, postId, decrypt, network, commitFails);
            var id := postId.value;
      && t.reply == Error(500, INTERNAL_ERROR)
      && t.state == posts[id := posts[id].(status := Processing)]
      && forall e :: e in t.effects ==> !(e.PostUpdated? && e.results.Some?)
  { }

  /**
   * No target has an account: every entry is the structural failure, no rail is called,
   * and the post FAILS, unless its only target is `__proto__` and so it has no entry at all.
   */
  lemma NoReachableTargetFails(posts: map<PostId, Post>, accounts: map<BrandId, seq<SocialAccount>>, postId: Option<string>,
                               decrypt: Decrypt, network: Network)
    requires Truthy(postId) && postId.value in posts && posts[postId.value].status == Queued
    requires |posts[postId.value].targets| > 0
    requires var post := posts[postId.value];
      forall j :: 0 <= j < |post.targets| ==> FindAccount(AccountsOf(accounts, post.brandId), post.targets[j]).None?
    ensures var t := Process(posts, accounts, postId, decrypt, network, false);
      && t.reply.Ok?
      && (forall p :: p in t.reply.data ==> t.reply.data[p] == FailedWith(NO_ACCOUNT))
      && t.state[postId.value].status == (if ResultKeys(posts[postId.value]) == {} then Completed else Failed)
      && forall e :: e in t.effects ==> !e.RailCalled?
  {
    var post := posts[postId.value];
    var accs := AccountsOf(accounts, post.brandId);
    var steps := Steps(post, accs, decrypt, network);
    forall j | 0 <= j < |steps|
      ensures steps[j] == Recorded(FailedWith(NO_ACCOUNT), None)
    {
      NoAccountStep(post, accs, decrypt, network, decrypt, network, j);
    }
    RunWithoutAccounts(post.targets, steps, |post.targets|);
    FanOutCoversTargets(post, accs, decrypt, network);
    if ResultKeys(post) != {} {
      var p :| p in ResultKeys(post);
      assert p in FanOutOf(post, accs, decrypt, network).results;
    }
  }

  /** Every post only moves forward: nothing back to QUEUED, nothing terminal rewritten, no post lost. */
  lemma ProcessAdvances(posts: map<PostId, Post>, accounts: map<BrandId, seq<SocialAccount>>, postId: Option<string>,
                        decrypt: Decrypt, network: Network, commitFails: bool)
    ensures var t := Process(posts, accounts, postId, decrypt, network, commitFails);
      t.state.Keys == posts.Keys && AllAdvance(posts, t.state)
  { }

  /** The worker keeps the post invariant. */
  lemma ProcessKeepsConsistency(posts: map<PostId, Post>, accounts: map<BrandId, seq<SocialAccount>>, postId: Option<string>,
                                decrypt: Decrypt, network: Network, commitFails: bool)
    requires PostsConsistent(posts)
    ensures PostsConsistent(Process(posts, accounts, postId, decrypt, network, commitFails).state)
  {
    var t := Process(posts, accounts, postId, decrypt, network, commitFails);
    if t.reply.Ok? {
      var id := postId.value;
      var post := posts[id];
      FanOutCoversTargets(post, AccountsOf(accounts, post.brandId), decrypt, network);
      FanOutWellFormed(post, AccountsOf(accounts, post.brandId), decrypt, network);
    }
  }

  // ----- scenarios -----

  /**
   * A post whose only target is `__proto__`, with no account for it: the assignment
   * stores no entry, `every` holds for no values, and the post is COMPLETED with `{}`.
   */
  lemma ProtoTargetCompletesEmpty(posts: map<PostId, Post>, accounts: map<BrandId, seq<SocialAccount>>, id: PostId,
                                  decrypt: Decrypt, network: Network)
    requires id != "" && id in posts && posts[id].status == Queued && posts[id].targets == [PROTO_KEY]
    requires FindAccount(AccountsOf(accounts, posts[id].brandId), PROTO_KEY).None?
    ensures var t := Process(posts, accounts, Some(id), decrypt, network, false);
      t.reply == Ok(200, map[]) && t.state[id].status == Completed && t.state[id].results == Outcomes(map[])
  {
    var post := posts[id];
    var accs := AccountsOf(accounts, post.brandId);
    var steps := Steps(post, accs, decrypt, network);
    NoAccountStep(post, accs, decrypt, network, decrypt, network, 0);
    assert steps[0] == Recorded(FailedWith(NO_ACCOUNT), None);
    assert post.targets[0] == PROTO_KEY && |post.targets| == 1;
    assert Run(post.targets, steps, 1) == FanOut(map[], [], false);
  }

  /**
   * A target with no adapter: "Platform not supported" when an account for it is linked,
   * otherwise "No social account configured", since the account match comes first.
   */
  lemma TwitterStep(decrypt: Decrypt, network: Network, linked: bool)
    requires decrypt("enc-tw") == Some("token-tw")
    ensures var post := Post("post-2", "hello", [], ["twitter"], "brand-1", Queued, Outcomes(map[]));
            var accounts := if linked then [SocialAccount("twitter", "tw-1", "enc-tw", "brand-1")] else [];
      TargetStep(post, accounts, decrypt, network, 0) == Recorded(FailedWith(if linked then UNSUPPORTED else NO_ACCOUNT), None)
  {
    Rails.LowerIs("twitter", "twitter");
  }
}
