/**
 * The records the publish pipeline stores and exchanges: post statuses, the
 * per-platform outcome a rail reports, the rows of the post, brand and social
 * account tables, the HTTP replies of the three endpoints, and the log of
 * externally observable effects (database writes, queued jobs, outbound
 * requests) that the operations produce.
 */
module Domain {
  import opened Wrappers

  type PostId = string
  type BrandId = string
  type UserId = string

  /** The four post statuses. */
  datatype Status = Queued | Processing | Completed | Failed

  predicate IsTerminal(s: Status) {
    s == Completed || s == Failed
  }

  /** Position of a status on the forward-only path QUEUED, PROCESSING, terminal. */
  function Rank(s: Status): nat {
    match s
    case Queued => 0
    case Processing => 1
    case Completed => 2
    case Failed => 2
  }

  /** The outcome one rail reports for one platform: `{success, postId?, error?}`. */
  datatype RailResult = RailResult(success: bool, postId: Option<string>, error: Option<string>)

  function FailedWith(message: string): RailResult {
    RailResult(false, None, Some(message))
  }

  /** A success carries the remote id and no error; a failure carries a non-empty error and no id. */
  predicate WellFormedResult(r: RailResult) {
    if r.success then Truthy(r.postId) && r.error.None?
    else r.postId.None? && Truthy(r.error)
  }

  predicate AllSucceeded(results: map<string, RailResult>) {
    forall p :: p in results ==> results[p].success
  }

  predicate AllWellFormed(results: map<string, RailResult>) {
    forall p :: p in results ==> WellFormedResult(results[p])
  }

  /** The JSON held in a post's `results` column: per-platform outcomes, or the dispatcher's queueing error. */
  datatype Results = Outcomes(outcomes: map<string, RailResult>) | QueueError(error: string)

  const QUEUEING_FAILED := "Queueing failed"

  datatype Post = Post(
    id: PostId,
    content: string,
    mediaUrls: seq<string>,
    targets: seq<string>,
    brandId: BrandId,
    status: Status,
    results: Results)

  function TargetSet(post: Post): set<string> {
    set p | p in post.targets
  }

  /**
   * `results` is a plain object, on which `results["__proto__"] = v` runs the prototype
   * setter and stores no entry: no platform of that name ever appears among the results.
   */
  const PROTO_KEY := "__proto__"

  /** The platforms a post's results hold an entry for: its targets other than `__proto__`. */
  function ResultKeys(post: Post): set<string> {
    TargetSet(post) - {PROTO_KEY}
  }

  datatype Brand = Brand(id: BrandId, name: string, clientRefId: Option<string>, userId: UserId)

  /** A linked platform account; `accessToken` is the encrypted token as stored. */
  datatype SocialAccount = SocialAccount(provider: string, platformId: string, accessToken: string, brandId: BrandId)

  /** An outbound HTTP request: verb, URL, headers and the JSON object sent as body. */
  datatype HttpRequest = HttpRequest(verb: string, url: string, headers: map<string, string>, payload: map<string, string>)

  /**
   * What `fetch` followed by `response.json()` gives: a response with its `ok` flag,
   * the body's `id` and `error.message` when present, or a thrown error.
   */
  datatype FetchOutcome = Response(ok: bool, id: Option<string>, errorMessage: Option<string>) | Thrown

  /** A job handed to the delivery queue: callback URL, payload `{postId}` and retry budget. */
  datatype Job = Job(url: string, postId: PostId, retries: nat)

  /** One externally observable effect of an operation. */
  datatype Effect =
    | PostInserted(post: Post)
    | PostUpdated(id: PostId, status: Status, results: Option<Results>)
    | BrandInserted(brand: Brand)
    | JobEnqueued(job: Job)
    | RailCalled(request: HttpRequest)

  /** Appending to a log piece by piece appends the pieces joined. */
  lemma AppendPieces<T>(log: seq<T>, a: seq<T>, b: seq<T>, c: seq<T>)
    ensures log + a + b == log + (a + b)
    ensures log + a + b + c == log + (a + b + c)
  { }

  /** An HTTP reply: a status code with a JSON body, or with `{error: message}`. */
  datatype Reply<T> = Ok(code: int, data: T) | Error(code: int, message: string)

  /** What an operation does: its reply, the table it leaves behind, and its effects in order. */
  datatype Transition<T, S> = Transition(reply: Reply<T>, state: S, effects: seq<Effect>)

  /**
   * The invariant every stored post keeps: targets and content are non-empty; a post
   * not yet finished holds no results; a COMPLETED post holds one succeeded outcome per
   * target; a FAILED post holds either the queueing error or one outcome per target
   * with at least one failure. Every outcome is well formed. A target `__proto__` has
   * no entry (see `PROTO_KEY`).
   */
  predicate PostConsistent(post: Post) {
    && |post.targets| > 0
    && post.content != ""
    && match post.status
       case Queued => post.results == Outcomes(map[])
       case Processing => post.results == Outcomes(map[])
       case Completed =>
         && post.results.Outcomes?
         && post.results.outcomes.Keys == ResultKeys(post)
         && AllSucceeded(post.results.outcomes)
         && AllWellFormed(post.results.outcomes)
       case Failed =>
         || post.results == QueueError(QUEUEING_FAILED)
         || (&& post.results.Outcomes?
             && post.results.outcomes.Keys == ResultKeys(post)
             && !AllSucceeded(post.results.outcomes)
             && AllWellFormed(post.results.outcomes))
  }

  predicate PostsConsistent(posts: map<PostId, Post>) {
    forall id :: id in posts ==> posts[id].id == id && PostConsistent(posts[id])
  }

  /**
   * `after` is `before` moved forward: only status and results may change, the status
   * never goes back, a terminal post is never touched again.
   */
  predicate Advances(before: Post, after: Post) {
    && after.id == before.id
    && after.content == before.content
    && after.mediaUrls == before.mediaUrls
    && after.targets == before.targets
    && after.brandId == before.brandId
    && Rank(before.status) <= Rank(after.status)
    && (IsTerminal(before.status) ==> after == before)
    && (after.status == Queued ==> after == before)
  }

  /** Every post of `before` is still there in `after`, moved forward. */
  predicate AllAdvance(before: map<PostId, Post>, after: map<PostId, Post>) {
    forall id :: id in before ==> id in after && Advances(before[id], after[id])
  }
}
