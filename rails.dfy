/**
 * The rail contract and its registry. A Rail is one of the registered adapter
 * kinds; `CreateRail` resolves a platform name to one, ignoring letter case, and
 * `Request`/`Result`/`Publish` dispatch the publish contract to the adapter.
 */
module Rails {
  import opened Wrappers
  import opened Domain
  import Meta

  /** The registered adapter kinds; the Meta rail serves both Facebook and Instagram. */
  datatype Rail = MetaRail

  const SUPPORTED: set<string> := {"facebook", "instagram"}

  /** `toLowerCase` on one character, for the letters A to Z. */
  function LowerChar(c: char): char {
    if 'A' <= c <= 'Z' then (c as int + 32) as char else c
  }

  /** `toLowerCase` on a string: every character lowered, the length kept. */
  function Lower(s: string): (r: string)
    ensures |r| == |s|
    ensures forall i :: 0 <= i < |s| ==> r[i] == LowerChar(s[i])
  {
    if s == [] then [] else [LowerChar(s[0])] + Lower(s[1..])
  }

  /** Two names that differ only in letter case. */
  predicate SameIgnoringCase(p: string, q: string) {
    |p| == |q| && forall i :: 0 <= i < |p| ==> LowerChar(p[i]) == LowerChar(q[i])
  }

  /** The registry: the lowered name picks the adapter; an unknown name gives no rail, not an error. */
  function CreateRail(provider: string): Option<Rail> {
    match Lower(provider)
    case "facebook" => Some(MetaRail)
    case "instagram" => Some(MetaRail)
    case _ => None
  }

  lemma {:induction false} LowerIdempotent(s: string)
    ensures Lower(Lower(s)) == Lower(s)
  {
    var l := Lower(s);
    var ll := Lower(l);
    forall i | 0 <= i < |s|
      ensures ll[i] == l[i]
    {
      assert l[i] == LowerChar(s[i]);
    }
  }

  lemma SameIgnoringCaseLowersEqual(p: string, q: string)
    requires SameIgnoringCase(p, q)
    ensures Lower(p) == Lower(q)
  {
    var lp, lq := Lower(p), Lower(q);
    forall i | 0 <= i < |p|
      ensures lp[i] == lq[i]
    { }
  }

  /** The supported set is exactly {facebook, instagram} after lowering, and both map to the Meta rail. */
  lemma SupportedExactly(provider: string)
    ensures CreateRail(provider).Some? <==> Lower(provider) in SUPPORTED
    ensures CreateRail(provider).Some? ==> CreateRail(provider) == Some(MetaRail)
  { }

  /** The registry depends only on the lowered name. */
  lemma CreateRailIgnoresCase(provider: string)
    ensures CreateRail(provider) == CreateRail(Lower(provider))
  {
    LowerIdempotent(provider);
  }

  /** Names that differ only in letter case resolve alike. */
  lemma AnyCaseResolvesAlike(p: string, q: string)
    requires SameIgnoringCase(p, q)
    ensures CreateRail(p) == CreateRail(q)
  {
    SameIgnoringCaseLowersEqual(p, q);
  }

  lemma LowerIs(s: string, t: string)
    requires |s| == |t|
    requires forall i :: 0 <= i < |s| ==> LowerChar(s[i]) == t[i]
    ensures Lower(s) == t
  { }

  /** Any spelling of facebook or instagram, in any letter case, resolves to the Meta rail. */
  lemma AnyCaseOfSupportedIsMeta(p: string)
    requires SameIgnoringCase(p, "facebook") || SameIgnoringCase(p, "instagram")
    ensures CreateRail(p) == Some(MetaRail)
  {
    if SameIgnoringCase(p, "facebook") {
      SameIgnoringCaseLowersEqual(p, "facebook");
      LowerIs("facebook", "facebook");
    } else {
      SameIgnoringCaseLowersEqual(p, "instagram");
      LowerIs("instagram", "instagram");
    }
  }

  /** An unregistered name gives no rail rather than an error. */
  lemma TwitterUnsupported()
    ensures CreateRail("twitter") == None
  {
    LowerIs("twitter", "twitter");
  }

  /** The request an adapter sends for one post on one account. */
  function Request(rail: Rail, content: string, mediaUrls: seq<string>, accessToken: string, platformId: string): HttpRequest {
    match rail
    case MetaRail => Meta.RequestFor(content, mediaUrls, accessToken, platformId)
  }

  /** The outcome an adapter reports for what the network gave; every adapter reports a well-formed one. */
  function Result(rail: Rail, response: FetchOutcome): (r: RailResult)
    ensures WellFormedResult(r)
  {
    match rail
    case MetaRail => Meta.ToRailResult(response)
  }

  /** The publish contract: one request out, one well-formed outcome back, never an exception. */
  method Publish(rail: Rail, content: string, mediaUrls: seq<string>, accessToken: string, platformId: string,
                 fetch: HttpRequest -> FetchOutcome)
    returns (result: RailResult, request: HttpRequest)
    ensures request == Request(rail, content, mediaUrls, accessToken, platformId)
    ensures result == Result(rail, fetch(request))
  {
    match rail {
      case MetaRail =>
        result, request := Meta.Publish(content, mediaUrls, accessToken, platformId, fetch);
    }
  }
}
