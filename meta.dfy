/**
 * The Meta rail (Facebook and Instagram): it builds a Graph API request for one
 * post and maps whatever the network gives back to a RailResult. `fetch` is a
 * parameter that yields either a response or a thrown error.
 */
module Meta {
  import opened Wrappers
  import opened Domain

  const BASE_URL := "https://graph.facebook.com/v18.0"
  const UNKNOWN_ERROR := "Unknown error"
  const NETWORK_ERROR := "Network or API error"

  /** The page or account feed the post goes to. */
  function Endpoint(platformId: string): string {
    BASE_URL + "/" + platformId + "/feed"
  }

  /** The request body before the token is added: the message, and a link to the first medium if any. */
  function BodyFields(content: string, mediaUrls: seq<string>): map<string, string> {
    if |mediaUrls| > 0 then map["message" := content, "link" := mediaUrls[0]]
    else map["message" := content]
  }

  /** The object serialised as the request body: the body fields spread, then `access_token`. */
  function Payload(body: map<string, string>, accessToken: string): map<string, string> {
    body["access_token" := accessToken]
  }

  /** The request `publish` sends. */
  function RequestFor(content: string, mediaUrls: seq<string>, accessToken: string, platformId: string): (r: HttpRequest)
    ensures r.verb == "POST" && r.url == BASE_URL + "/" + platformId + "/feed"
    ensures r.headers == map["Content-Type" := "application/json"]
    ensures r.payload.Keys == {"message", "access_token"} + (if |mediaUrls| > 0 then {"link"} else {})
    ensures r.payload["message"] == content && r.payload["access_token"] == accessToken
    ensures "link" in r.payload ==> r.payload["link"] == mediaUrls[0]
  {
    HttpRequest("POST", Endpoint(platformId), map["Content-Type" := "application/json"],
                Payload(BodyFields(content, mediaUrls), accessToken))
  }

  /**
   * The outcome for what the network gave: success with the remote id exactly when the
   * response is ok and carries a truthy id; otherwise a failure naming the cause.
   */
  function ToRailResult(response: FetchOutcome): (r: RailResult)
    ensures WellFormedResult(r)
    ensures r.success <==> response.Response? && response.ok && Truthy(response.id)
    ensures r.success ==> r.postId == response.id
  {
    match response
    case Thrown => FailedWith(NETWORK_ERROR)
    case Response(ok, id, errorMessage) =>
      if ok && Truthy(id) then RailResult(true, id, None)
      else FailedWith(if Truthy(errorMessage) then errorMessage.value else UNKNOWN_ERROR)
  }

  /** The error a failed outcome carries, for each way a publish can fail. */
  lemma FailureMessages(response: FetchOutcome)
    ensures response.Thrown? ==> ToRailResult(response) == FailedWith(NETWORK_ERROR)
    ensures response.Response? && !(response.ok && Truthy(response.id)) ==>
      ToRailResult(response).error ==
        Some(if Truthy(response.errorMessage) then response.errorMessage.value else UNKNOWN_ERROR)
  { }

  /** Distinct account ids are sent to distinct endpoints. */
  lemma EndpointInjective(p: string, q: string)
    requires Endpoint(p) == Endpoint(q)
    ensures p == q
  {
    var n := |BASE_URL| + 1;
    assert |p| == |q|;
    assert p == Endpoint(p)[n..n + |p|];
    assert q == Endpoint(q)[n..n + |q|];
  }

  /** The request body: `message` is the content, `link` the first medium when there is one. */
  method BuildBody(content: string, mediaUrls: seq<string>) returns (body: map<string, string>)
    ensures body.Keys == {"message"} + (if |mediaUrls| > 0 then {"link"} else {})
    ensures body["message"] == content
    ensures "link" in body <==> |mediaUrls| > 0
    ensures "link" in body ==> body["link"] == mediaUrls[0]
  {
    body := map["message" := content];
    if |mediaUrls| > 0 {
      body := body["link" := mediaUrls[0]];
    }
  }

  /**
   * Publishes one post on one page: sends the request and maps the result. Every
   * outcome of `fetch`, a thrown error included, becomes a well-formed RailResult,
   * so nothing escapes to the caller.
   */
  method Publish(content: string, mediaUrls: seq<string>, accessToken: string, platformId: string,
                 fetch: HttpRequest -> FetchOutcome)
    returns (result: RailResult, request: HttpRequest)
    ensures request == RequestFor(content, mediaUrls, accessToken, platformId)
    ensures result == ToRailResult(fetch(request))
    ensures WellFormedResult(result)
  {
    var endpoint := BASE_URL + "/" + platformId + "/feed";
    var body := BuildBody(content, mediaUrls);
    assert body == BodyFields(content, mediaUrls);
    request := HttpRequest("POST", endpoint, map["Content-Type" := "application/json"],
                           body["access_token" := accessToken]);
    var response := fetch(request);
    match response {
      case Thrown =>
        result := FailedWith(NETWORK_ERROR);
      case Response(ok, id, errorMessage) =>
        if ok && Truthy(id) {
          result := RailResult(true, id, None);
        } else if Truthy(errorMessage) {
          result := FailedWith(errorMessage.value);
        } else {
          result := FailedWith(UNKNOWN_ERROR);
        }
    }
  }
}
