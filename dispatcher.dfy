/**
 * The dispatcher: `POST /api/v1/posts`. It authenticates the caller by API key,
 * validates the fields, checks that the brand belongs to the caller, creates a
 * QUEUED post, and hands the post id to the delivery queue; when the queue refuses
 * the job it marks the post FAILED instead.
 *
 * `Submit` is the specification of the whole request; `Store.SubmitPost` the handler.
 */
module Dispatcher {
  import opened Wrappers
  import opened Domain

  const MISSING_API_KEY := "Missing x-api-key header"
  const INVALID_API_KEY := "Invalid API Key"
  const MISSING_FIELDS := "Missing required fields: content, brandId, platforms (array)"
  const NO_PLATFORM := "At least one platform is required"
  const FORBIDDEN := "Brand not found or you do not have permission to access it"
  const QUEUE_FAILED := "Failed to queue post"
  const INTERNAL_ERROR := "Internal Server Error"
  const SCHEDULED := "Post has been scheduled for processing."
  const WORKER_PATH := "/api/workers/publish"
  const RETRIES := 3

  /**
   * The JSON body as far as the dispatcher reads it; `None` is an absent field, and
   * for `platforms` also a value that is not an array.
   */
  datatype PostRequest = PostRequest(
    content: Option<string>,
    mediaUrls: Option<seq<string>>,
    platforms: Option<seq<string>>,
    brandId: Option<string>)

  /** The body of a 202 reply. */
  datatype Accepted = Accepted(id: PostId, status: string, message: string)

  /** `!content || !brandId || !platforms || !Array.isArray(platforms)`, negated. */
  predicate FieldsPresent(request: PostRequest) {
    Truthy(request.content) && Truthy(request.brandId) && request.platforms.Some?
  }

  /** The brand lookup by id and owner: an absent brand and another user's brand both fail. */
  predicate OwnsBrand(brands: map<BrandId, Brand>, user: UserId, brandId: BrandId) {
    brandId in brands && brands[brandId].userId == user
  }

  /** The job an admitted post is handed to the queue with. */
  function JobFor(appUrl: string, postId: PostId): Job {
    Job(appUrl + WORKER_PATH, postId, RETRIES)
  }

  /** The row `prisma.post.create` inserts for an admitted request. */
  function NewPost(id: PostId, request: PostRequest): Post
    requires FieldsPresent(request)
  {
    Post(id, request.content.value, request.mediaUrls.GetOr([]), request.platforms.value,
         request.brandId.value, Queued, Outcomes(map[]))
  }

  /** The request was authenticated, well formed and for one of the caller's brands. */
  predicate Admitted(users: map<string, UserId>, brands: map<BrandId, Brand>, apiKey: Option<string>, request: PostRequest) {
    && Truthy(apiKey) && apiKey.value in users
    && FieldsPresent(request) && |request.platforms.value| > 0
    && OwnsBrand(brands, users[apiKey.value], request.brandId.value)
  }

  /**
   * The endpoint on the post table. `enqueueFails` says whether publishing the job
   * throws, `compensationFails` whether the FAILED write after it throws too; `newId`
   * is the id the database gives the new row.
   */
  function Submit(users: map<string, UserId>, brands: map<BrandId, Brand>, posts: map<PostId, Post>,
                  apiKey: Option<string>, request: PostRequest, appUrl: string, newId: PostId,
                  enqueueFails: bool, compensationFails: bool)
    : Transition<Accepted, map<PostId, Post>>
  {
    if !Truthy(apiKey) then Transition(Error(401, MISSING_API_KEY), posts, [])
    else if apiKey.value !in users then Transition(Error(401, INVALID_API_KEY), posts, [])
    else if !FieldsPresent(request) then Transition(Error(400, MISSING_FIELDS), posts, [])
    else if |request.platforms.value| == 0 then Transition(Error(400, NO_PLATFORM), posts, [])
    else if !OwnsBrand(brands, users[apiKey.value], request.brandId.value) then Transition(Error(403, FORBIDDEN), posts, [])
    else Admission(posts, NewPost(newId, request), appUrl, enqueueFails, compensationFails)
  }

  /**
   * An admitted post: inserted QUEUED, then its job handed to the queue; when that
   * throws, the post is marked FAILED with the queueing error, unless that write throws too.
   */
  function Admission(posts: map<PostId, Post>, post: Post, appUrl: string, enqueueFails: bool, compensationFails: bool)
    : Transition<Accepted, map<PostId, Post>>
  {
    var created := posts[post.id := post];
    if !enqueueFails then
      Transition(Ok(202, Accepted(post.id, "queued", SCHEDULED)), created,
                 [PostInserted(post), JobEnqueued(JobFor(appUrl, post.id))])
    else if compensationFails then
      Transition(Error(500, INTERNAL_ERROR), created, [PostInserted(post)])
    else
      Transition(Error(500, QUEUE_FAILED), created[post.id := post.(status := Failed, results := QueueError(QUEUEING_FAILED))],
                 [PostInserted(post), PostUpdated(post.id, Failed, Some(QueueError(QUEUEING_FAILED)))])
  }

  // ----- rejected requests -----

  /** No key gives 401 "Missing", a key no user has gives 401 "Invalid"; nothing is created. */
  lemma UnauthenticatedCreatesNothing(users: map<string, UserId>, brands: map<BrandId, Brand>, posts: map<PostId, Post>,
                                      apiKey: Option<string>, request: PostRequest, appUrl: string, newId: PostId,
                                      enqueueFails: bool, compensationFails: bool)
    requires !Truthy(apiKey) || apiKey.value !in users
    ensures var t := Submit(users, brands, posts, apiKey, request, appUrl, newId, enqueueFails, compensationFails);
      && t.reply == Error(401, if !Truthy(apiKey) then MISSING_API_KEY else INVALID_API_KEY)
      && t.state == posts && t.effects == []
  { }

  /** An authenticated request lacking content, brand id or a platforms array gets 400 and changes nothing. */
  lemma MissingFieldsRejected(users: map<string, UserId>, brands: map<BrandId, Brand>, posts: map<PostId, Post>,
                              apiKey: Option<string>, request: PostRequest, appUrl: string, newId: PostId,
                              enqueueFails: bool, compensationFails: bool)
    requires Truthy(apiKey) && apiKey.value in users
    requires !FieldsPresent(request)
    ensures var t := Submit(users, brands, posts, apiKey, request, appUrl, newId, enqueueFails, compensationFails);
      t.reply == Error(400, MISSING_FIELDS) && t.state == posts && t.effects == []
  { }

  /** An empty platforms array gets its own 400 and changes nothing. */
  lemma EmptyPlatformsRejected(users: map<string, UserId>, brands: map<BrandId, Brand>, posts: map<PostId, Post>,
                               apiKey: Option<string>, request: PostRequest, appUrl: string, newId: PostId,
                               enqueueFails: bool, compensationFails: bool)
    requires Truthy(apiKey) && apiKey.value in users
    requires FieldsPresent(request) && request.platforms.value == []
    ensures var t := Submit(users, brands, posts, apiKey, request, appUrl, newId, enqueueFails, compensationFails);
      t.reply == Error(400, NO_PLATFORM) && t.state == posts && t.effects == []
  { }

  /**
   * A brand that does not exist and a brand of another user are indistinguishable:
   * the same 403 and nothing created, whichever of the two it is.
   */
  lemma NoExistenceLeak(users: map<string, UserId>, brands: map<BrandId, Brand>, posts: map<PostId, Post>,
                        apiKey: Option<string>, request: PostRequest, appUrl: string, newId: PostId,
                        enqueueFails: bool, compensationFails: bool)
    requires Truthy(apiKey) && apiKey.value in users
    requires FieldsPresent(request) && |request.platforms.value| > 0
    requires var brandId := request.brandId.value;
      brandId !in brands || brands[brandId].userId != users[apiKey.value]
    ensures var t := Submit(users, brands, posts, apiKey, request, appUrl, newId, enqueueFails, compensationFails);
      t.reply == Error(403, FORBIDDEN) && t.state == posts && t.effects == []
  { }

  /** A request that gets anything but a 2xx or 5xx reply left the table and the queue alone. */
  lemma RejectedChangesNothing(users: map<string, UserId>, brands: map<BrandId, Brand>, posts: map<PostId, Post>,
                               apiKey: Option<string>, request: PostRequest, appUrl: string, newId: PostId,
                               enqueueFails: bool, compensationFails: bool)
    ensures var t := Submit(users, brands, posts, apiKey, request, appUrl, newId, enqueueFails, compensationFails);
      !Admitted(users, brands, apiKey, request) <==> (t.state == posts && t.effects == [] && 400 <= t.reply.code < 500)
  { }

  // ----- admitted requests -----

  /**
   * An admitted request whose job is queued: 202 with the new id and "queued", one new
   * QUEUED post with empty results, the request's platforms as targets and `[]` for
   * absent media, and one job carrying exactly that id with 3 retries. No rail is called.
   */
  lemma AdmissionQueues(users: map<string, UserId>, brands: map<BrandId, Brand>, posts: map<PostId, Post>,
                        apiKey: Option<string>, request: PostRequest, appUrl: string, newId: PostId,
                        compensationFails: bool)
    requires Admitted(users, brands, apiKey, request)
    ensures var t := Submit(users, brands, posts, apiKey, request, appUrl, newId, false, compensationFails);
            var post := t.state[newId];
      && t.reply == Ok(202, Accepted(newId, "queued", SCHEDULED))
      && t.state.Keys == posts.Keys + {newId}
      && (forall id :: id in posts && id != newId ==> t.state[id] == posts[id])
      && post.status == Queued && post.results == Outcomes(map[])
      && post.id == newId && post.content == request.content.value && post.brandId == request.brandId.value
      && post.targets == request.platforms.value
      && post.mediaUrls == (if request.mediaUrls.Some? then request.mediaUrls.value else [])
      && t.effects == [PostInserted(post), JobEnqueued(Job(appUrl + "/api/workers/publish", newId, 3))]
  { }

  /** The queue refused the job: 500, and the new post is FAILED with the queueing error. */
  lemma QueueFailureMarksFailed(users: map<string, UserId>, brands: map<BrandId, Brand>, posts: map<PostId, Post>,
                                apiKey: Option<string>, request: PostRequest, appUrl: string, newId: PostId)
    requires Admitted(users, brands, apiKey, request)
    ensures var t := Submit(users, brands, posts, apiKey, request, appUrl, newId, true, false);
      && t.reply == Error(500, QUEUE_FAILED)
      && t.state == posts[newId := NewPost(newId, request).(status := Failed, results := QueueError(QUEUEING_FAILED))]
      && t.effects == [PostInserted(NewPost(newId, request)), PostUpdated(newId, Failed, Some(QueueError(QUEUEING_FAILED)))]
      && forall e :: e in t.effects ==> !e.JobEnqueued?
  { }

  /**
   * Unless the FAILED write itself throws, the request leaves its post QUEUED only when
   * it enqueued a job for it.
   */
  lemma NeverQueuedWithoutJob(users: map<string, UserId>, brands: map<BrandId, Brand>, posts: map<PostId, Post>,
                              apiKey: Option<string>, request: PostRequest, appUrl: string, newId: PostId,
                              enqueueFails: bool)
    requires newId !in posts
    ensures var t := Submit(users, brands, posts, apiKey, request, appUrl, newId, enqueueFails, false);
      forall id :: id in t.state && id !in posts && t.state[id].status == Queued ==>
        JobEnqueued(JobFor(appUrl, id)) in t.effects
  { }

  /**
   * When the FAILED write throws as well, the outer handler answers 500 and the post
   * stays QUEUED with no job for it.
   */
  lemma CompensationFailureStrandsPost(users: map<string, UserId>, brands: map<BrandId, Brand>, posts: map<PostId, Post>,
                                       apiKey: Option<string>, request: PostRequest, appUrl: string, newId: PostId)
    requires Admitted(users, brands, apiKey, request)
    ensures var t := Submit(users, brands, posts, apiKey, request, appUrl, newId, true, true);
      && t.reply == Error(500, INTERNAL_ERROR)
      && t.state[newId].status == Queued
      && forall e :: e in t.effects ==> !e.JobEnqueued?
  { }

  /** The dispatcher never publishes: no rail is called and no existing post is touched. */
  lemma SubmitNeverPublishes(users: map<string, UserId>, brands: map<BrandId, Brand>, posts: map<PostId, Post>,
                             apiKey: Option<string>, request: PostRequest, appUrl: string, newId: PostId,
                             enqueueFails: bool, compensationFails: bool)
    requires newId !in posts
    ensures var t := Submit(users, brands, posts, apiKey, request, appUrl, newId, enqueueFails, compensationFails);
      && (forall e :: e in t.effects ==> !e.RailCalled?)
      && (forall id :: id in posts ==> id in t.state && t.state[id] == posts[id])
      && (t.state.Keys == posts.Keys || t.state.Keys == posts.Keys + {newId})
  { }

  /** The dispatcher keeps the post invariant, and every post it creates is of an existing brand. */
  lemma SubmitKeepsConsistency(users: map<string, UserId>, brands: map<BrandId, Brand>, posts: map<PostId, Post>,
                               apiKey: Option<string>, request: PostRequest, appUrl: string, newId: PostId,
                               enqueueFails: bool, compensationFails: bool)
    requires PostsConsistent(posts)
    ensures var t := Submit(users, brands, posts, apiKey, request, appUrl, newId, enqueueFails, compensationFails);
      && PostsConsistent(t.state)
      && forall id :: id in t.state && id !in posts ==> t.state[id].brandId in brands
  {
    var t := Submit(users, brands, posts, apiKey, request, appUrl, newId, enqueueFails, compensationFails);
    if Admitted(users, brands, apiKey, request) {
      var post := NewPost(newId, request);
      assert PostConsistent(post);
      assert PostConsistent(post.(status := Failed, results := QueueError(QUEUEING_FAILED)));
    }
  }
}
