/**
 * The persistent store the three endpoints share: the user, brand, social account
 * and post tables, held as maps and updated in place by the request handlers. The
 * ghost `trace` records every externally observable effect in the order it happens.
 *
 * Each handler is the endpoint written step by step, and its contract ties the new
 * tables and the new trace to the transition function of its module.
 */
module Store {
  import opened Wrappers
  import opened Domain
  import Worker
  import Dispatcher
  import Brands

  /** Every post belongs to a stored brand. */
  predicate PostsOfBrands(brands: map<BrandId, Brand>, posts: map<PostId, Post>) {
    forall id :: id in posts ==> posts[id].brandId in brands
  }

  /** The tables' invariant: consistent posts of existing brands, brand names unique per user. */
  predicate Tables(brands: map<BrandId, Brand>, posts: map<PostId, Post>) {
    && PostsConsistent(posts)
    && Brands.UniqueNames(brands) && Brands.KeyedById(brands)
    && PostsOfBrands(brands, posts)
  }

  /** The worker keeps the tables' invariant. */
  lemma ProcessKeepsTables(brands: map<BrandId, Brand>, posts: map<PostId, Post>,
                           accounts: map<BrandId, seq<SocialAccount>>, postId: Option<string>,
                           decrypt: Worker.Decrypt, network: Worker.Network, commitFails: bool)
    requires Tables(brands, posts)
    ensures Tables(brands, Worker.Process(posts, accounts, postId, decrypt, network, commitFails).state)
  {
    Worker.ProcessKeepsConsistency(posts, accounts, postId, decrypt, network, commitFails);
    Worker.ProcessAdvances(posts, accounts, postId, decrypt, network, commitFails);
  }

  /** Admitting a consistent post of a stored brand under a fresh id keeps the tables' invariant. */
  lemma AdmissionKeepsTables(brands: map<BrandId, Brand>, posts: map<PostId, Post>, post: Post, appUrl: string,
                             enqueueFails: bool, compensationFails: bool)
    requires Tables(brands, posts)
    requires post.id !in posts && post.brandId in brands
    requires PostConsistent(post) && post.status == Queued
    ensures Tables(brands, Dispatcher.Admission(posts, post, appUrl, enqueueFails, compensationFails).state)
  {
    assert PostConsistent(post.(status := Failed, results := QueueError(QUEUEING_FAILED)));
  }

  /** The dispatcher keeps the tables' invariant when the database gives a fresh id. */
  lemma SubmitKeepsTables(users: map<string, UserId>, brands: map<BrandId, Brand>, posts: map<PostId, Post>,
                          apiKey: Option<string>, request: Dispatcher.PostRequest, appUrl: string, newId: PostId,
                          enqueueFails: bool, compensationFails: bool)
    requires Tables(brands, posts)
    requires newId !in posts
    ensures Tables(brands, Dispatcher.Submit(users, brands, posts, apiKey, request, appUrl, newId,
                                             enqueueFails, compensationFails).state)
  {
    Dispatcher.SubmitKeepsConsistency(users, brands, posts, apiKey, request, appUrl, newId, enqueueFails, compensationFails);
    Dispatcher.SubmitNeverPublishes(users, brands, posts, apiKey, request, appUrl, newId, enqueueFails, compensationFails);
  }

  /** Brand creation keeps the tables' invariant when the database gives a fresh id. */
  lemma CreateKeepsTables(brands: map<BrandId, Brand>, posts: map<PostId, Post>, userId: UserId,
                          name: Option<string>, clientRefId: Option<string>, newId: BrandId)
    requires Tables(brands, posts)
    requires newId !in brands
    ensures Tables(Brands.Create(brands, userId, name, clientRefId, newId).state, posts)
  {
    Brands.CreateKeepsUnique(brands, userId, name, clientRefId, newId);
    Brands.CreateNeverRemoves(brands, userId, name, clientRefId, newId);
  }

  class Database {
    /** The user table, by API key. */
    var users: map<string, UserId>
    var brands: map<BrandId, Brand>
    /** The social accounts linked to each brand. */
    var accounts: map<BrandId, seq<SocialAccount>>
    var posts: map<PostId, Post>
    ghost var trace: seq<Effect>

    ghost predicate Valid()
      reads this
    {
      Tables(brands, posts)
    }

    constructor (users: map<string, UserId>, accounts: map<BrandId, seq<SocialAccount>>)
      ensures Valid()
      ensures this.users == users && this.accounts == accounts
      ensures brands == map[] && posts == map[] && trace == []
    {
      this.users := users;
      this.accounts := accounts;
      brands := map[];
      posts := map[];
      trace := [];
    }

    /** The worker endpoint for one delivered job. */
    method ProcessJob(postId: Option<string>, decrypt: Worker.Decrypt, network: Worker.Network, commitFails: bool)
      returns (reply: Reply<map<string, RailResult>>)
      requires Valid()
      modifies this
      ensures Valid()
      ensures var t := Worker.Process(old(posts), accounts, postId, decrypt, network, commitFails);
        reply == t.reply && posts == t.state && trace == old(trace) + t.effects
      ensures users == old(users) && brands == old(brands) && accounts == old(accounts)
    {
      ProcessKeepsTables(brands, posts, accounts, postId, decrypt, network, commitFails);
      if !Truthy(postId) {
        return Error(400, Worker.MISSING_POST_ID);
      }
      var id := postId.value;
      if id !in posts {
        return Error(404, Worker.POST_NOT_FOUND);
      }
      if posts[id].status != Queued {
        return Error(400, Worker.NOT_QUEUED);
      }
      reply := PublishQueued(id, decrypt, network, commitFails);
    }

    /** The worker past its guards: mark the post PROCESSING, publish to every target, commit. */
    method PublishQueued(id: PostId, decrypt: Worker.Decrypt, network: Worker.Network, commitFails: bool)
      returns (reply: Reply<map<string, RailResult>>)
      requires Valid()
      requires id != "" && id in posts && posts[id].status == Queued
      modifies this
      ensures Valid()
      ensures var t := Worker.Process(old(posts), accounts, Some(id), decrypt, network, commitFails);
        reply == t.reply && posts == t.state && trace == old(trace) + t.effects
      ensures users == old(users) && brands == old(brands) && accounts == old(accounts)
    {
      ProcessKeepsTables(brands, posts, accounts, Some(id), decrypt, network, commitFails);
      var post := posts[id];
      posts := posts[id := post.(status := Processing)];
      trace := trace + [PostUpdated(id, Processing, None)];
      var results, requests, threw := Worker.PublishTargets(post, Worker.AccountsOf(accounts, post.brandId), decrypt, network);
      trace := trace + Worker.RailCalls(requests);
      AppendPieces(old(trace), [PostUpdated(id, Processing, None)], Worker.RailCalls(requests),
                   [PostUpdated(id, if AllSucceeded(results) then Completed else Failed, Some(Outcomes(results)))]);
      if threw || commitFails {
        return Error(500, Worker.INTERNAL_ERROR);
      }
      var status := if AllSucceeded(results) then Completed else Failed;
      posts := posts[id := post.(status := status, results := Outcomes(results))];
      trace := trace + [PostUpdated(id, status, Some(Outcomes(results)))];
      reply := Ok(200, results);
    }

    /** The dispatcher endpoint for one request; `newId` is the id the database picks for a new row. */
    method SubmitPost(apiKey: Option<string>, request: Dispatcher.PostRequest, appUrl: string, newId: PostId,
                      enqueueFails: bool, compensationFails: bool)
      returns (reply: Reply<Dispatcher.Accepted>)
      requires Valid()
      requires newId !in posts
      modifies this
      ensures Valid()
      ensures var t := Dispatcher.Submit(users, brands, old(posts), apiKey, request, appUrl, newId, enqueueFails, compensationFails);
        reply == t.reply && posts == t.state && trace == old(trace) + t.effects
      ensures users == old(users) && brands == old(brands) && accounts == old(accounts)
    {
      if !Truthy(apiKey) {
        return Error(401, Dispatcher.MISSING_API_KEY);
      }
      if apiKey.value !in users {
        return Error(401, Dispatcher.INVALID_API_KEY);
      }
      var user := users[apiKey.value];
      if !Truthy(request.content) || !Truthy(request.brandId) || request.platforms.None? {
        return Error(400, Dispatcher.MISSING_FIELDS);
      }
      var platforms := request.platforms.value;
      if |platforms| == 0 {
        return Error(400, Dispatcher.NO_PLATFORM);
      }
      var brandId := request.brandId.value;
      if !(brandId in brands && brands[brandId].userId == user) {
        return Error(403, Dispatcher.FORBIDDEN);
      }
      var brand := brands[brandId];
      var mediaUrls := if request.mediaUrls.Some? then request.mediaUrls.value else [];
      var post := Post(newId, request.content.value, mediaUrls, platforms, brand.id, Queued, Outcomes(map[]));
      reply := Admit(post, appUrl, enqueueFails, compensationFails);
    }

    /** The dispatcher past its guards: insert the QUEUED post, queue its job, or mark it FAILED. */
    method Admit(post: Post, appUrl: string, enqueueFails: bool, compensationFails: bool)
      returns (reply: Reply<Dispatcher.Accepted>)
      requires Valid()
      requires post.id !in posts && post.brandId in brands
      requires PostConsistent(post) && post.status == Queued
      modifies this
      ensures Valid()
      ensures var t := Dispatcher.Admission(old(posts), post, appUrl, enqueueFails, compensationFails);
        reply == t.reply && posts == t.state && trace == old(trace) + t.effects
      ensures users == old(users) && brands == old(brands) && accounts == old(accounts)
    {
      AdmissionKeepsTables(brands, posts, post, appUrl, enqueueFails, compensationFails);
      var newId := post.id;
      posts := posts[newId := post];
      trace := trace + [PostInserted(post)];
      var job := Job(appUrl + Dispatcher.WORKER_PATH, newId, Dispatcher.RETRIES);
      if enqueueFails {
        if compensationFails {
          return Error(500, Dispatcher.INTERNAL_ERROR);
        }
        posts := posts[newId := post.(status := Failed, results := QueueError(QUEUEING_FAILED))];
        trace := trace + [PostUpdated(newId, Failed, Some(QueueError(QUEUEING_FAILED)))];
        AppendPieces(old(trace), [PostInserted(post)], [PostUpdated(newId, Failed, Some(QueueError(QUEUEING_FAILED)))], []);
        return Error(500, Dispatcher.QUEUE_FAILED);
      }
      trace := trace + [JobEnqueued(job)];
      AppendPieces(old(trace), [PostInserted(post)], [JobEnqueued(job)], []);
      reply := Ok(202, Dispatcher.Accepted(newId, "queued", Dispatcher.SCHEDULED));
    }

    /** The brand endpoint for the authenticated user `userId`; `newId` is the id the database picks. */
    method CreateBrand(userId: UserId, name: Option<string>, clientRefId: Option<string>, newId: BrandId)
      returns (reply: Reply<Brand>)
      requires Valid()
      requires newId !in brands
      modifies this
      ensures Valid()
      ensures var t := Brands.Create(old(brands), userId, name, clientRefId, newId);
        reply == t.reply && brands == t.state && trace == old(trace) + t.effects
      ensures users == old(users) && posts == old(posts) && accounts == old(accounts)
    {
      CreateKeepsTables(brands, posts, userId, name, clientRefId, newId);
      if !Truthy(name) {
        return Error(400, Brands.MISSING_NAME);
      }
      if exists id :: id in brands && brands[id].userId == userId && brands[id].name == name.value {
        return Error(409, Brands.DUPLICATE);
      }
      var brand := Brand(newId, name.value, clientRefId, userId);
      brands := brands[newId := brand];
      trace := trace + [BrandInserted(brand)];
      reply := Ok(200, brand);
    }
  }
}
