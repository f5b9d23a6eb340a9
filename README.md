# feedrail publish pipeline, modelled in Dafny

This project models the publish dispatch pipeline of the feedrail API. A client submits a post for one of its brands. The dispatcher puts the post in the post table as QUEUED and hands its id to a delivery queue. A worker later takes the job and checks that the post is still QUEUED. It marks the post PROCESSING, then runs every target platform through the rail registry and the Meta adapter. Finally it writes the status, COMPLETED or FAILED, together with the per-platform results in one update. Brand creation keeps each user's brand names unique.

Modules, one per source file or concern:

- `Wrappers`: `Option`, and JavaScript truthiness for an optional string.
- `Domain`: the records shared by all modules.
  - The four post statuses (`lib/constants.ts:2-7`) and `RailResult` (`lib/rails/types.ts:6-10`).
  - The post, brand and social-account rows.
  - HTTP requests and replies, and the log of observable effects.
  - `PostConsistent`, the invariant every stored post keeps, and `Advances`, its status only ever moving forward.
- `Meta`: `MetaRail.publish`.
  - The imperative body builder and the request it sends.
  - The pure mapping from what `fetch` gives to a `RailResult`.
- `Rails`: the registry `createRail` and the adapter contract.
- `Worker`: the worker endpoint.
  - `TargetStep` is one iteration of the loop over targets.
  - `Run` is the loop as a fold over the steps, and `Process` is the whole request.
  - `PublishTarget` and `PublishTargets` are the loop, written imperatively and proved equal to `TargetStep` and `Run`.
- `Dispatcher`: the posts endpoint; `Submit` is the whole request and `Admission` its part after the guards.
- `Brands`: the brands endpoint; `Create` is the whole request.
- `Store`: the class `Database`.
  - It holds the user, brand, social-account and post tables as maps, plus a ghost `trace` of effects.
  - Its handlers (`ProcessJob`, `SubmitPost`, `CreateBrand`) change the tables step by step like the endpoints do.
  - Each handler is proved to leave exactly the tables and trace that the module's transition function gives.
  - Each handler keeps the tables' invariant `Tables`.

Things outside the endpoints are parameters:

- `decrypt` is a function from a stored token to its plaintext, or `None` where it throws.
- The network is a function giving the outcome for the rail call of the target at a given position.
- The queue's success or failure, and that of the worker's final write and the dispatcher's compensating write, are booleans.
- `APP_URL` is a string.
- The ids the database gives new rows are parameters; the handlers require that they are not already in use.

Where the code and its documentation disagree, the model follows the code:

- `decrypt` runs outside any per-target handling (`app/api/workers/publish/route.ts:50`). A throwing `decrypt` therefore ends the whole request in the 500 handler. The post stays PROCESSING, and it gets no per-target error entry.
- The account match comes first (line 42). So a platform without a registry entry reports "Platform not supported" only when the brand has an account whose provider equals it exactly. Otherwise it reports "No social account configured".

Results are not only those of the good cases:

- A post with duplicate targets keeps the outcome of the last occurrence.
- `results` is a plain object. Assigning `results["__proto__"]` runs the prototype setter and stores no entry. A target named `__proto__` therefore has no entry and does not take part in the aggregate status. A post whose only target is `__proto__` ends COMPLETED with `{}` (`Worker.ProtoTargetCompletesEmpty`). Every other platform name is an ordinary key.
- An empty target list would make the post COMPLETED vacuously. The dispatcher refuses empty lists, so `PostConsistent` keeps targets non-empty.
- When the dispatcher's compensating write throws, the post is left QUEUED with no job (`Dispatcher.CompensationFailureStrandsPost`).

## Model

| member | source | states |
|---|---|---|
| `Meta.RequestFor` | lib/rails/meta.ts:5-27 | The request is a POST to `https://graph.facebook.com/v18.0/<platformId>/feed` with a JSON content type. Its payload has exactly the keys message, access_token, and link when media are given. message is the content, access_token the token, link the first media URL |
| `Meta.EndpointInjective` | lib/rails/meta.ts:5-10 | Distinct platform ids are sent to distinct endpoints |
| `Meta.BuildBody` | lib/rails/meta.ts:12-17 | The body has message equal to the content, and link exactly when mediaUrls is non-empty, equal to `mediaUrls[0]` |
| `Meta.ToRailResult` | lib/rails/meta.ts:30-40 | The outcome is well formed. It succeeds exactly when the response is ok and carries a truthy id, and a success carries that id |
| `Meta.FailureMessages` | lib/rails/meta.ts:34-39 | A thrown error gives "Network or API error". Any other failure gives the response's error message, or "Unknown error" when that is falsy |
| `Meta.Publish` | lib/rails/meta.ts:7-41 | Sends exactly the request above and returns the mapped outcome of whatever comes back, a thrown error included. Every path returns a well-formed result, so nothing escapes |
| `Rails.Lower` | lib/rails/index.ts:7 | Lowering keeps the length and lowers each character |
| `Rails.LowerIdempotent` | lib/rails/index.ts:7 | Lowering twice is lowering once |
| `Rails.SupportedExactly` | lib/rails/index.ts:7-12 | A rail exists exactly when the lowered name is facebook or instagram, and it is then the Meta rail |
| `Rails.CreateRailIgnoresCase` | lib/rails/index.ts:7 | `createRail(p)` equals `createRail(p.toLowerCase())` |
| `Rails.SameIgnoringCaseLowersEqual` | lib/rails/index.ts:7 | Names that are equal up to letter case lower to the same string |
| `Rails.AnyCaseResolvesAlike` | lib/rails/index.ts:7-12 | Names that are equal up to letter case resolve to the same rail or to none alike |
| `Rails.AnyCaseOfSupportedIsMeta` | lib/rails/index.ts:7-10 | Every name equal to facebook or instagram up to letter case resolves to the Meta rail |
| `Rails.TwitterUnsupported` | lib/rails/index.ts:11-12 | "twitter" gives no rail, and not an error |
| `Rails.Result` | lib/rails/types.ts:2-10 | Every adapter reports a well-formed outcome |
| `Rails.Publish` | lib/rails/index.ts:8-10 | Publishing through the resolved rail sends that adapter's request and returns its outcome |
| `Worker.FindAccount` | app/api/workers/publish/route.ts:42 | Returns the first account whose provider equals the platform exactly, and none exactly when no account's provider equals it |
| `Worker.PublishTarget` | app/api/workers/publish/route.ts:41-67 | One iteration of the loop body does exactly what `TargetStep` specifies: account match, then `decrypt`, then registry, then rail |
| `Worker.PublishTargets` | app/api/workers/publish/route.ts:38-68 | The loop's results, its requests sent and whether it threw are exactly the fold `Run` over every target's step |
| `Worker.LoopStep` | app/api/workers/publish/route.ts:41-68 | One more iteration either ends the loop thrown or adds that target's outcome and request |
| `Worker.RunKeys` | app/api/workers/publish/route.ts:38-68 | Unless the loop threw, the result keys are exactly the platforms it went through, `__proto__` excepted |
| `Worker.FanOutCoversTargets` | app/api/workers/publish/route.ts:38-68 | Unless the loop threw, the result keys equal the set of the post's targets other than `__proto__` |
| `Worker.RunKeepsLastOutcome` | app/api/workers/publish/route.ts:41-67 | The entry of each platform other than `__proto__` is the outcome of its last occurrence among the targets |
| `Worker.RunThrewIff` | app/api/workers/publish/route.ts:41-68 | The loop throws exactly when some target's body throws. A failed outcome never stops the later targets |
| `Worker.RunStaysThrown` | app/api/workers/publish/route.ts:82-85 | Nothing happens after the loop has thrown |
| `Worker.RunWellFormed` | app/api/workers/publish/route.ts:45-67 | Well-formed steps give well-formed entries |
| `Worker.FanOutWellFormed` | app/api/workers/publish/route.ts:38-68 | Every entry the loop records is a well-formed outcome |
| `Worker.RunWithoutAccounts` | app/api/workers/publish/route.ts:44-47 | When every step is the no-account failure, nothing throws, nothing is sent, and every entry is that failure |
| `Worker.NoAccountStep` | app/api/workers/publish/route.ts:42-47 | With no account, the platform records "No social account configured" and sends nothing. The outcome is the same whatever `decrypt` and the network would do |
| `Worker.UnsupportedStep` | app/api/workers/publish/route.ts:50-57 | With an account but no rail, the platform records "Platform not supported" and sends nothing, whatever the network |
| `Worker.PublishedStep` | app/api/workers/publish/route.ts:59-67 | With an account, a token and a rail, the rail's outcome is recorded unchanged, with the request it sent |
| `Worker.DecryptPrecedesRegistry` | app/api/workers/publish/route.ts:49-53 | A throwing `decrypt` aborts the loop, even for a platform the registry would reject |
| `Worker.AccountMatchIsExactCase` | app/api/workers/publish/route.ts:42-53 | A target "Facebook" does not find a "facebook" account, although the registry accepts the name |
| `Worker.TwitterStep` | app/api/workers/publish/route.ts:42-57 | An unregistered platform reports "Platform not supported" when linked and "No social account configured" when not |
| `Worker.InvalidPostUntouched` | app/api/workers/publish/route.ts:14-26 | A missing postId gives 400 and an unknown one 404. The table is unchanged and nothing happens |
| `Worker.NotQueuedIsNoOp` | app/api/workers/publish/route.ts:28-30 | A post not in QUEUED gets 400. Its status and results are unchanged, and nothing happens |
| `Worker.RedeliveryIsNoOp` | app/api/workers/publish/route.ts:28-36 | Running the same job a second time, after the first, changes nothing and calls no rail |
| `Worker.MarkPrecedesRailCalls` | app/api/workers/publish/route.ts:33-36 | The PROCESSING write is the first effect and comes before every rail call |
| `Worker.CompletedIffEveryTargetSucceeded` | app/api/workers/publish/route.ts:71-75 | COMPLETED exactly when the kept outcome of every target other than `__proto__` succeeded, and FAILED otherwise |
| `Worker.SucceededEverywhere` | app/api/workers/publish/route.ts:71 | When every entry succeeded, the kept outcome of every target other than `__proto__` succeeded |
| `Worker.FailureIsKept` | app/api/workers/publish/route.ts:41-71 | A failed entry is the outcome of the last occurrence of a target other than `__proto__` |
| `Worker.CommitWritesAllResults` | app/api/workers/publish/route.ts:71-80 | A 200 reply carries one entry per target other than `__proto__`. The post gets the aggregate status and the full results, in the last effect and the only one that writes results |
| `Worker.CrashLeavesProcessing` | app/api/workers/publish/route.ts:32-85 | An exception in the loop, or a failed final write, gives 500. The post stays PROCESSING and no results are written |
| `Worker.NoReachableTargetFails` | app/api/workers/publish/route.ts:41-78 | When no target has an account, every entry is the no-account failure and no rail is called. The post is FAILED, or COMPLETED with no entry when `__proto__` is its only target |
| `Worker.ProtoTargetCompletesEmpty` | app/api/workers/publish/route.ts:38-78 | A post whose only target is `__proto__`, with no account for it, gets 200 with `{}` and is written COMPLETED with `{}` |
| `Worker.ProcessAdvances` | app/api/workers/publish/route.ts:28-78 | No post is lost and every post only moves forward: never back to QUEUED, and nothing terminal is rewritten |
| `Worker.ProcessKeepsConsistency` | app/api/workers/publish/route.ts:33-78 | The worker keeps every post consistent: no results until the end, then one well-formed outcome per target, and a status that agrees with them |
| `Dispatcher.UnauthenticatedCreatesNothing` | app/api/v1/posts/route.ts:10-24 | No key gives 401 "Missing x-api-key header", and an unknown key gives 401 "Invalid API Key", whatever the body holds. No post and no job are created |
| `Dispatcher.MissingFieldsRejected` | app/api/v1/posts/route.ts:29-37 | Falsy content, a falsy brandId, or platforms that are missing or not an array give 400, with no effect |
| `Dispatcher.EmptyPlatformsRejected` | app/api/v1/posts/route.ts:39-41 | An empty platforms array gives 400 "At least one platform is required", with no effect |
| `Dispatcher.NoExistenceLeak` | app/api/v1/posts/route.ts:48-59 | An absent brand and another user's brand give the same 403 and nothing is created |
| `Dispatcher.RejectedChangesNothing` | app/api/v1/posts/route.ts:10-59 | A request fails authentication, validation or ownership exactly when it gets a 4xx reply with no change and no effect |
| `Dispatcher.AdmissionQueues` | app/api/v1/posts/route.ts:65-114 | An admitted request gets 202 with the new id, "queued" and the scheduling message. Exactly one post is added: QUEUED, empty results, targets equal to platforms, mediaUrls defaulting to `[]`. Exactly one job is queued, for `APP_URL/api/workers/publish` with that id and 3 retries. No rail is called |
| `Dispatcher.QueueFailureMarksFailed` | app/api/v1/posts/route.ts:93-101 | When the queue throws, the reply is 500 "Failed to queue post". The new post is FAILED with `{error: "Queueing failed"}` and no job exists |
| `Dispatcher.NeverQueuedWithoutJob` | app/api/v1/posts/route.ts:85-101 | Unless the compensating write throws, every post the request leaves QUEUED has its job queued |
| `Dispatcher.CompensationFailureStrandsPost` | app/api/v1/posts/route.ts:93-119 | When the compensating write throws as well, the outer handler answers 500 and the post stays QUEUED without a job |
| `Dispatcher.SubmitNeverPublishes` | app/api/v1/posts/route.ts:61-114 | The dispatcher calls no rail and leaves every existing post as it was. It adds at most the new one |
| `Dispatcher.SubmitKeepsConsistency` | app/api/v1/posts/route.ts:65-101 | Every post the dispatcher leaves is consistent, and a new one belongs to an existing brand |
| `Brands.MissingNameRejected` | app/api/v1/brands/route.ts:14-16 | A missing or empty name gives 400 and the table is unchanged |
| `Brands.DuplicateRejected` | app/api/v1/brands/route.ts:18-25 | A brand of the same user with the same name gives 409 and the table is unchanged |
| `Brands.NamesArePerUser` | app/api/v1/brands/route.ts:19-21 | Brands of other users with the requested name never block it, whatever other brands the caller has |
| `Brands.CreatesExactlyOne` | app/api/v1/brands/route.ts:27-44 | Exactly one brand is added, with the given name and clientRefId and the caller as owner. The reply echoes its id, name, clientRefId and userId |
| `Brands.CreateKeepsUnique` | app/api/v1/brands/route.ts:18-34 | Under sequential execution, the pair (userId, name) stays unique across the table |
| `Brands.CreateNeverRemoves` | app/api/v1/brands/route.ts:28-34 | No request removes a brand |
| `Store.ProcessKeepsTables` | app/api/workers/publish/route.ts:28-78 | The worker keeps the tables' invariant |
| `Store.AdmissionKeepsTables` | app/api/v1/posts/route.ts:65-101 | Inserting an admitted post and queueing it, or failing it, keeps the tables' invariant |
| `Store.SubmitKeepsTables` | app/api/v1/posts/route.ts:10-101 | The dispatcher keeps the tables' invariant |
| `Store.CreateKeepsTables` | app/api/v1/brands/route.ts:14-34 | Brand creation keeps the tables' invariant |
| `Store.Database.ProcessJob` | app/api/workers/publish/route.ts:9-86 | The handler's reply, new post table and appended effects are exactly `Worker.Process`'s. The other tables are unchanged and the invariant is kept |
| `Store.Database.PublishQueued` | app/api/workers/publish/route.ts:32-80 | For a QUEUED post, the update to PROCESSING, the loop and the commit together give exactly `Worker.Process`'s outcome |
| `Store.Database.SubmitPost` | app/api/v1/posts/route.ts:5-114 | The handler's reply, new post table and appended effects are exactly `Dispatcher.Submit`'s. The other tables are unchanged and the invariant is kept |
| `Store.Database.Admit` | app/api/v1/posts/route.ts:65-101 | The insert, the enqueue and its compensation give exactly `Dispatcher.Admission`'s outcome |
| `Store.Database.CreateBrand` | app/api/v1/brands/route.ts:8-44 | The handler's reply, new brand table and appended effects are exactly `Brands.Create`'s. The other tables are unchanged and uniqueness is kept |

## Left out

- The social-accounts endpoint (app/api/v1/social-accounts/route.ts) is not modelled: it is an OAuth code exchange over the network. Accounts are an input table. The model does not rely on its at-most-one-account-per-(brand, provider) upsert; `FindAccount` takes the first match in table order.
- The Next.js middleware (middleware.ts, lib/middleware.ts) is not modelled.
  - The posts endpoint repeats the API-key check inline, and that check is modelled.
  - The brands endpoint's caller is its `userId` parameter. The handler as shown receives no `user` on its request. The resulting failure path (a TypeError caught as 500) is not modelled.
- The Prisma and QStash clients (lib/prisma.ts, lib/queue.ts), the seed script and the UI are not modelled. The tables are maps. The queue is a success/failure choice.
- `lib/crypto` is not part of this model; `decrypt` is an oracle.
- Parsing of request bodies is not modelled, and neither is a malformed JSON body (it fails in `req.json()` and reaches the 500 handlers). Fields are typed values: `content`, `brandId` and `name` are optional strings, and `platforms` is an optional list of strings (absent or not an array alike). Non-string values of these fields are not modelled.
- Database failures are modelled only where they decide a documented outcome. These are the worker's final write, the enqueue, and the dispatcher's compensating write. Failures of the lookups, of the PROCESSING write and of the inserts all return 500 from the catch-all handlers; they are not modelled.
- `toLowerCase` is modelled for the ASCII letters A to Z only. Other Unicode case mappings are not modelled: for instance, the Kelvin sign lowers to 'k', so "facebooK" would resolve in the real code.
- The network is an oracle by target position. The HTTP exchange itself is not modelled, and neither is the JSON decoding of the response (a throwing `response.json()` is covered by the thrown outcome).
- Concurrency is not modelled. Every operation runs alone. The worker's guard (app/api/workers/publish/route.ts:28-36) is a read followed by a write. Two deliveries of one job running at once could both pass it. The model claims nothing about that; `Worker.RedeliveryIsNoOp` is about deliveries in sequence.
- QStash's at-least-once delivery and its retry schedule are not modelled. The job records its retry budget of 3.
- Logging and the exact JSON encoding of replies are not modelled. Replies are a status code with a typed body or an error message.
- The rail requests appear in the effect trace after the PROCESSING write and before the final write, in target order. The loop writes nothing to the database, so this is their order.
- `APP_URL` is a string parameter. An unset variable, which interpolates as "undefined", is not treated specially.

## Findings

No defect in the source is claimed. Where the code and its design disagree, the model follows the code (see above).
