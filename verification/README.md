# Verified model of the RAG backend's stateful protocols

The backend is a multi-tenant REST service: users of an organization upload documents in
chunks, read document lists through a cache, chat with an assistant, and log in with
revocable tokens. This project models the parts that keep state under protocol rules and
proves, for every run, what those rules are for:

- **Chunked upload** (`Upload*.dfy`, `ObjectKeys.dfy`). Any number of chunk requests of one
  session id run interleaved, step by step, with store failures, a `done` channel, retries
  after a failed merge, cleanup goroutines and the idle janitor. `UploadProtocol` is the step
  relation; `UploadSafety` holds whatever the requests carry; `UploadExactness` adds one
  upload plan (one actor, one number of chunks, one payload per index); `UploadCalm` adds a
  truthful `Exists`, no eviction under a request in flight and no expiry of temporary chunks;
  `UploadOnce` adds the guard that makes "once per session object" into "once per session
  id", and `UploadAgain` shows that guard to be exact at the load. `UploadCompletes` shows that no
  history without the file is a dead end. `UploadAgain`, `UploadEvict` and `UploadExpire` say exactly
  when an erring check, an eviction and an expiry do harm in an otherwise calm protocol; `UploadWitness`
  has, for each assumption of `UploadCalm` and for the guard, a run from the empty state that breaks
  it alone and loses the result. `UploadService` is the service in its own imperative form; every
  call is a legal run of the protocol.
- **Quota** (`UploadQuota.dfy`). The usage rows and how far parallel admissions overshoot.
- **Cache-aside repositories** (`CacheKeys`, `SharedCache`, `OrganizationRepository`,
  `OrganizationCache`, `CacheStaleness`, `DocumentCache`). The cached repositories refine the
  bare ones under any get/set failure, expiry or flush, as long as invalidations succeed;
  when they do not, or a reader is overtaken, staleness is bounded exactly when the TTL is positive.
- **Rate limiter** (`RateLimit.dfy`). Evicting idle buckets is invisible, and exactly which calls are refused.
- **Tenants** (`Users`, `Registration`, `Tenancy`). Registration, bulk registration and
  organization deletion through the cache keep every active user's organization alive, exactly
  as long as no registration meets a stale admission.
- **Sessions and links** (`Auth`, `Passwords`, `Revocation`, `ResetLinks`). Exactly when a password, a
  refresh token and a password-reset link work.
- **Chat** (`ChatStore`, `Chat`, `ChatWindow`). The sliding window of 20 conversations.

Where the source updates state in place the model is a class whose methods are proved equal to
a specification function on values (`ensures Now() == Step(old(Now()), …)`), and the theorems
are about runs of those functions. Anything the environment decides (a database, cache or store call
failing, the clock, a random token, the AI's answer) is a parameter of the step.

Where code and documentation disagree the code is followed:

- `ROUTES.md:306` gives the final object as `uploads/{orgCode}/{sessionId}.pdf`; the code also
  puts the user id in the key (`upload_service.go:381-383`), and so does `ObjectKeys.FinalKey`.
- The comment at `upload_service.go:205` says exactly one goroutine merges. That holds per session
  object. Per session id it needs the guard of `UploadOnce`; `UploadAgain.FinalizesAgainIff` says exactly when
  a load makes a second finalize possible and `UploadWitness.OverlapFinalizesTwice` shows one.
- Object keys are injective for any organization code, slashes included: the keys can be
  read from the right, so only the session id has to be free of slashes.
- The comment at `keys.go:33` says tenants never share a list. An organization called "__all__" shares
  the admin's (`DocumentCache.OtherScopeIsRightIff`), and `organization_service.go:24` accepts that code.
- A profile edit that sets a new password revokes nothing (`user_service.go:85-94`); only logout,
  change-password and reset-password bump the token version (`Revocation.PasswordEditDoesNotRevoke`).
- Changing the password leaves an outstanding reset link usable (`auth_password.go:21-48`,
  `ResetLinks.OtherEventsLeaveLinks`).
- `CACHE_TTL=0` is accepted (`config.go:136`) and means no expiry, not no caching: nothing bounds
  how long a stale entry is served (`CacheStaleness.BoundedIff`).

Check it with `dafny verify dfyconfig.toml` (Dafny 4.11).

## Model

| member | source | states |
|---|---|---|
| UploadSafety.AtMostOneMerger | internal/service/upload/upload_service.go:205-217 | in every reachable state at most one request is in the merging branch of a session object |
| UploadSafety.MergedAndClosedOnce | internal/service/upload/upload_service.go:206-217 | per session object at most one finalize succeeds and `done` is closed at most once, after the result is written |
| UploadSafety.CloseIsSound | internal/service/upload/upload_service.go:214-216 | whenever `close(done)` is about to be called the channel is open and the result is the caller's own |
| UploadSafety.RepliesAgree | internal/service/upload/upload_service.go:214-222 | the merging request and every woken waiter report the one result published for their session object |
| UploadSafety.ClosedIsForever | internal/service/upload/upload_service.go:214-222 | after `done` is closed no later step changes the result or reopens the channel |
| UploadSafety.MergerStays | internal/service/upload/upload_service.go:205-217 | a request that won the flag keeps merging until it has merged or has given the flag back counting a failure |
| UploadSafety.RecorderRaces | internal/service/upload/upload_service.go:189-206 | since add and count share the critical section, the request that completes the set goes on to the compare-and-swap |
| UploadSafety.NoLostMerge | internal/service/upload/upload_service.go:189-217 | when all indices are recorded the merge is done, running, about to be raced for, or free for a retry after a failure |
| UploadSafety.FailedMergeIsRetried | internal/service/upload/upload_service.go:206-213 | in a full session whose flag is clear, the next request through the critical section becomes the merger |
| UploadExactness.Pigeonhole | internal/service/upload/upload_service.go:189-195 | a set of valid indices counting at least the total is the whole range, which is why a count is enough |
| UploadExactness.JoinedPrefix | internal/service/upload/upload_service.go:234-238 | composing stored chunks 0..n-1 yields the first n payloads in order |
| UploadExactness.FinalObjectIsTheFile | internal/service/upload/upload_service.go:172-242 | for one plan, in every reachable state the final object, if present, is payloads 0..total-1 in order, through retries, failures, cleanup, eviction and expiry |
| UploadExactness.MergersSawEveryChunk | internal/service/upload/upload_service.go:189-207 | whoever races for the flag or merges holds a session whose received set is {0,…,total-1} |
| UploadCalm.AfterSeesFileStep | internal/service/upload/upload_service.go:181-276 | requests past a compose, or told of the final object, see it present, after every step, calm or not |
| UploadCalm.BeforeSeesNoneStep | internal/service/upload/upload_service.go:233-241 | requests about to compose, or giving the flag back, see no final object, after every calm step |
| UploadCalm.OneLiveStep | internal/service/upload/upload_service.go:178-187 | until the file is composed all requests in flight share the session object in the map |
| UploadCalm.StoredStep | internal/service/upload/upload_service.go:172-193 | put precedes record, so until the file is composed every recorded index has its chunk stored |
| UploadCalm.ComposeNeverMissesASource | internal/service/upload/upload_service.go:233-242 | in a calm run every source of every Compose call is stored when the call is made, so the call can succeed |
| UploadOnce.FinalizedAtMostOncePerId | internal/service/upload/upload_service.go:179-217 | in a calm run where no request loads a fresh session behind an unfinished check, the session id is finalized at most once |
| UploadOnce.BookedAtMostOncePerId | internal/service/upload/upload_service.go:246-269 | in such a run at most one audit row is saved and at most one quota increment is made for the session id |
| UploadOnce.SerialIsGuarded | internal/service/upload/upload_service.go:179-187 | requests that do not overlap satisfy that guard |
| UploadOnce.SerialRequestsFinalizeOnce | internal/service/upload/upload_service.go:120-226 | chunk requests that do not overlap finalize, log and count their session id at most once |
| UploadAgain.FinalizesAgainIff | internal/service/upload/upload_service.go:179-187 | with the file in place, a request about to load the session may go on, in a calm future, to finalize the id once more if and only if its load is not guarded; when it is, the request never even merges |
| UploadAgain.MergesAgainIff | internal/service/upload/upload_service.go:205-216 | the same at the compare-and-swap: a racing request may finalize again if and only if its session's merge flag is clear |
| UploadFill.FillAll | internal/service/upload/upload_service.go:172-195 | from every state a run of the plan can leave, new requests calmly store and record all indices the session in the map misses, leaving out any given set of them and leaving any two given requests where they stand |
| UploadFill.DrainsToRace | internal/service/upload/upload_service.go:181-206 | when recorded and pending indices cover the plan, the requests that hold a session, in the map or not, calmly complete its set without help, and any one of them chosen beforehand goes on to race |
| UploadAgain.HarmlessRun | internal/service/upload/upload_service.go:181-225 | a request that checks truthfully or holds a session whose flag is up stays away from the merging branch in every calm future |
| UploadAgain.CheckErrorFinalizesIff | internal/service/upload/upload_service.go:183-187 | with the file in place and a check that errs, the request may finalize the id once more, in an otherwise calm future, if and only if its session's flag is clear and the session is in the map or can be filled by the requests that hold it |
| UploadCompletes.CompletesIff | internal/service/upload/upload_service.go:120-276 | from every state a run of the plan can leave without the file, some calm future puts it in place and finalizes it once, if and only if the plan has a chunk |
| UploadCompletes.EveryUploadCanComplete | internal/service/upload/upload_service.go:120-276 | after every run of a plan, whatever failed, was evicted, expired or was answered wrongly, the file is in place or a calm future completes the upload |
| UploadEvict.EvictionLosesAChunkIff | internal/service/upload/upload_service.go:105-116 | in a calm protocol, evicting the session in the map lets a compose miss a source in an otherwise calm future if and only if the file is not there yet and the requests that hold the session can bring it to a merge |
| UploadExpire.ExpiryLosesAChunkIff | internal/service/upload/upload_service.go:172-241 | in a calm protocol, expiring a stored chunk lets a compose miss it in an otherwise calm future if and only if the file is not there yet and its index counts, or is about to, without the chunk being sent again |
| UploadWitness.OverlapFinalizesTwice | internal/service/upload/upload_service.go:179-206 | without the guard: a calm run with overlapping requests that finalizes one session id twice |
| UploadWitness.ExistsErrorFinalizesTwice | internal/service/upload/upload_service.go:183-187 | without a truthful check: a run, calm otherwise and without overlap, that finalizes twice because an `Exists` error reads as absent |
| UploadWitness.EvictionUnderMergeLosesAChunk | internal/service/upload/upload_service.go:105-116 | without sparing held sessions: a run, calm otherwise, where the janitor evicts a session under a merge and the compose misses a source |
| UploadWitness.ProbeErrorLosesAChunk | internal/service/upload/upload_service.go:233-241 | without a truthful probe: a run, calm otherwise, where an `Exists` error in finalize sends a request to compose chunks a cleanup has removed |
| UploadWitness.ExpiryUnderMergeLosesAChunk | internal/service/upload/upload_service.go:172-241 | with expiring temporary chunks: a run, calm otherwise and without overlap, where the compose misses a source |
| UploadService.SessionObject.Record | internal/service/upload/upload_service.go:189-193 | the critical section adds the index and returns the count that includes it |
| UploadService.SessionObject.CompareAndSwap | internal/service/upload/upload_service.go:206 | won exactly when the flag was clear; afterwards it is set |
| UploadService.Service.ComposeChunks | internal/service/upload/upload_service.go:234-241 | fails leaving the store alone when a source is missing, else writes the chunks 0..total-1 joined in order |
| UploadService.Service.Assemble | internal/service/upload/upload_service.go:230-242 | the final object is put in place or found there if and only if the probe finds it, or the store composes and all sources are stored |
| UploadService.Service.Finalize | internal/service/upload/upload_service.go:230-276 | succeeds in exactly those cases; then one log row, the document-list invalidation, one increment and one cleanup; on failure nothing changes |
| UploadService.Service.UploadChunk | internal/service/upload/upload_service.go:120-226 | every call is a legal run of the protocol with the protocol's reply; each reply, Rejected, Failed, AlreadyThere, Incomplete, WokenWith and MergedAs, is given if and only if the session, the store and the world ask for it; and the session, the chunks, the final object, the books and the cleanups left are exactly those of the reply |
| UploadService.Service.Sweep | internal/service/upload/upload_service.go:104-116 | the entry is dropped exactly when its last chunk is older than the idle limit |
| UploadService.Service.RemoveUntil | internal/service/upload/upload_service.go:303-311 | the loop removes the chunks below the first failing one and keeps everything else |
| UploadService.Service.Cleanup | internal/service/upload/upload_service.go:295-313 | that, and the session is forgotten even when a removal fails |
| ObjectKeys.ChunkKeyRoundTrip | internal/service/upload/upload_service.go:377-379 | a parser recovers organization, user, session and index from a chunk key |
| ObjectKeys.FinalKeyRoundTrip | internal/service/upload/upload_service.go:381-383 | a parser recovers organization, user and session from a final key |
| ObjectKeys.ChunkKeysCollideIff | internal/service/upload/upload_service.go:377-379 | with validated session ids two chunk keys are equal if and only if all four parts are |
| ObjectKeys.FinalKeysCollideIff | internal/service/upload/upload_service.go:381-383 | with validated session ids two final keys are equal if and only if all three parts are |
| ObjectKeys.ChunkAndFinalKeysDisjoint | internal/service/upload/upload_service.go:377-383 | no chunk key is a final key |
| ObjectKeys.ValidIdIsSlashFree | internal/service/upload/validation.go:14-22 | a session id that passes validation has no slash |
| ObjectKeys.IdsOfLengthIff | internal/service/upload/validation.go:12-22 | session ids have 8 to 64 characters, and every such length is accepted |
| ObjectKeys.SlashInSessionIdCollides | internal/service/upload/validation.go:12-22 | without that validation two different uploads share a chunk key |
| UploadQuota.UsageTable.IncrementUsage | internal/repository/upload/upload_repository.go:88-113 | the transaction's new rows, or the old ones when it fails |
| UploadQuota.CheckQuota | internal/service/upload/upload_service.go:315-347 | admits exactly when there is no limit, or every query succeeds and both counts are below their limits |
| UploadQuota.IncrementCounts | internal/repository/upload/upload_repository.go:71-113 | one increment adds one to the user's maximum lifetime and to the sum of its months, and touches nobody else |
| UploadQuota.CountsAreConserved | internal/repository/upload/upload_repository.go:59-113 | over any run, maximum lifetime = sum of monthly counts = number of calls, and each month counts its own calls |
| UploadQuota.OvershootIsBounded | internal/service/upload/upload_service.go:137-140 | with at most K uploads open at once no run counts more than limit - 1 + K, over the lifetime or in any month, across month rollover |
| UploadQuota.OvershootHappens | internal/service/upload/upload_service.go:315-347 | for all limits and every K both at least 1 some legal run meets the bound: it counts lifetimeLimit - 1 + K, and one counts the lesser limit - 1 + K within a month |
| UploadQuota.LimitsAreKeptIff | internal/service/upload/upload_service.go:315-347 | no legal run with K uploads open at once counts past the lifetime limit if and only if K is at most 1, nor past the monthly limit if and only if K is at most 1 or lifetimeLimit - 1 + K is within it |
| CacheKeys.KeysCollideIff | internal/infra/cache/keys.go:11-48 | two reads share a key if and only if they are the same read, or both are the admin list or the list of an organization called "__all__" |
| OrganizationRepository.PutSorted | internal/repository/organization/organization_repository.go:35-64 | writes keep one row per code, in code order |
| OrganizationRepository.PutRow | internal/repository/organization/organization_repository.go:35-64 | a write changes the row of its own code and no other |
| OrganizationRepository.ListIsOrderedAndComplete | internal/repository/organization/organization_repository.go:52-56 | the listing is strictly ordered by code and holds exactly the rows not deleted |
| OrganizationRepository.GetAgreesWithList | internal/repository/organization/organization_repository.go:39-56 | a row is found by its code if and only if it is listed |
| OrganizationRepository.ExistsActiveIff | internal/repository/organization/organization_repository.go:66-71 | the check says yes if and only if the listing shows the organization active |
| OrganizationCache.CachedRepository.ExistsActive | internal/repository/organization/cache.go:32-50 | reply and new state of the cached check, whatever fails |
| OrganizationCache.CachedRepository.GetByCode | internal/repository/organization/cache.go:52-76 | the same for the cached row, negative entries included |
| OrganizationCache.CachedRepository.ListAll | internal/repository/organization/cache.go:78-97 | the same for the cached listing |
| OrganizationCache.CachedRepository.Create | internal/repository/organization/cache.go:101-107 | the write and the invalidation that follows a successful one |
| OrganizationCache.CachedRepository.Update | internal/repository/organization/cache.go:109-115 | the same for the upsert |
| OrganizationCache.CachedRepository.SoftDelete | internal/repository/organization/cache.go:117-123 | the same for the soft delete |
| OrganizationCache.WriteThenInvalidateKeepsAgreement | internal/repository/organization/cache.go:101-141 | deleting the three keys of the written code is enough for every remaining entry to agree with the new table |
| OrganizationCache.FillKeepsAgreement | internal/repository/organization/cache.go:44-48 | filling one read's key with its answer keeps all entries in agreement |
| OrganizationCache.StepRefines | internal/repository/organization/cache.go:32-141 | one call on an agreeing cache keeps agreement and answers as the bare repository |
| OrganizationCache.AnswersAreKept | internal/repository/organization/cache.go:32-97 | an answer that could be stored is given again by the cache alone, the database down or not |
| OrganizationCache.CacheRefinesRepository | internal/repository/organization/cache.go:32-141 | every run answers call by call what the bare repository answers, under any get/set failure, expiry or flush, except that a failing database may be reported |
| CacheStaleness.StalenessIsBounded | internal/repository/organization/cache.go:40-48 | with a positive TTL, for all five cached reads, with interleaved steps and lost invalidations of either module, a served text was the database's answer later than now - TTL - the filling reader's delay |
| CacheStaleness.BoundedIff | internal/config/config.go:136 | some limit bounds the staleness of every served text, in every run, beyond the filling reader's delay if and only if the TTL is positive; then the TTL is such a limit |
| CacheStaleness.ServedReplyIsAnOldReply | internal/repository/organization/cache.go:32-97 | and the reply decoded from it is the bare repositories' reply on contents held at that instant |
| CacheStaleness.HitsAnswerByReadText | internal/repository/document/cache.go:35-67 | that decoding is what the two cached repositories do on a hit |
| CacheStaleness.ServedAfterOrgInvalidationIff | internal/repository/organization/cache.go:137-141 | after an invalidation exactly the organization's check and row and the listing are no longer served |
| CacheStaleness.ServedAfterDocsInvalidationIff | internal/service/upload/upload_service.go:260-264 | after a completed upload's invalidation exactly the two lists it shows up in are no longer served |
| CacheStaleness.OvertakenReaderServesDeletedOrganization | internal/repository/organization/cache.go:40-48 | the bound is met, and without a positive TTL there is none: for every delay, and every wait short of a positive TTL or any wait otherwise, a run whose invalidation succeeds serves "active" for a deleted organization that long after |
| CacheStaleness.OvertakenReaderHidesDocument | internal/service/upload/upload_service.go:260-264 | likewise, for every new document, a run that serves its organization's list without it that long after |
| DocumentCache.ListIsOrderedAndComplete | internal/repository/document/document_repository.go:30-38 | newest first, holding each row of the scope as often as the log does and nothing else |
| DocumentCache.FindByIdIff | internal/repository/document/document_repository.go:39-50 | with one row an id, a row is found by its id if and only if the log holds it |
| DocumentCache.CompletionKeepsAgreement | internal/service/upload/upload_service.go:246-264 | after SaveLog and the list invalidation of a completed upload every remaining cached list and document agrees with the longer log |
| DocumentCache.AnswersAreKept | internal/repository/document/cache.go:32-90 | an answer that could be stored is given again by the cache alone; misses by id are not stored |
| DocumentCache.CompletionFailsApart | internal/service/upload/upload_service.go:244-264 | the audit row and the invalidation fail apart, neither is fatal, and no key but the two lists' is touched |
| DocumentCache.CacheRefinesLog | internal/repository/document/cache.go:35-83 | every run of cached reads and completed uploads, for any organizations, answers from the log as it is, as long as it lists at most one of the two scopes that share the admin key |
| DocumentCache.OtherScopeIsRightIff | internal/infra/cache/keys.go:28-39 | with that key filled for one of the two scopes, a hit of the other answers rightly if and only if every document belongs to the organization called "__all__" |
| DocumentCache.DocumentsLeaveOrganizations | internal/infra/cache/keys.go:11-48 | document traffic keeps cached organization facts in agreement |
| DocumentCache.OrganizationsLeaveDocuments | internal/infra/cache/keys.go:11-48 | organization traffic keeps cached document facts in agreement |
| DocumentCache.AllScopeIsSoundIff | internal/infra/cache/keys.go:28-39 | in particular right after the admin's list, from an empty cache |
| Tenancy.AllOrgsIsAValidCode | internal/service/organization/organization_service.go:23-24 | "__all__" is a code the organization service accepts |
| DocumentCache.CachedDocuments.ListDocuments | internal/repository/document/cache.go:35-56 | reply and new cache of the cached list, whatever fails |
| DocumentCache.CachedDocuments.FindByID | internal/repository/document/cache.go:58-83 | the same for one document; misses are not cached |
| DocumentCache.CachedDocuments.UploadCompleted | internal/service/upload/upload_service.go:244-264 | the audit row and the invalidation, neither of which is fatal |
| RateLimit.Limiter.Allow | internal/ratelimit/ratelimit.go:51-72 | the decision and the buckets it leaves |
| RateLimit.Limiter.Sweep | internal/ratelimit/ratelimit.go:83-90 | the loop keeps exactly the buckets seen within 30 minutes |
| RateLimit.BucketKeysCollideIff | internal/ratelimit/ratelimit.go:60 | for categories without a bar, bucket keys are equal if and only if category and key are |
| RateLimit.EvictionIsInvisible | internal/ratelimit/ratelimit.go:60-91 | over every run in time order a limiter that evicts decides like one that never does, when calls sharing a bucket have one limit |
| RateLimit.BarFreeCategoriesHaveOneLimit | internal/ratelimit/ratelimit.go:43-60 | categories without a bar meet that condition |
| RateLimit.EvictionNeverShowsIff | internal/ratelimit/ratelimit.go:60-91 | for a program's categories, the two limiters decide alike on every run in time order if and only if no two limited categories with different limits can share a bucket |
| RateLimit.TheProgramHidesEviction | internal/router/router.go:48-55 | the categories of this program hide eviction, whatever their limits |
| RateLimit.WindowBound | internal/ratelimit/ratelimit.go:51-72 | after any history, calls allowed for one category and key within T seconds number at most perMin + perMin·T/60, when every call on that bucket has that limit |
| RateLimit.TakesIff | internal/ratelimit/ratelimit.go:64-72 | a call passes if and only if the tokens left and those gained since at perMin/60 a second make a whole one |
| RateLimit.RefusedIff | internal/ratelimit/ratelimit.go:51-72 | after any history, a call is refused if and only if from some earlier allowed call on its bucket on, the calls allowed and this one exceed perMin + perMin·T/60, when every call on that bucket has that limit |
| RateLimit.LimitsAreConfigured | internal/ratelimit/ratelimit.go:42-48 | a positive limit given to a category is its limit and no other's; without one the default is |
| RateLimit.NeverRefusedIff | internal/ratelimit/ratelimit.go:50-58 | a category is never refused if and only if the limiter is off or the category has no positive limit |
| RateLimit.BarFreeWindowBound | internal/ratelimit/ratelimit.go:51-72 | among categories without a bar, for every category and key |
| RateLimit.OthersDoNotMatter | internal/ratelimit/ratelimit.go:60-71 | calls on other buckets never change a decision |
| RateLimit.GainIsRate | internal/ratelimit/ratelimit.go:64-65 | the refill is perMin/60 tokens a second |
| Users.FindByEmailIff | internal/repository/user/user_repository.go:44-55 | the lookup finds a user if and only if it is the active one with the email |
| Users.CreateKeepsEmailsUnique | internal/database/database.go:80-86 | the partial unique index keeps emails of active users unique |
| Registration.CheckOrgAsksTheTable | internal/service/auth/auth_service.go:197-209 | on an agreeing cache the check admits if and only if the listing shows the organization active, unless the database failed |
| Registration.RegisterAnswersIff | internal/service/auth/auth_service.go:74-115 | a registration in which nothing fails is created if and only if the listing shows its organization active and no active user holds its address; either refusal has its exact cause; one plain user is added |
| Registration.WellFormedIff | internal/service/auth/bulk_register.go:57-69 | an item is well-formed if and only if name, organization and address are not blank and the address parses |
| Registration.SameUserIff | internal/service/auth/bulk_register.go:57-75 | two items are taken for one user if and only if their addresses are equal in lower case without the spaces around |
| Registration.AuthService.RegisterUser | internal/service/auth/auth_service.go:74-115 | verdict and new state of one registration, whatever fails |
| Registration.AuthService.RegisterOne | internal/service/auth/bulk_register.go:57-128 | verdict, new state and addresses seen after one item |
| Registration.AuthService.BulkRegister | internal/service/auth/bulk_register.go:31-53 | the loop runs the items in order; success + failed = total = number of results |
| Registration.EveryVerdictIsDeserved | internal/service/auth/bulk_register.go:57-128 | result i has index i, and item i is created if and only if it is well-formed, no earlier well-formed item has its normalised address, its organization is active, no active user holds its raw address, and no step fails; otherwise the error code says which |
| Registration.UnseenEmailIsHeldIff | internal/service/auth/bulk_register.go:70-92 | for an address not yet seen in the batch, being taken now is the same as being taken before the batch |
| Strings.TrimIff | internal/service/auth/bulk_register.go:60-75 | the trimmed text is the one text without a space at either end that differs by spaces around only |
| Strings.LowerIs | internal/service/auth/bulk_register.go:60 | lower-casing maps each character by itself and changes neither length nor order |
| Registration.BatchAddsItsRows | internal/service/auth/bulk_register.go:41-49 | the users after a batch are the users before and one row per created item, in order |
| Registration.OneRowPerCreated | internal/service/auth/bulk_register.go:43-47 | as many rows are added as items are counted successful |
| Registration.ReportedIdNamesTheRow | internal/service/auth/bulk_register.go:110-127 | the id reported for a created item is the id of the row made from it |
| Registration.BatchKeepsEmailsUnique | internal/service/auth/bulk_register.go:86-121 | emails of active users stay unique over a batch |
| Tenancy.EveryActiveUserHasALiveOrganization | internal/service/organization/organization_service.go:48-155 | over every run of atomic requests in which the deletes' invalidations succeed, every active user's organization code names a live row, although the services ask the cache |
| Tenancy.AgreementIsSound | internal/repository/organization/cache.go:32-76 | a cache that agrees with the table satisfies the weaker condition those runs need |
| Tenancy.ReadsAreSound | internal/service/auth/auth_service.go:197-209 | on a sound cache an admitted code is live and a loaded row carries the code asked for |
| Tenancy.BatchKeepsSafe | internal/service/auth/bulk_register.go:76-84 | a bulk registration keeps referential integrity after every item |
| Tenancy.DeleteOrgKeepsSafe | internal/service/organization/organization_service.go:122-143 | deleting an organization keeps referential integrity when its invalidation succeeds |
| Tenancy.UserWritesKeepSafe | internal/service/user/user_service.go:74-117 | editing and deleting users keeps referential integrity |
| Tenancy.UserEventsAre | internal/service/user/user_service.go:74-117 | deleting takes away that user alone, editing takes none and sets a password given, and neither touches an organization |
| Tenancy.RegisterBreaksIntegrityIff | internal/service/auth/auth_service.go:78-111 | with no assumption on the cache, a registration breaks integrity if and only if a stale "1" admits a code that is not live, no active user holds the address, and nothing fails |
| Tenancy.BatchBreaksIntegrityIff | internal/service/auth/bulk_register.go:41-128 | the same of a bulk registration: it breaks integrity if and only if an item, passing the batch's own checks, does so in the state it meets |
| Tenancy.StepBreaksIntegrityIff | internal/service/organization/organization_service.go:48-143 | and of every request: those that create, update or delete organizations, edit or delete users, read or flush break integrity in no state of the cache |
| Tenancy.IntegrityHoldsThroughoutIff | internal/service/auth/auth_service.go:74-115 | over every run, with no assumption on the cache and any failure or lost invalidation, every active user's organization is live throughout if and only if no registration, alone or in a batch, meets that condition |
| Tenancy.LostInvalidationAdmitsAnOrphan | internal/repository/organization/cache.go:137-141 | a run of four requests, one invalidation lost, after which an active user's organization is deleted |
| Tenancy.StaleUpdateRevivesIff | internal/service/organization/organization_service.go:101-120 | an update of an organization that is gone answers, and brings it back, if and only if its row is still cached and neither the get nor the write fails |
| Tenancy.RunKeepsNames | internal/repository/organization/cache.go:52-76 | over every run, whatever fails or is lost, a cached row carries the code it is cached under, which that condition relies on |
| Tenancy.StaleRowRevivesTheOrganization | internal/service/organization/organization_service.go:101-120 | the lost invalidation above leads to such a state |
| Tenancy.DeleteSucceedsIff | internal/service/organization/organization_service.go:122-143 | a delete succeeds if and only if the organization is live and has no active user; each error has its exact cause |
| Tenancy.DeleteRemovesOnlyItsOwn | internal/service/organization/organization_service.go:122-143 | and it takes away that organization and no other |
| Tenancy.CreateSucceedsIff | internal/service/organization/organization_service.go:48-78 | a create succeeds if and only if the code is valid and has no row, deleted ones included; each error has its exact cause |
| Tenancy.CreatedIsActive | internal/service/organization/organization_service.go:66-77 | a created organization has the row asked for, is admitted by the next registration check, and no other row moves |
| Tenancy.FailuresAreReported | internal/service/organization/organization_service.go:48-143 | on any cache and with any failure, only an invalid code is called one, and what the database refuses is an internal error, never a success |
| Tenancy.CodesOfLengthIff | internal/service/organization/organization_service.go:24 | codes have 2 to 64 characters, and every such length is accepted |
| Tenancy.UpdateSucceedsIff | internal/service/organization/organization_service.go:101-120 | on an agreeing cache an update succeeds if and only if the organization is live, and edits the table's row as asked, keeping code and creation time |
| Tenancy.UpdateLeavesOtherRows | internal/service/organization/organization_service.go:101-120 | and no other row |
| Tenancy.RefusedAfterUpdateIff | internal/service/organization/organization_service.go:101-120 | after an update that answers, the next registration there is refused for its organization if and only if the update left it inactive |
| Tenancy.CountUsersIs0Iff | internal/repository/organization/organization_repository.go:75-80 | the count is zero if and only if no active user names the code |
| Tenancy.OrganizationService.CreateOrg | internal/service/organization/organization_service.go:48-78 | reply and new state, whatever fails |
| Tenancy.OrganizationService.UpdateOrg | internal/service/organization/organization_service.go:101-120 | reply and new state, whatever fails |
| Tenancy.OrganizationService.DeleteOrg | internal/service/organization/organization_service.go:122-143 | reply and new state, whatever fails |
| Auth.AuthService.LogIn | internal/service/auth/auth_service.go:117-141 | reply and tokens issued |
| Auth.AuthService.RefreshTokens | internal/service/auth/auth_service.go:143-177 | reply and tokens issued, given the outcome of the signature check |
| Auth.AuthService.SetNewPassword | internal/service/auth/auth_password.go:21-48 | reply and new users table |
| Auth.AuthService.Forgot | internal/service/auth/auth_password.go:65-108 | the links after a forgot-password request, whatever fails |
| Auth.AuthService.Reset | internal/service/auth/auth_password.go:112-140 | reply, users and links after a reset |
| Passwords.LoginAnswersIff | internal/service/auth/auth_service.go:117-141 | a login answers with tokens if and only if an active user holds address and password and nothing fails; each error has its exact cause |
| Passwords.TokensAreTheUsers | internal/service/auth/auth_service.go:143-194 | a login or refresh that answers gives its own user one token of each kind, with the row's claims and that kind's expiry in whole seconds, and changes nothing else |
| Passwords.ChangeAnswersIff | internal/service/auth/auth_password.go:21-48 | a change is done if and only if the user is active, the old password is right and nothing fails; each error has its exact cause |
| Passwords.WritesAnswerIff | internal/service/user/user_service.go:74-117 | an edit or deletion is done if and only if the user is active and the write succeeds; a logout asks for no row; an address is taken by an active user only |
| Passwords.StepMovesRow | internal/repository/user/user_repository.go:57-99 | password, name and deletion mark of a row change by exactly the requests that write them; address, organization and role never do |
| Passwords.StepAddsRow | internal/service/auth/auth_service.go:95-111 | a registration that is done adds one plain user, and no other request adds any |
| Passwords.LoginAnsweredIff | internal/service/auth/auth_service.go:117-141 | over every run a login in which nothing fails is answered if and only if the password is the last one written, by registration, change, reset or edit, for the active user with the address |
| Passwords.LastWrittenIff | internal/service/auth/auth_password.go:21-140 | last written means by some event and by none since, or in the table at first and by no event |
| Revocation.RefreshAcceptedIff | internal/service/auth/auth_service.go:143-177 | over every run a refresh in which nothing fails answers with new tokens if and only if the one presented was issued in the run, is unexpired, its user is active, and no logout, password change or reset of that user has succeeded since |
| Revocation.OnceRevokedAlwaysRefused | internal/service/auth/auth_service.go:162-167 | once the user is deleted or past the token's version the token is refused in every later state |
| Revocation.RevokingRevokes | internal/repository/user/user_repository.go:85-99 | a successful logout, change, reset or deletion puts an accepted token into that condition |
| Revocation.StepMovesVersion | internal/repository/user/user_repository.go:85-99 | versions only grow, by exactly one per revocation of an active user, and deleted users stay deleted |
| ResetLinks.LinkWorksIff | internal/service/auth/auth_password.go:65-140 | over every run, whatever fails, a reset in which nothing fails succeeds if and only if some event sent its link, the link expires later, and no event since has used it or sent its user another with the write that voids it succeeding |
| ResetLinks.AtMostOneUnusedLinkEach | internal/repository/user/user_repository.go:126-132 | in every reachable state a user has at most one unused link |
| ResetLinks.EachLinkWorksOnce | internal/service/auth/auth_password.go:112-140 | after a successful reset whose mark-used write succeeds the link never works again, in every later state |
| ResetLinks.SpentForEver | internal/repository/user/user_repository.go:106-118 | a spent link is never usable again, whatever fails |
| ResetLinks.ResetSpendsItsLinkIff | internal/service/auth/auth_password.go:130-136 | a successful reset spends its link if and only if the mark-used write succeeds; otherwise the link still works |
| ResetLinks.NewerLinkSpendsOlderIff | internal/service/auth/auth_password.go:85-94 | a newer request spends an older link if and only if the supersede write succeeds or it was used |
| ChatStore.OldestIsOldest | internal/repository/chat/chat_repository.go:55-66 | the oldest session is the user's own and no other of the user's precedes it |
| Chat.RunsStayValid | internal/service/chat/chat_service.go:56-147 | over every run, any store call failing: at most 20 sessions a user, every message in a live session, every log of the form (user assistant?)* |
| Chat.AskLeavesOthersAlone | internal/service/chat/chat_service.go:75-147 | a question leaves every other session's row and messages alone, except the one it evicts, which is gone with its messages |
| Chat.EvictedIsOwnOldest | internal/service/chat/chat_service.go:127-147 | what is evicted is the asking user's own oldest session |
| Chat.AskSpeaksInOwnSession | internal/service/chat/chat_service.go:64-125 | messages are added only to a session of the caller, as one turn after what was said; an answered question adds exactly the question and the answer replied, which is what the AI said or the apology when it failed; a new session's row is the caller's, titled by the question trimmed and cut at 80 |
| Chat.AskAnswersIff | internal/service/chat/chat_service.go:56-125 | a question is answered if and only if the id is valid, the session is the caller's or there is room to open it, and no store call on the way fails; each error has its exact cause |
| Chat.IdsOfLengthIff | internal/service/chat/chat_service.go:23-25 | the same of a conversation's id |
| Chat.AnsweringTouches | internal/service/chat/chat_service.go:116-124 | an answered question's session is stamped with its time when that write succeeds |
| Chat.OwnersNeverChange | internal/service/chat/chat_service.go:69-73 | while a session lives its owner, organization, title and creation time never change |
| Chat.RemoveIsExact | internal/service/chat/chat_service.go:191-208 | deleting removes the session with its messages if and only if it is the caller's own and the store works, and otherwise changes nothing; a missing and a foreign session are answered alike |
| Chat.ChatService.AskQuestion | internal/service/chat/chat_service.go:56-125 | reply and new tables, whatever fails |
| Chat.ChatService.EnforceSlidingWindow | internal/service/chat/chat_service.go:127-147 | outcome and new tables, whatever fails |
| Chat.ChatService.GetSessionDetail | internal/service/chat/chat_service.go:162-189 | the owner gets exactly the session's messages, ids and times included, in order; a missing and a foreign session are reported alike |
| Chat.MessageIdsIncrease | internal/repository/chat/chat_repository.go:95-103 | over every run message ids increase in the order of writing, in the table and in each log |
| ChatWindow.WindowKeepsTheLast | internal/service/chat/chat_service.go:127-147 | from no conversations, over every run of questions and deletions with increasing clock and any store call failing, a user's sessions are the last of those the user opened and did not delete, at most 20 |
| ChatWindow.WindowKeepsTheNewest | internal/service/chat/chat_service.go:127-147 | and exactly the newest 20 ever opened, when no event deletes one of the user's or evicts one and then fails to insert |
| ChatWindow.WindowSlidesIff | internal/service/chat/chat_service.go:75-91 | per request: the user is left with the newest 20 of the sessions before and the one opened, if any, if and only if the request does not evict and then fail to insert |
| ChatWindow.FailedInsertStillEvicts | internal/service/chat/chat_service.go:76-89 | an insert failing at the cap costs the oldest session without opening one |

## Left out

- UploadService.Service.UploadChunk: one session id and calls that do not overlap; overlapping calls are the step relation of UploadProtocol, and the map of other session ids is not modelled.
- UploadQuota.OvershootIsBounded: takes "each session finalized and counted at most once" as a rule of its events; UploadOnce.BookedAtMostOncePerId says when the upload protocol provides it.
- UploadQuota.UsageTable.IncrementUsage: serial transactions only; two concurrent ones can lose an update.
- CacheStaleness.StalenessIsBounded: a list of the scope "__all__" is not among the reads; what the key it shares with the admin's list serves is DocumentCache.OtherScopeIsRightIff.
- DocumentCache.ListIsOrderedAndComplete: rows with equal creation times are listed latest insert first; the database leaves their order open.
- RateLimit.WindowBound: the bucket is the real-valued specification of golang.org/x/time/rate; floating-point rounding is not modelled.
- Tenancy.EveryActiveUserHasALiveOrganization: atomic requests only; a registration that overlaps a delete can slip between its count and its write.
- Registration.EveryVerdictIsDeserved: email syntax and the lower case of a rune are parameters; generated passwords are given, not produced.
- ResetLinks.LinkWorksIff: random tokens are taken never to repeat, and SHA-256, bcrypt and JWT signatures to be ideal.
- Revocation.RefreshAcceptedIff: atomic requests only; a full-row save of a profile edit that overlaps a logout can restore the older version.
- Chat.RunsStayValid: atomic requests only; two overlapping questions can pick the same oldest session and exceed the cap.
- Chat.ChatService.GetSessionDetail: insertion order stands for `created_at, id`, which it is while the database's clock does not go back.
- UploadWitness.ProbeErrorLosesAChunk: one run; when an erring probe can do harm is not stated exactly, as it is for the check, the eviction and the expiry.
- User ids are positions in the users table; gaps left by failed inserts are not modelled.
- The chunk-0 checks on names, sizes, types and duplicates are one parameter (`gate`) of the upload steps; presigned URLs are left out.
- A text of another read under a cache key decodes as a failure; by CacheKeys.KeysCollideIff it is never there.
- The list of a user's conversations, ordered by last update, and scoping of user edits to the actor's organization.
- Panics, process restarts and what several instances of the service share in memory.
- HTTP, routing, middleware, access tokens' use, mail, the AI client, configuration, health and logging.
