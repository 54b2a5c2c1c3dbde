# AuraRisk: models and proofs

AuraRisk is a flood-warning service: a Go backend that fetches weather, scores flood risk, takes community
reports with photos, curates them and sends alerts, and a mobile client that files reports offline and keeps a
device session. Most of its hard code is small state machines that must keep a promise while other steps
interleave. This project models those machines and proves the promises over every input, every reachable state
or every run.

Each module follows one file, or one group of files that act on the same rows. The state is a value and every
locked section, transaction or stretch between two awaits is a function from state to state, so that runs and
interleavings can be reasoned about. Beside it a class keeps the source's own fields and updates them step by
step, and each of its methods is proved to do exactly what that function says. Theorems are then lemmas over runs.
What such a function computes is also stated without it, from inputs, histories or rows as they were
(`EveryAnswerIsExact`, `OneMoreRow`, `PairTellsTheTruth`, `ReportGoesIff`, `AlertsIff`, `ScoreIsSumOfPoints`,
`WrittenOrientationCounts`).

| Module | What it is about |
|---|---|
| `TokenBucket`, `RateLimiting` | the lazily refilled bucket and the per-client limiter with its sweep |
| `Weather`, `WeatherProtocol`, `WeatherAnswers` | grid cache, single-flight fetches, circuit breaker, call budget, stale fallback |
| `AuthServer`, `AuthPairs`, `AuthClient`, `AuthRecovery` | refresh-token rotation with reuse detection, what a pair tells, and the client that shares one refresh and starts over |
| `Curation`, `CurationRules`, `Reports`, `ReportRows`, `Verifier`, `VerifierEvidence`, `Retention`, `RetentionRows` | duplicate detection, moderation, automatic verification, clean-up, all on the same rows |
| `Notifier`, `NotifierHistory` | when a subscriber is alerted, and quiet hours |
| `Photos`, `PhotoRows` | upload slots and the processing workers' claims and leases |
| `OfflineQueue`, `OfflinePhotos`, `OfflineTurns` | the client's queue of unsent reports and its flush |
| `Orientation`, `Exif`, `Tiff` | turning an image upright, finding the orientation in a JPEG, and the data cameras write |
| `Risk`, `RiskRules` | the risk score and the check on weather sent by clients |

`dafny verify dfyconfig.toml` checks the whole project.

## Where the code and its documentation differ

- `docs/REPORT_CURATION.md` says rejected reports are never used as originals. They are left out of the candidates,
  but a new report is still attached to a rejected one in two ways: its earliest match is a duplicate of a report that
  has been rejected, or a moderator rejects the original after the candidates were read and before the row is
  inserted. `RejectedOriginalIff` says over whole runs that these are the only ways, unless a moderator takes the
  rejection back in between; `RejectedBeforeRead` and `RejectedBetweenReadAndInsert` are runs of each.
- The same document says one corroborating report plus a photo from a signed-in device is verified. That is so only
  when the corroborating report is from a signed-in account; with an anonymous one the score is 45.
  `VerifiesWithoutHistoryIff` lists every way to reach 50 without a moderated history.
- It also says files are never orphaned. A clean-up batch is three steps: it queries the object keys, deletes the
  objects, then deletes the rows, and everything else goes on between them. `OrphanFreeIff` gives the exact condition.
  Whatever the store refuses, no object is orphaned if and only if the batch misses none and mixes none. It misses an
  object of a report that goes when the query did not return it although it was stored or is written before the
  deletions (a photo still being processed names only its quarantine key), or when it is written after them. It mixes
  an object when that belongs to a duplicate that expired together with its original: each is filed under its own
  report, so the original can go, taking the duplicate's rows along, while the store refuses the duplicate's object.
  `WorkerBatchMisses` and `MixedBatchMixes` are batches of each kind. The clean-up of photos on their own leaves an
  object behind in the same way when the photo's row does not name it: a photo that failed after its large copy was
  stored loses its row and the copy stays (`PhotosOrphanFreeIff`, `FailedPhotoLeavesItsCopy`). Among the other modelled steps
  only a write for a photo whose row has gone orphans anything, and it always does (`StepOrphansIff`).
- The comment on `refreshSession` says a rotated token is never presented twice. `PresentedIsReuseIff` says exactly
  when it is: when the reply to its rotation never arrived, or the device has already been accused, first by such a
  token or by a request that the client had given up on and the server got to later. `LostReplyIsTakenForTheft` and
  `LateServiceIsTakenForTheft` are runs of each; without such an event it never is (`HonestClientIsNeverCaught`).
- `probing` in the weather service is meant to let one probe through at a time. `NeverTwoProbesIff`: there is never a
  second probe if and only if the bound on a fetch's duration (FetchTimeout) is less than BreakerCooldown, for every
  configuration whose budget is at least three calls a minute above the breaker's threshold.
- The writes that end a photo's processing check neither status nor lease. `MeetsFinalStatusIff`: a worker finds a
  final status exactly when another worker's final write came after its claim, and then its lease has run out or
  some worker has acted past its own. It can be a punctual worker that finds one
  (`PunctualWorkerMeetsAFinalStatus`). A report can then come to have five live photos (`FiveLivePhotos`), exactly
  when a rejected or failed photo is made ready beside four live ones (`LimitExceededIff`).
- `flushReportQueue.ts` stores the server's id at once so that a retry does not create the report again. If the
  answer to the creation is lost the retry does: `NothingLostNothingTwice` says a report is created twice exactly
  then, and `AtMostThreeCreations` that it happens three times at most, which it can (`ThreeAnswersLost`).
- `notifier.go` decides by the time the run began. An alert decided before quiet hours can go out in them, exactly
  when they have begun in between (`SentInQuietHoursIff`).
- `storage/reportQueue.ts` reads, waits and writes back. Two overlapping operations lose one of their changes
  (`OverlapLosesAnUpdateIff`); the theorems about the queue take each operation as atomic.

## Model

| member | source | states |
|---|---|---|
| TokenBucket.LevelIsTightestWindow | aurarisk-backend/internal/handlers/ratelimit.go:57-67 | After any series of requests the fill level is exactly the room left in the tightest of all windows ending now: capacity plus rate times length minus grants. |
| TokenBucket.GrantedIffEveryWindowHasRoom | aurarisk-backend/internal/handlers/ratelimit.go:57-67 | A request is granted if and only if no window ending at it would hold more than capacity plus rate times length grants. |
| TokenBucket.TakeSpends | aurarisk-backend/internal/handlers/ratelimit.go:57-67 | A take conserves tokens and keeps the level within 0 and the capacity. |
| RateLimiting.SweepIsUnobservable | aurarisk-backend/internal/handlers/ratelimit.go:50-82 | For every request series under a monotone clock the sweeping limiter answers exactly like one that never forgets a client, waits included. |
| RateLimiting.RetainedClientsAreRecent | aurarisk-backend/internal/handlers/ratelimit.go:70-82 | After any series of requests every client still held was seen less than two minutes ago. |
| RateLimiting.SweepsAreAMinuteApart | aurarisk-backend/internal/handlers/ratelimit.go:70-82 | A sweep runs exactly when a minute has passed since the last, and then forgets exactly the other clients not seen for a minute. |
| RateLimiting.ClientsAreIsolated | aurarisk-backend/internal/handlers/ratelimit.go:50-68 | A client's bucket and answers depend on its own requests only, whatever the others do. |
| RateLimiting.AllowedIffOwnWindowsHaveRoom | aurarisk-backend/internal/handlers/ratelimit.go:50-82 | After any requests by any clients, the next is allowed if and only if none of its own client's windows would exceed perMinute times (1 + minutes). |
| RateLimiting.WaitIsExact | aurarisk-backend/internal/handlers/ratelimit.go:61-64 | The wait told to a refused client is exact: if it stays away it is served from then on and not before. |
| RateLimiting.ServedWithoutWait | aurarisk-backend/internal/handlers/ratelimit.go:50-68 | Nobody who is served is told to wait, and whoever is refused is. |
| RateLimiting.RateLimiter.Allow | aurarisk-backend/internal/handlers/ratelimit.go:50-68 | allow on the mutable fields is the specified step: sweep, refill, take, answer. |
| RateLimiting.RateLimiter.SweepLocked | aurarisk-backend/internal/handlers/ratelimit.go:70-82 | The deleting loop leaves exactly the clients seen within the last minute, and only once a minute. |
| RateLimiting.NewRateLimiter | aurarisk-backend/internal/handlers/ratelimit.go:36-47 | A limit of zero or less makes no limiter; any other makes one that knows no client. |
| RateLimiting.Limit | aurarisk-backend/internal/handlers/ratelimit.go:84-100 | Without a limiter everything passes; with one its answer is followed. |
| Weather.Config.WithDefaults | aurarisk-backend/internal/services/weather.go:55-83 | The completed configuration is always usable; each setting that is set is kept, whatever the others are; and only a negative StaleFor switches stale serving off. |
| Weather.DefaultsWhereUnset | aurarisk-backend/internal/services/weather.go:55-83 | Each setting left unset gets its own documented default, whatever the others are. |
| Weather.CentreRepresentsCell | aurarisk-backend/internal/services/weather.go:134-139 | A point is at most half a cell from the centre its weather is fetched for, and that centre lies in the same cell. |
| Weather.StoredIsBounded | aurarisk-backend/internal/services/weather.go:206-226 | Storing keeps the cache within MaxEntries, holds the new entry and alters no other. |
| Weather.EvictsOnlyForRoom | aurarisk-backend/internal/services/weather.go:206-226 | With room, or for a cached key, nothing goes; otherwise everything too old goes, and if that leaves no room exactly one more entry, none of those that stay being older. |
| Weather.WeatherService.Get | aurarisk-backend/internal/services/weather.go:142-166 | The locked part of Get: fresh hit, join of a running fetch, new fetch or refusal, in that order. |
| Weather.WeatherService.FinishFetch | aurarisk-backend/internal/services/weather.go:188-204 | The locked part of a completion: the flight ends, a success is stored, breaker state is updated. |
| Weather.WeatherService.StoreLocked | aurarisk-backend/internal/services/weather.go:206-226 | The eviction loop drops every expired entry when full, and if that is not enough one oldest entry. |
| Weather.WeatherService.AllowCallLocked | aurarisk-backend/internal/services/weather.go:228-252 | The breaker, half-open probe and token budget, with every field after the call. |
| Weather.WeatherService.RecordResultLocked | aurarisk-backend/internal/services/weather.go:254-268 | The failure count, reopening and closing of the breaker. |
| Weather.WeatherService.constructor | aurarisk-backend/internal/services/weather.go:122-132 | A new service is closed, empty and has a full budget. |
| WeatherProtocol.EveryRunKeepsInv | aurarisk-backend/internal/services/weather.go:142-268 | In every state of every run: the breaker is a function of the completion history; running fetches match the in-flight map one to one; each cached entry is its cell's latest success and the cache is bounded; every answer is for its own cell and fresh for the caller, or stale and within StaleFor; and no window of fetch starts exceeds M + d*M/60. |
| WeatherAnswers.EveryAnswerIsExact | aurarisk-backend/internal/services/weather.go:142-186 | The exact answer of every call in every run: a fresh copy at once and without a fetch; else what the fetch it joined or started returned, fetched just then; after a failure or refusal the copy found at the call, flagged stale, if and only if it is at most StaleFor old by then; else nothing. |
| WeatherAnswers.FetchStartsIff | aurarisk-backend/internal/services/weather.go:142-252 | In every run a call with nothing fresh and no fetch to join starts one if and only if the completions so far leave the breaker closed, or its cooldown is over with no probe since, and every window of fetch starts has room. |
| WeatherAnswers.EveryRunIsTight | aurarisk-backend/internal/services/weather.go:239-251 | In every run the tokens left are the capacity or exactly the room of some window of starts: the budget refuses nothing it could allow. |
| WeatherProtocol.BreakerStep | aurarisk-backend/internal/services/weather.go:254-268 | openUntil is unset exactly while the trailing run of failures is shorter than the threshold, and otherwise is the last failure's time plus the cooldown. |
| WeatherProtocol.FlightStep | aurarisk-backend/internal/services/weather.go:148-166 | At most one fetch runs per cell and it is the one the in-flight map names. |
| WeatherProtocol.ProbeStep | aurarisk-backend/internal/services/weather.go:229-268 | probing holds exactly while a probe that started since the last completion is still running, and implies the breaker is open. |
| WeatherProtocol.NeverWedges | aurarisk-backend/internal/services/weather.go:142-252 | In every state of every run in which the cooldown is over, a call with nothing fresh, no fetch to join and a token is refused if and only if a probe from after the last completion is still running; otherwise it goes out as the probe. |
| WeatherProtocol.NeverTwoProbesIff | aurarisk-backend/internal/services/weather.go:188-268 | For every configuration with a budget of threshold + 3 and every bound on the duration of fetches: no run ever has two probes out if and only if the bound is less than the cooldown. |
| WeatherProtocol.ProbesRunAlone | aurarisk-backend/internal/services/weather.go:188-268 | If every fetch takes less than one cooldown, then in every run a probe is the only fetch running and there is never a second probe. |
| WeatherProtocol.LateFailureAllowsTwoProbes | aurarisk-backend/internal/services/weather.go:254-268 | For each such configuration a run in which no fetch lasts longer than one cooldown and two probes are out at once. |
| WeatherProtocol.CacheStep | aurarisk-backend/internal/services/weather.go:194-226 | Every cached entry stays its cell's latest successful fetch, the cache stays bounded, a success is stored, and nothing else changes it. |
| WeatherProtocol.CallerStep | aurarisk-backend/internal/services/weather.go:142-186 | Every caller's answer was fetched for its own cell; unflagged answers are younger than FreshFor at the call's start, stale ones at most StaleFor old at fallback (EveryAnswerIsExact says which one it is). |
| WeatherProtocol.BudgetStep | aurarisk-backend/internal/services/weather.go:239-251 | Tokens stay within 0 and M, and every window's fetch starts stay within its allowance. |
| AuthServer.OneLiveToken | aurarisk-backend/internal/handlers/auth.go:44-230 | In every reachable state a device has at most one unrevoked refresh token. |
| AuthServer.OneLiveTokenOrShutOut | aurarisk-backend/internal/handlers/auth.go:44-230 | More exactly: each device ever registered has exactly one, or all its tokens are revoked or gone. |
| AuthServer.RequestsActOnOneDevice | aurarisk-backend/internal/handlers/auth.go:126-230 | A request leaves the tokens of every device but its own untouched, and nothing is ever unrevoked. |
| AuthServer.ShutOutBy | aurarisk-backend/internal/handlers/auth.go:158-230 | Reuse detection, logout and account deletion each leave the device without a usable token. |
| AuthServer.ShutOutForever | aurarisk-backend/internal/handlers/auth.go:126-277 | After that no later series of requests can ever authenticate or refresh that device. |
| AuthServer.AccessLastsUntilShutOut | aurarisk-backend/internal/handlers/auth.go:254-277 | An unexpired access token authenticates its device after any series of requests if and only if the device has not been shut out. |
| AuthServer.LiveTokenRotatesUntilExpiry | aurarisk-backend/internal/handlers/auth.go:126-204 | An unrevoked refresh token rotates if and only if it has not expired; the new pair then works, and the old token no longer does. Otherwise the answer is that it expired, and nothing changes. |
| AuthServer.ReplayIsDetected | aurarisk-backend/internal/handlers/auth.go:126-190 | A rotated refresh token presented again is detected as reuse at any time up to a day after its expiry, whatever was served in between, unless its own device has been deleted; then it is invalid. |
| AuthPairs.PairTellsTheTruth | aurarisk-backend/internal/handlers/auth.go:44-277 | For the pair of every registration and rotation, after any further requests: its access token authenticates if and only if the device is not shut out and the time told has not come; its refresh token, while live, rotates if and only if the time told has not passed; neither serves for the other. |
| AuthPairs.Lifetimes | aurarisk-backend/internal/handlers/auth.go:17-62 | Access tokens are told to last a quarter of an hour, refresh tokens thirty days. |
| AuthPairs.RunKeepsRows | aurarisk-backend/internal/handlers/auth.go:126-240 | No later series of requests alters a token's device, kind or expiry, unrevokes it, or uses its number again. |
| AuthPairs.RotationForgetsOldRows | aurarisk-backend/internal/handlers/auth.go:175-200 | A rotation forgets exactly the device's rows that expired more than a day ago. |
| AuthPairs.RowsAreKept | aurarisk-backend/internal/handlers/auth.go:126-240 | No other request forgets a row, unless its device is deleted. |
| AuthPairs.DeletionTakesTheAccount | aurarisk-backend/internal/handlers/auth.go:232-240 | Deleting an account takes exactly the devices of the caller's account. |
| AuthPairs.OtherTokensAreInvalid | aurarisk-backend/internal/handlers/auth.go:126-157 | Anything but a stored refresh token is invalid and changes nothing. |
| AuthServer.AuthApi.IssueTokens | aurarisk-backend/internal/handlers/auth.go:44-72 | One access and one refresh token with their lifetimes, both new, told as stored (PairTellsTheTruth). |
| AuthServer.AuthApi.RegisterDevice | aurarisk-backend/internal/handlers/auth.go:74-121 | A new device and account with its first pair. |
| AuthServer.AuthApi.RefreshTokens | aurarisk-backend/internal/handlers/auth.go:126-204 | Rotation, reuse detection, expiry and invalid tokens, with the rows after each. |
| AuthServer.AuthApi.Logout | aurarisk-backend/internal/handlers/auth.go:206-230 | Every token of the device is revoked and no other. |
| AuthServer.AuthApi.constructor | aurarisk-backend/internal/handlers/auth.go:74-121 | The tables start empty. |
| AuthClient.EveryRunKeepsInv | aurarisk-mobile/src/auth/authClient.ts:65-124 | Every interleaving of client stretches, server transactions, lost replies, late services and other devices' requests keeps each refresh token the client holds revoked exactly for a recorded reason: its rotation went unanswered, or its device was accused. |
| AuthClient.PresentedIsReuseIff | aurarisk-mobile/src/auth/authClient.ts:100-155 | In every run the token the client presents is taken for reuse, and its device shut out, if and only if its row is kept and its rotation went unanswered or its device had already been accused. |
| AuthClient.BlamedIffHarmful | aurarisk-mobile/src/auth/authClient.ts:100-155 | Anything is unanswered or accused exactly in the runs that hold a lost rotation reply, or an abandoned request that the server still rotates or finds to be reuse. |
| AuthClient.HonestClientIsNeverCaught | aurarisk-mobile/src/auth/authClient.ts:100-155 | Up to the first such event, the client never presents a revoked token and reuse detection never fires. |
| AuthClient.LostReplyIsTakenForTheft | aurarisk-mobile/src/auth/authClient.ts:110-119 | A run from the first start in which one lost reply makes the next refresh be answered as theft and the device be shut out. |
| AuthClient.LateServiceIsTakenForTheft | aurarisk-mobile/src/auth/authClient.ts:110-119 | A run in which a request given up on is served after its repetition, and the session just given is shut out. |
| AuthRecovery.RegisteredSessionWorks | aurarisk-mobile/src/auth/authClient.ts:65-84 | In every run, when a registration's reply arrives the client has a session whose access token authenticates exactly until the time told and whose refresh token rotates exactly up to it. |
| AuthRecovery.HonestSessionIsGood | aurarisk-mobile/src/auth/authClient.ts:100-155 | Up to the first harmful event the session kept is unrevoked, save while the reply to its rotation is on its way. |
| AuthRecovery.RefusedClientRecovers | aurarisk-mobile/src/auth/authClient.ts:86-124 | From any reachable state a refused client drops its session, registers, and has a working session of a device never seen before. |
| AuthRecovery.SessionIsPresentedIff | aurarisk-mobile/src/auth/authClient.ts:107-114 | The refresh token presented is the session's own, exactly when there is one and it is not expired; otherwise the session is given up. |
| AuthRecovery.RotationBecomesSession | aurarisk-mobile/src/auth/authClient.ts:115-119 | A rotated pair becomes the session, and any other answer ends it. |
| AuthRecovery.CallersShareRefresh | aurarisk-mobile/src/auth/authClient.ts:104-124 | A call during a refresh changes nothing; one that starts a refresh works on the session as it is. |
| AuthRecovery.CallersShareRegistration | aurarisk-mobile/src/auth/authClient.ts:65-84 | The same for registrations. |
| AuthClient.Session.RefreshSession | aurarisk-mobile/src/auth/authClient.ts:104-107 | A call joins the refresh under way or starts one on the current session. |
| AuthClient.Session.RegisterDevice | aurarisk-mobile/src/auth/authClient.ts:65-84 | A call joins the registration under way or starts one. |
| AuthClient.Session.AfterReadSession | aurarisk-mobile/src/auth/authClient.ts:107-114 | An absent or expired session is given up, else its refresh token is presented. |
| AuthClient.Session.ResetSession | aurarisk-mobile/src/auth/authClient.ts:86-88 | The session in memory is dropped before anything is awaited. |
| AuthClient.Session.AfterClearSession | aurarisk-mobile/src/auth/authClient.ts:88-89 | The reset goes on with a new or shared registration. |
| AuthClient.Session.OnRefreshReply | aurarisk-mobile/src/auth/authClient.ts:115-119 | A rotation becomes the session at once; any 401 resets. |
| AuthClient.Session.OnRegisterReply | aurarisk-mobile/src/auth/authClient.ts:76-80 | The registered pair becomes the session at once. |
| Curation.GroupListsItsMembers | aurarisk-backend/internal/services/curation.go:55-75 | For the known categories, being listed for a group is the same as being in it. |
| CurationRules.SameKindIff | aurarisk-backend/internal/services/curation.go:44-75 | Of the categories a report may have only flooding and rising water count as one kind. |
| Curation.SimilarityIsSymmetric | aurarisk-backend/internal/services/curation.go:104-123 | Note similarity does not depend on the order of the notes. |
| Curation.SimilarityIsOneIffSameWords | aurarisk-backend/internal/services/curation.go:104-123 | It lies in 0..1 and is 1 exactly on notes made of the same words. |
| CurationRules.SimilarityIsTheShare | aurarisk-backend/internal/services/curation.go:104-123 | Notes of three words or more are as similar as the share of their words they have in common. |
| CurationRules.ShortNotesAreEqualOrNot | aurarisk-backend/internal/services/curation.go:104-123 | Shorter notes are similar only when equal, and notes without words never. |
| Curation.CountShared | aurarisk-backend/internal/services/curation.go:109-114 | The counting loop finds the size of the intersection. |
| Curation.NoteSimilarity | aurarisk-backend/internal/services/curation.go:104-123 | The computed ratio is the Jaccard similarity, with the short-note and empty-note rules. |
| Curation.FindDuplicate | aurarisk-backend/internal/services/curation.go:148-170 | An original is found if and only if some candidate matches; it is the earliest match's, and a duplicate stands for its original. |
| CurationRules.RepetitionIsDuplicate | aurarisk-backend/internal/services/curation.go:148-170 | The same account's report of the same kind within 500 m and three hours is a duplicate. |
| CurationRules.CopyIsDuplicate | aurarisk-backend/internal/services/curation.go:148-170 | So is anyone's text that is four fifths the same within 250 m and a day. |
| CurationRules.NothingElseIsDuplicate | aurarisk-backend/internal/services/curation.go:148-170 | And nothing else is. |
| CurationRules.EarliestIsFound | aurarisk-backend/internal/services/curation.go:148-170 | Of several duplicates the earliest counts, and one that is itself a duplicate stands for its original. |
| Curation.ScoreEvidence | aurarisk-backend/internal/services/curation.go:195-210 | The accumulated score is the specified one. |
| Curation.ScoreIsMonotone | aurarisk-backend/internal/services/curation.go:195-210 | The score stays in 0..100 and never falls as evidence grows or rejections vanish. |
| CurationRules.NoEvidenceScoresNothing | aurarisk-backend/internal/services/curation.go:195-210 | Without evidence the score is 0. |
| CurationRules.PhotoAndSignInCount | aurarisk-backend/internal/services/curation.go:195-210 | A photo adds exactly 20 points and a signed-in reporter 10. |
| CurationRules.RecordCounts | aurarisk-backend/internal/services/curation.go:195-210 | Each verified report of the reporter's adds 10, twice at most. |
| CurationRules.CorroborationCounts | aurarisk-backend/internal/services/curation.go:195-210 | An independent reporter adds 25 and anonymous corroboration 15 however much there is, together 50 at most. |
| CurationRules.RejectionCosts | aurarisk-backend/internal/services/curation.go:195-210 | Each rejected report of the reporter's costs 25, down to 0. |
| Curation.VerifiesWithoutHistoryIff | aurarisk-backend/internal/services/curation.go:187-210 | Exactly which evidence verifies a report whose reporter has no moderated history. |
| Curation.GoodRecordWithPhotoVerifies | aurarisk-backend/internal/services/curation.go:187-210 | A photo alone verifies if and only if the reporter has two verified reports and no rejected one. |
| Curation.TwoRejectionsNeedEverything | aurarisk-backend/internal/services/curation.go:187-210 | With two rejections every other point is needed; with three nothing suffices. |
| Reports.CascadeIsOneLevel | aurarisk-backend/internal/workers/retention.go:125-131 | Because duplicates form stars, the delete cascade takes exactly the direct duplicates along. |
| Reports.StarsAndAuditHold | aurarisk-backend/internal/handlers/reports.go:256-397 | Over every interleaving of creation (read, then insert), moderation, verification, retention and account deletion: duplicate_of always names a report that is not a duplicate, and every report's events replay from pending to its status. |
| Reports.NextKeepsStars | aurarisk-backend/internal/services/curation.go:146-170 | Each step keeps duplicate links one level deep, drafts with stale candidates included. |
| Reports.NextKeepsAudit | aurarisk-backend/internal/workers/verifier.go:193-227 | Each step keeps the audit trail replayable, names the last decider, and shows the verifier only ever moved pending non-duplicates to verified. |
| Reports.DecisionsAreFinal | aurarisk-backend/internal/handlers/moderation.go:188-268 | A decided report keeps status, decider and duplicate link until a moderator takes it up again, whatever stale lists the verifier works through. |
| Reports.RejectedOriginalIff | aurarisk-backend/internal/handlers/reports.go:256-397 | For every run, and every read and insert of one report in it: the new row hangs on a rejected report if and only if the original found still exists and the last moderator to take it up in between rejected it, or none did and it was found through a duplicate of a report already rejected. |
| Reports.FoundRejectedIff | aurarisk-backend/internal/handlers/reports.go:363-397 | When the candidates are read, the original found is rejected exactly when the earliest match is a duplicate of it. |
| Reports.RejectedBetweenReadAndInsert | aurarisk-backend/internal/handlers/reports.go:256-324 | A run in which the original is rejected after it was found. |
| Reports.RejectedBeforeRead | aurarisk-backend/internal/handlers/reports.go:363-397 | A run in which a rejected original is found through its duplicate. |
| ReportRows.StoredAsFiled | aurarisk-backend/internal/handlers/reports.go:256-324 | A new report is stored with every field as filed, pending and unscored, unless its original has gone; nothing else changes. |
| ReportRows.DecidedAsAsked | aurarisk-backend/internal/handlers/moderation.go:188-268 | A decision sets status, time, moderator and duplicate link as asked, adds one event from the old status, and leaves every other field and report alone. |
| ReportRows.UnknownIsNotDecided | aurarisk-backend/internal/handlers/moderation.go:188-268 | A decision on a report that does not exist changes nothing. |
| ReportRows.RecordedOnlyIfUndecided | aurarisk-backend/internal/workers/verifier.go:193-227 | The verifier's result lands, field by field, only on a report still pending and undecided, and verifies it exactly from 50 points on. |
| ReportRows.DeletedIff | aurarisk-backend/internal/workers/retention.go:125-131 | Deleting takes exactly the reports named and their direct duplicates, with their events. |
| ReportRows.ReportsOutliveAccount | aurarisk-backend/internal/handlers/auth.go:232-240 | Deleting an account takes its name off its reports and changes nothing else about them. |
| Reports.ReportTables.StoreReport | aurarisk-backend/internal/handlers/reports.go:256-324 | The new pending row with the original found, or nothing when that original has gone. |
| Reports.ReportTables.AppendEvent | aurarisk-backend/internal/handlers/moderation.go:244-252 | One event is added at the end of the report's trail. |
| Reports.ReportTables.ModerateReport | aurarisk-backend/internal/handlers/moderation.go:188-268 | The decision, who made it, the cleared duplicate link and the event from the old status, in one transaction. |
| Reports.ReportTables.Record | aurarisk-backend/internal/workers/verifier.go:193-227 | A still undecided report gets its score and, from 50 up, is verified with an event; any other row is left alone. |
| Verifier.CountCorroborations | aurarisk-backend/internal/workers/verifier.go:158-175 | The loop counts distinct accounts, anonymous reports and all corroborations. |
| Verifier.GatherEvidence | aurarisk-backend/internal/workers/verifier.go:139-191 | The evidence is exactly the specified counts over the current rows (OneMoreRow says what each row does to them). |
| VerifierEvidence.OneMoreRow | aurarisk-backend/internal/workers/verifier.go:139-191 | What any one further row does to the evidence: an eligible one by an account not counted yet is one more independent reporter, by a counted one only one more corroboration, an anonymous one that; a row by the reporter counts only for the record, once a human decided it; every other row changes nothing. |
| VerifierEvidence.AloneWithoutSupport | aurarisk-backend/internal/workers/verifier.go:139-191 | A report alone in the table has no corroboration and no record. |
| VerifierEvidence.OwnReportsDoNotSupport | aurarisk-backend/internal/workers/verifier.go:144-151 | Nobody corroborates their own report, however many they file. |
| VerifierEvidence.LoadedOrBehind | aurarisk-backend/internal/workers/verifier.go:110-137 | Only pending, undecided originals of the last two days are loaded, and one is missed only behind five hundred that are no older. |
| VerifierEvidence.RunVerifiesIff | aurarisk-backend/internal/workers/verifier.go:59-227 | What a run leaves in every row: the score of the evidence from before the run for the undecided reports of its batch, verified in the name of auto with one event exactly from 50 on; every other row as it was. |
| Verifier.VerifyingLeavesEvidence | aurarisk-backend/internal/workers/verifier.go:139-191 | Auto-verifying any reports changes no report's corroborators, counts or record, so no verdict. |
| Verifier.RunIsOneJudgement | aurarisk-backend/internal/workers/verifier.go:59-108 | A run equals judging every report of its batch at once by the evidence from before the run. |
| Verifier.OrderDoesNotMatter | aurarisk-backend/internal/workers/verifier.go:59-108 | Any order of the batch gives the same rows and events. |
| Verifier.WholeBatchLoaded | aurarisk-backend/internal/workers/verifier.go:110-133 | When at most verifyBatch reports are eligible the batch is all of them. |
| Verifier.SecondRunChangesNothing | aurarisk-backend/internal/workers/verifier.go:59-227 | Then a second run, later and in any order, changes nothing at all. |
| Verifier.RunOnce | aurarisk-backend/internal/workers/verifier.go:59-108 | The loop on the tables is the specified run. |
| Retention.OrphanFreeIff | aurarisk-backend/internal/workers/retention.go:106-166 | Whatever the store refuses and whatever uploads, workers, moderators and new reports do between its three steps (writing for photos that have rows), a batch leaves no orphaned object if and only if it misses none and holds none of a duplicate that expired together with its original. |
| Retention.OrphanIsMissedOrMixed | aurarisk-backend/internal/workers/retention.go:106-166 | Every object a batch orphans was missed or mixed, whatever the refusals. |
| Retention.MissedIsOrphaned | aurarisk-backend/internal/workers/retention.go:125-155 | A missed object is orphaned even if the store refuses nothing. |
| Retention.UndisturbedMissIff | aurarisk-backend/internal/workers/retention.go:125-155 | An undisturbed batch misses exactly the stored objects of its reports that their rows do not name yet. |
| Retention.StepOrphansIff | aurarisk-backend/internal/workers/photos.go:145-160 | Apart from the deletion of rows an object is orphaned exactly by a write for a photo whose row has gone. |
| Retention.PhotosOrphanFreeIff | aurarisk-backend/internal/workers/retention.go:206-234 | Whatever the store refuses and whatever is written for photos with rows meanwhile, cleaning photos on their own orphans no object if and only if it leaves behind none that a chosen photo's row did not name or that is written again. |
| Retention.FailedPhotoLeavesItsCopy | aurarisk-backend/internal/workers/photos.go:145-160 | A failed photo whose large copy had been stored: the copy is orphaned. |
| Retention.WorkerBatchMisses | aurarisk-backend/internal/workers/photos.go:145-160 | A batch beside a worker that publishes a photo after the query: its objects are orphaned without refusal or mix. |
| Retention.MixedIsOrphaned | aurarisk-backend/internal/workers/retention.go:125-155 | For every object of such a duplicate, the refusal of that one key orphans it. |
| Retention.MixedBatchMixes | aurarisk-backend/internal/workers/retention.go:125-155 | A batch that holds a duplicate and its original and misses nothing. |
| Retention.BatchKeepsInv | aurarisk-backend/internal/workers/retention.go:106-166 | A batch and what goes on beside it keep duplicate stars and every photo's report. |
| Retention.BlockedReportIsKept | aurarisk-backend/internal/workers/retention.go:135-145 | A report is kept with its photo rows when the store refuses one of its objects and its original stays. |
| RetentionRows.ReportGoesIff | aurarisk-backend/internal/workers/retention.go:106-166 | For every valid batch and every refusal: a report is gone if and only if it, or the report it duplicates, has expired and no key filed under that expired report is refused; the others are as they were. |
| RetentionRows.AllExpiredGo | aurarisk-backend/internal/workers/retention.go:141-155 | With nothing refused the expired reports and their direct duplicates go, and no other. |
| RetentionRows.PhotoRowGoesIff | aurarisk-backend/internal/workers/retention.go:141-155 | A photo's row goes exactly with its report. |
| RetentionRows.ObjectsRemainIff | aurarisk-backend/internal/workers/retention.go:264-281 | An undisturbed batch deletes exactly the objects that come before any refusal in their group. |
| RetentionRows.FiledIff | aurarisk-backend/internal/workers/retention.go:125-131 | The upload of every photo and both copies of a ready one are filed under its own expired report, or else under the expired original it duplicates. |
| RetentionRows.ChosenPhotoGoesIff | aurarisk-backend/internal/workers/retention.go:206-234 | Of the photos chosen on their own exactly those go of whose named objects none is refused. |
| Retention.RetentionCleaner.CleanReports | aurarisk-backend/internal/workers/retention.go:106-166 | The three steps one after the other are the specified batch (ReportGoesIff, PhotoRowGoesIff and ObjectsRemainIff say what it leaves). |
| Retention.RetentionCleaner.DeleteGroups | aurarisk-backend/internal/workers/retention.go:116-139 | The loop deletes each group's objects up to the first refusal and keeps just the reports without one deletable. |
| Retention.RetentionCleaner.DeleteRows | aurarisk-backend/internal/workers/retention.go:141-155 | The reports, their duplicates and the photo rows of all of them go, and nothing else. |
| Retention.RetentionCleaner.CleanPhotos | aurarisk-backend/internal/workers/retention.go:206-234 | Its three steps one after the other, for the photos the query chose. |
| Retention.RetentionCleaner.PhotoKeys | aurarisk-backend/internal/workers/retention.go:127-131 | Keys are grouped by the expired report, or by the expired original of a duplicate, none missing and none extra. |
| Retention.RetentionCleaner.DeleteObjects | aurarisk-backend/internal/workers/retention.go:264-281 | Deletes keys in order up to the first refusal and reports whether all went. |
| Notifier.ContainsIffBeforeEnd | aurarisk-backend/internal/services/quiethours.go:43-66 | A minute is quiet exactly when, going forward round the clock from the start, it comes before the end; swapping the ends gives the complement. |
| Notifier.NoRepeatWithoutCause | aurarisk-backend/internal/workers/notifier.go:62-87 | Between two consecutive delivered alerts 12 hours passed, or the level rose, or some run in between assessed a level below the second. |
| NotifierHistory.AlertsIff | aurarisk-backend/internal/workers/notifier.go:62-87 | From a new subscription on, told from the runs alone: a run alerts if and only if its level is one to hear about outside quiet hours and no alert stands since the last fall below the threshold, or twelve hours have passed since that alert, or the level is above it or above one found since. |
| NotifierHistory.RowTellsHistory | aurarisk-backend/internal/workers/notifier.go:142-286 | In every series of runs the row holds the time of the alert that stands, if one does, and the lowest level found within twelve hours since. |
| NotifierHistory.ReturnIsAnnounced | aurarisk-backend/internal/workers/notifier.go:62-87 | A level that comes back after a fall below the threshold is announced, however soon. |
| Notifier.QuietHoursAreKept | aurarisk-backend/internal/workers/notifier.go:62-87 | In any series of runs, none that begins in quiet hours sends an alert except an allowed Emergency, nor any below the subscriber's level. |
| Notifier.SentInQuietHoursIff | aurarisk-backend/internal/workers/notifier.go:117-179 | Any other alert goes out in quiet hours if and only if they have begun since the run did. |
| Notifier.DeferredAlertIsSent | aurarisk-backend/internal/workers/notifier.go:142-178 | An alert held back or undelivered is not lost: it stays due and the first run outside quiet hours sends one for the level it finds, unless the level fell meanwhile. |
| Notifier.Subscription.Evaluate | aurarisk-backend/internal/workers/notifier.go:142-286 | One turn of the loop: decision, delivery and what the row remembers afterwards (RowTellsHistory says what that is). |
| Notifier.Subscription.Delivered | aurarisk-backend/internal/workers/notifier.go:250-270 | An alert counts as delivered when any device took it. |
| Notifier.Subscription.constructor | aurarisk-backend/internal/workers/notifier.go:38-48 | A new subscription remembers no alert. |
| Photos.AtMostFiveFetches | aurarisk-backend/internal/workers/photos.go:81-166 | However workers interleave or overrun, no photo is downloaded or scanned more than five times, and none is ready without a scan. |
| Photos.NextKeepsFetchInv | aurarisk-backend/internal/workers/photos.go:81-192 | Every step keeps claims on a photo at different attempts and the logs free of repeats. |
| Photos.AtMostFourLivePhotos | aurarisk-backend/internal/handlers/photos.go:97-177 | If workers act within their leases, no report ever has more than four live photos, whatever the interleaving. |
| Photos.LimitExceededIff | aurarisk-backend/internal/handlers/photos.go:97-177 | Without any assumption on leases: from within the limit a step exceeds it if and only if it makes ready a rejected or failed photo of a report that has four live ones. |
| Photos.MoreThanFourOnlyAfterRevival | aurarisk-backend/internal/workers/photos.go:156-179 | In every run more than four photos are live only after such a photo has been made ready. |
| Photos.FiveLivePhotos | aurarisk-backend/internal/workers/photos.go:156-179 | A run in which a report has five live photos. |
| Photos.FinalStatusesStay | aurarisk-backend/internal/workers/photos.go:168-192 | And ready, rejected and failed are final. |
| Photos.MeetsFinalStatusIff | aurarisk-backend/internal/workers/photos.go:104-192 | In every run a worker finds its photo in a final status if and only if another worker's final write came after its claim; and then its lease has run out or some worker has acted past its own. |
| Photos.OverrunChangesAFinalStatus | aurarisk-backend/internal/workers/photos.go:168-179 | A run in which a worker past its lease turns a ready photo into a rejected one. |
| Photos.PunctualWorkerMeetsAFinalStatus | aurarisk-backend/internal/workers/photos.go:168-179 | A run in which the worker that finds a final status has kept to its own lease. |
| PhotoRows.NextClaimIsAfterTheWait | aurarisk-backend/internal/workers/photos.go:81-192 | In every run that keeps its leases, a photo whose attempt failed is next claimed only when the wait for that attempt is over: one minute, doubled with each further attempt. |
| PhotoRows.RetryWaits | aurarisk-backend/internal/workers/photos.go:183-192 | A failed attempt writes nothing but the lock, and until one, two, four, eight or sixteen minutes have passed nobody can claim the photo. |
| PhotoRows.ClaimLocks | aurarisk-backend/internal/workers/photos.go:81-102 | Only photos being processed are claimed; a claim counts one attempt and keeps others out for exactly five minutes. |
| PhotoRows.FinishWritesStatus | aurarisk-backend/internal/workers/photos.go:168-179 | The final write sets the status and frees the photo, and touches no other. |
| PhotoRows.CountsIff | aurarisk-backend/internal/handlers/photos.go:97-103 | A slot counts towards the limit for a quarter of an hour, a processed or ready photo for ever, a refused one never. |
| PhotoRows.CompletableIffCounted | aurarisk-backend/internal/handlers/photos.go:155-166 | A slot can be completed exactly as long as it counts, and only its status changes. |
| PhotoRows.ReservedIffRoom | aurarisk-backend/internal/handlers/photos.go:97-124 | A slot is stored exactly while fewer than four photos of the report count. |
| Photos.PhotoTable.CreatePhotoUpload | aurarisk-backend/internal/handlers/photos.go:73-134 | A slot is reserved if and only if the report exists, the caller is its author and fewer than four photos count; each refusal has its own answer. |
| Photos.PhotoTable.CompletePhotoUpload | aurarisk-backend/internal/handlers/photos.go:147-180 | The uploader's unexpired pending slot moves to processing; anything else stays, and someone else's photo is not found. |
| Photos.PhotoTable.ClaimPhoto | aurarisk-backend/internal/workers/photos.go:81-102 | A claim locks the photo for the lease and counts an attempt. |
| Photos.PhotoTable.FinishPhoto | aurarisk-backend/internal/workers/photos.go:168-179 | The final write sets status and drops the lock, unconditionally. |
| Photos.PhotoTable.RetryPhoto | aurarisk-backend/internal/workers/photos.go:183-192 | The photo is locked for 30 seconds doubled once per attempt. |
| OfflineQueue.NothingLostNothingTwice | aurarisk-mobile/src/sync/flushReportQueue.ts:21-66 | Over any interleaving every report ever queued is still queued or left in exactly one of three ways, and a report is created twice on the server if and only if it was created again after the answer to an earlier creation was lost. |
| OfflineQueue.AtMostThreeCreations | aurarisk-mobile/src/sync/flushReportQueue.ts:43-62 | No report is created more than three times, however many answers are lost. |
| OfflineQueue.ThreeAnswersLost | aurarisk-mobile/src/sync/flushReportQueue.ts:26-62 | A run in which one report is created three times. |
| OfflineQueue.GoneAfterFourFlushes | aurarisk-mobile/src/sync/flushReportQueue.ts:38-66 | A report is gone once four flushes that began with it queued ran to their end. |
| OfflinePhotos.PhotosAreKept | aurarisk-mobile/src/photos/upload.ts:64-79 | In every run a queued report lists exactly the photos it was filed with that were neither uploaded nor found impossible to upload. |
| OfflinePhotos.SentWithItsPhotos | aurarisk-mobile/src/sync/flushReportQueue.ts:26-36 | In every run a report counts as sent only when every photo it was filed with has been settled. |
| OfflinePhotos.ServerIdIsKept | aurarisk-mobile/src/sync/flushReportQueue.ts:26-36 | In every run an entry has, between flushes, the server id it was queued with or else the one the server told. |
| OfflinePhotos.SettledByAnswer | aurarisk-mobile/src/photos/upload.ts:69-78 | A photo is settled exactly by the answer that it was uploaded or never can be. |
| OfflinePhotos.FiledAsQueued | aurarisk-mobile/src/storage/reportQueue.ts:36-55 | What was filed is what was queued, and nothing alters that record. |
| OfflineTurns.LeavesIff | aurarisk-mobile/src/sync/flushReportQueue.ts:21-66 | A report leaves the queue exactly when it is complete, refused, or out of retries at its turn, and counts as sent, rejected or exhausted accordingly. |
| OfflineTurns.EntryAfter | aurarisk-mobile/src/storage/reportQueue.ts:57-69 | What every step makes of an entry that stays: one more retry exactly after a failure, the id told, the photo settled, and nothing else. |
| OfflineTurns.BeginsWithWholeQueue | aurarisk-mobile/src/sync/flushReportQueue.ts:38-43 | A flush sets out to give exactly the reports queued by then their turns, in order. |
| OfflineTurns.CreatedOnlyWithoutServerId | aurarisk-mobile/src/sync/flushReportQueue.ts:26-33 | A report without a server id is created first, one with an id goes straight to its photos. |
| OfflineTurns.StoredBeforePhotos | aurarisk-mobile/src/sync/flushReportQueue.ts:28-33 | The id told is stored before any photo is sent. |
| OfflineTurns.PhotosInOrder | aurarisk-mobile/src/photos/upload.ts:64-79 | Photos are taken in order and the first retryable failure ends the turn. |
| OfflineTurns.OfflineEndsFlush | aurarisk-mobile/src/sync/flushReportQueue.ts:48-49 | Without a connection the flush ends and nothing else changes. |
| OfflineQueue.NextKeepsInv | aurarisk-mobile/src/sync/flushReportQueue.ts:21-66 | Each step keeps the accounting, the link between retries and turns, and the queue behind a running flush. |
| OfflineQueue.ReportQueue.EnqueueReport | aurarisk-mobile/src/storage/reportQueue.ts:36-55 | The item goes to the end of the queue, also during a flush. |
| OfflineQueue.ReportQueue.DequeueReport | aurarisk-mobile/src/storage/reportQueue.ts:57-60 | Exactly the item with that id leaves. |
| OfflineQueue.ReportQueue.UpdateItem | aurarisk-mobile/src/storage/reportQueue.ts:31-34 | Exactly the item with that id is replaced by its update. |
| OfflineQueue.ReportQueue.UpdateRetryCount | aurarisk-mobile/src/storage/reportQueue.ts:62-63 | The failed item stays with one more retry. |
| OfflineQueue.ReportQueue.DropItem | aurarisk-mobile/src/sync/flushReportQueue.ts:21-24 | An item out of retries leaves as exhausted, once. |
| OfflineQueue.ReportQueue.CreateIfNeeded | aurarisk-mobile/src/sync/flushReportQueue.ts:27-32 | The server is asked to create the report once in a turn, and only if no id is stored; the id is stored before any photo. |
| OfflineQueue.ReportQueue.MarkReportCreated | aurarisk-mobile/src/storage/reportQueue.ts:65-66 | The id is stored with the item, before anything else. |
| OfflineQueue.ReportQueue.DropRejected | aurarisk-mobile/src/sync/flushReportQueue.ts:56-57 | A report the server refuses leaves as rejected. |
| OfflineQueue.ReportQueue.UploadReportPhotos | aurarisk-mobile/src/photos/upload.ts:64-79 | It succeeds if and only if no photo fails retryably, and takes each settled photo off the report. |
| OfflineQueue.ReportQueue.PhotoDone | aurarisk-mobile/src/storage/reportQueue.ts:68-69 | A settled photo leaves its report, and only that. |
| OfflineQueue.ReportQueue.FlushOne | aurarisk-mobile/src/sync/flushReportQueue.ts:26-36 | A report counts as sent if and only if it exists on the server and every photo is settled. |
| OfflineQueue.ReportQueue.SendDone | aurarisk-mobile/src/sync/flushReportQueue.ts:34-35 | A finished report leaves the queue and counts as sent, once. |
| OfflineQueue.ReportQueue.StartTurn | aurarisk-mobile/src/sync/flushReportQueue.ts:48-49 | Going offline ends the flush and costs no retry. |
| OfflineQueue.ReportQueue.BeginFlush | aurarisk-mobile/src/sync/flushReportQueue.ts:38-41 | The flush works on the queue as it was when it began. |
| OfflineQueue.ReportQueue.EndFlush | aurarisk-mobile/src/sync/flushReportQueue.ts:64-66 | A completed flush counts for every report of its batch. |
| OfflineQueue.ReportQueue.RunFlush | aurarisk-mobile/src/sync/flushReportQueue.ts:38-66 | Whatever is queued meanwhile: sent is the number of reports newly sent; sent, failed and dropped together make up the batch when online throughout; remaining is the queue left. |
| OfflineQueue.ReportQueue.GoThrough | aurarisk-mobile/src/sync/flushReportQueue.ts:43-62 | The loop gives every report of the batch its turn until the app is found to be offline, and counts the outcomes. |
| OfflineQueue.ReportQueue.TakeTurn | aurarisk-mobile/src/sync/flushReportQueue.ts:43-62 | A report is dropped exactly when out of retries, ends the flush exactly when offline, and else is sent or fails. |
| OfflineQueue.ReportQueue.Await | aurarisk-mobile/src/storage/reportQueue.ts:36-55 | What is queued while the flush waits goes to the end and disturbs nothing. |
| OfflineQueue.OverlapLosesAnUpdateIff | aurarisk-mobile/src/storage/reportQueue.ts:31-60 | An enqueue and a dequeue both take effect if and only if one has written before the other reads. |
| OfflineQueue.ReportQueue.constructor | aurarisk-mobile/src/storage/reportQueue.ts:20-29 | An absent store is an empty queue. |
| Orientation.PlaceFollowsTiff | aurarisk-backend/internal/services/imaging.go:169-206 | The pixel mapping is the one, and the only one, that section 8 of TIFF 6.0 (tag Orientation) prescribes, and stays in bounds. |
| Orientation.PlacesUndo | aurarisk-backend/internal/services/imaging.go:169-206 | 6 and 8 undo each other, every other orientation undoes itself. |
| Orientation.PlacesDiffer | aurarisk-backend/internal/services/imaging.go:169-206 | No two pixels go to the same place. |
| Orientation.OrientedUndone | aurarisk-backend/internal/services/imaging.go:169-206 | Turning any image and turning it back gives the image. |
| Orientation.ApplyOrientation | aurarisk-backend/internal/services/imaging.go:169-206 | The nested loops fill every output pixel in bounds with the pixel it is to show; unknown orientations leave the image alone. |
| Orientation.FitSize | aurarisk-backend/internal/services/imaging.go:76-105 | The output fits maxEdge, never grows, never vanishes, brings the longer edge to exactly maxEdge and keeps the proportion to less than a pixel. |
| Exif.ExifOrientation | aurarisk-backend/internal/services/imaging.go:135-167 | For any bytes, without reading outside them: the first whole orientation entry's value if it is 1 to 8, else 1. |
| Exif.OrientationIsUnique | aurarisk-backend/internal/services/imaging.go:135-167 | That description determines the result. |
| Exif.JpegOrientation | aurarisk-backend/internal/services/imaging.go:109-133 | For any bytes the scan ends within them and gives the orientation of the first Exif segment it reaches, else 1. |
| Exif.FirstExifSegmentIsFound | aurarisk-backend/internal/services/imaging.go:113-131 | In a file written as in section B.1.1 of ITU-T T.81, the first Exif segment is found behind any other segments, whatever follows. |
| Exif.NothingBehindTheImageData | aurarisk-backend/internal/services/imaging.go:118-120 | Once image data or the end marker comes, nothing after it counts. |
| Exif.ScanSkipsSegments | aurarisk-backend/internal/services/imaging.go:113-131 | The scan passes over any series of well-formed segments that are not Exif. |
| Exif.NothingBehindDamage | aurarisk-backend/internal/services/imaging.go:113-126 | Nothing is found behind bytes that are no whole segment. |
| Tiff.WrittenOrientationCounts | aurarisk-backend/internal/services/imaging.go:109-167 | Round trip: TIFF data of either byte order, with its directory anywhere and any other entries, put into a JPEG behind any other segments, is found there and its orientation is the one read, the only one possible. |
| Tiff.FirstEntryIsRead | aurarisk-backend/internal/services/imaging.go:135-167 | For every well-formed TIFF file the first orientation entry's value is read if it is 1 to 8, and taken for 1 otherwise. |
| Tiff.UprightWithoutEntry | aurarisk-backend/internal/services/imaging.go:148-166 | Without such an entry among those that lie wholly within the data the photo is upright. |
| Tiff.UprightWithoutByteOrder | aurarisk-backend/internal/services/imaging.go:135-147 | So is one whose data is too short or starts with neither II nor MM. |
| Tiff.UprightWithoutDirectory | aurarisk-backend/internal/services/imaging.go:148-151 | And one whose directory would lie in the header or outside the data. |
| Risk.CalculateRiskScore | aurarisk-backend/internal/services/risk.go:40-73 | The loops compute the specified score, or stop with an index out of range. |
| RiskRules.ScoreIsSumOfPoints | aurarisk-backend/internal/services/risk.go:40-142 | The score, hour by hour: the sum of the points for the last hour's rain, the next six hours', the last 48 hours' and week's, the latest soil reading, ground, river and weather code, kept within 0 and 100 and rounded down; there is one exactly if the current hour is at most 47 past the series. |
| RiskRules.NowIsCurrentHour | aurarisk-backend/internal/services/risk.go:97-107 | The current hour is the earliest entry of the hour the current time lies in, else a week into the series or its end, and no other. |
| RiskRules.SoilPointsAreScored | aurarisk-backend/internal/services/risk.go:127-142 | Soil points are fifty a unit of the latest positive reading, twenty at most. |
| RiskRules.GroundPointsAreScored | aurarisk-backend/internal/services/risk.go:77-82 | Ground points are two thirds a metre of depression up to ten, and no other. |
| RiskRules.RiverPointsAreScored | aurarisk-backend/internal/services/risk.go:86-92 | River points are eight for each baseline the peak lies above one and a half, up to twenty, and no other. |
| Risk.CurrentHourIndex | aurarisk-backend/internal/services/risk.go:97-107 | The first hour that matches the current time, or a week into the series. |
| Risk.SumPreviousHours | aurarisk-backend/internal/services/risk.go:116-125 | The sum of the window, or an index out of range. |
| Risk.LatestPositive | aurarisk-backend/internal/services/risk.go:135-142 | The last positive reading before the end, or -1. |
| Risk.RiverScoreFollowsThePeak | aurarisk-backend/internal/services/risk.go:86-92 | River points are none exactly up to one and a half baselines or under the smallest scored flow, and all 20 exactly from four baselines. |
| Risk.LowLyingScoreFollowsTheDepth | aurarisk-backend/internal/services/risk.go:77-82 | Ground points are none exactly at or above the surroundings and all 10 exactly from fifteen metres below. |
| Risk.WetterPlacesScoreNoLower | aurarisk-backend/internal/services/risk.go:40-92 | More rain now, lower ground, a higher river peak, a lower baseline or a graver weather code never lower the score. |
| Risk.PanicsIff | aurarisk-backend/internal/services/risk.go:110-125 | Scoring slices out of range if and only if the current hour lies more than 47 hours past the rain series. |
| Risk.ValidateClientWeather | aurarisk-backend/internal/services/clientweather.go:23-71 | Weather is accepted if and only if it is plausible; a problem named is one the weather has, and the hour named is the first bad one. |
| RiskRules.PlausibleIff | aurarisk-backend/internal/services/clientweather.go:23-71 | What plausible means, limit by limit: place, time zone, age, code, number of hours, and each hour's time, rain and soil moisture. |
| Risk.PlausibleWeatherIsScored | aurarisk-backend/internal/services/clientweather.go:23-71 | Accepted weather is always scored without slicing out of range, between 0 and 100. |
| Risk.MoreRainScoresNoLower | aurarisk-backend/internal/services/risk.go:40-73 | Raising the rain of any hours never lowers the score. |
| Risk.OnlyNearbyHoursCount | aurarisk-backend/internal/services/risk.go:48-55 | The score depends on hourly rain only from 167 hours before to 6 hours after the current hour. |

## Left out

- RateLimiting.WaitIsExact: does not model the truncation of the wait to whole nanoseconds; times are reals.
- Risk.MoreRainScoresNoLower: does not model floating-point rounding or NaN; all amounts, here and in the buckets, are reals.
- Weather.WeatherService.Get: reads the clock once per locked section, where the code may read it twice a moment apart; the deadline of the provider call and the service's waiting on a channel are not modelled beyond a caller's answer, a caller's giving up and the fetch's completion.
- WeatherProtocol.EveryRunKeepsInv: counts fetches, not the HTTP retries inside one fetch.
- AuthServer.OneLiveToken: takes each handler as one atomic step; what Postgres read-committed isolation allows between the statements of two concurrent transactions (a logout beside a refresh, say) is not modelled.
- AuthServer.ReplayIsDetected: token hashes are taken as injective and new tokens as numbers never used before.
- AuthClient.PresentedIsReuseIff: the first loading of the session, local logout, failures of the secure store and reset handlers are not modelled; whether a session counts as expired is an input.
- Reports.ReportTables.StoreReport: which rows the candidate query returns (window, distance, limit, order) is left open, save that they are not rejected and carry their current duplicate_of.
- Curation.FindDuplicate: the great-circle distance, the splitting of notes into words and the clock are inputs.
- Verifier.RunOnce: an error or cancellation in mid-run and ST_DWithin (an abstract relation between places) are not modelled; which of equally old reports come first is left open.
- Retention.OrphanFreeIff: one batch, its object deletions taken as one step; the repetition over batches, and the rules by which reports and photos are chosen, are not modelled.
- Notifier.NoRepeatWithoutCause: supposes that recording an alert succeeds and the subscription is not edited; sharing one assessment between nearby subscriptions and dropping dead devices are not modelled.
- Notifier.QuietHoursAreKept: time zones and parsing are not modelled; the local minutes of the day, when the run begins and when an alert goes out, are inputs.
- Photos.AtMostFourLivePhotos: the rows of reports that are deleted stay; takes each statement or transaction as one step; what read-committed isolation allows between a reservation and a completion is not modelled, nor the quarantine objects themselves.
- OfflineQueue.NothingLostNothingTwice: each queue operation is atomic (what overlapping ones do is OverlapLosesAnUpdateIff alone) and succeeds, and the app is not killed in the middle of a flush.
- Exif.FirstExifSegmentIsFound: fill bytes between segments end the scan, as in the code; decoding, resampling and re-encoding are not modelled.
- Risk.CalculateRiskScore: the level names and tips, and weather other than what a client sends, are not modelled.
- HTTP routing and parsing, metrics, logging, webhooks, response statuses, the hydrology cache, place search, open-data export and the user interface would only add easier relatives of what is here.
