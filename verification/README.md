# HumanGuard: a verified model of the bot-detection backend

HumanGuard is a Go service that scores the visitors of a web site, blocks the
ones that look automated and blacklists their addresses. This project models
its in-memory state machines, the tables behind them and the loops that work on
them, and proves what they keep over whole runs.

Time is an `int` of nanoseconds and never runs backwards (the rate limiter uses
`real` seconds). Identifiers that the source draws at random (UUIDs, key
material) are parameters, fresh where a property needs it. Go maps and
`sync.Map` ranges are visited in arbitrary order. `dafny verify dfyconfig.toml`
checks everything.

## The parts

| file | what it holds |
|---|---|
| `Basics.dfy` | options and results, the clock, int64 wrap-around, strings and the columns that hold them |
| `RateLimit.dfy`, `Admission.dfy`, `Middleware.dfy` | token buckets per (address, path): when eviction is noticed, how much is admitted, then the objects updated in place |
| `Sessions.dfy`, `SessionStore.dfy` | visitor sessions: the table as a value, then session objects and metric maps shared by reference |
| `Sites.dfy`, `Blacklist.dfy` | the tables of sites and of listed addresses against the log of what was done to them |
| `Scoring.dfy`, `Detection.dfy`, `Detector.dfy` | score arithmetic and the sliding window, the analysis as a function of the stored world, the `Detector` object |
| `AnalysisRuns.dfy` | repeated analyses, and the cache of one shared detector |
| `Visits.dfy`, `Handlers.dfy` | the public endpoints as functions of the world, and as handlers over the shared objects |
| `Protocol.dfy` | every analysis and check broken at its storage calls, interleaved with everything else; one of them alone is the whole call |
| `Safety.dfy` | what every interleaving keeps |
| `Convictions.dfy` | when a convicted address stays out, and which checks notice |
| `SharedCache.dfy`, `LastWriters.dfy` | the cache of a shared detector against the store, at the level of single writes |
| `CacheSweeps.dfy` | cleaning that cache, whole or in two steps |
| `UserSessions.dfy`, `UserSessionManager.dfy` | login sessions with a sliding lifetime, and the tokens that name them |
| `Accounts.dfy`, `AccountStore.dfy` | users, linked OAuth identities |
| `ApiKeys.dfy`, `KeyLife.dfy`, `ApiKeyStore.dfy` | API keys: the statements and handlers, the life of a key over whole runs, the tables updated in place |
| `Upload.dfy` | producer, pipe, hash and progress of an upload |
| `Totp.dfy` | one-time codes |

Code that changes objects or tables is a class whose methods say exactly which
value the object holds afterwards; the theorems are about those values, so they
hold of the objects. `Protocol.AloneIsAnalyze` and `Protocol.AloneIsCheck` tie
the interleaved steps back to the same functions the handlers are proved
against.

## What the code does not do

Some properties one might expect are false. Each is refuted by a concrete case
and replaced by the exact condition under which it holds.

- A conviction does not always keep the visitor out. The address is the text of
  a header, its column holds 45 characters, and a failed insert is only logged:
  the address stays listed exactly when it fits the column and its site still
  exists at the insert (`Convictions.ConvictedAddressStaysBlocked`). One of 46
  characters is convicted and served again (`Convictions.LongAddressEscapes`).
- A check in flight when the entry lands is refused exactly if it had not read
  the list yet and nothing turned it away before
  (`Convictions.InFlightRefusedIff`); else it is served
  (`Convictions.LateCheckServed`).
- The documentation gives risks as 0 to 100. A detector shared between requests
  can store more (`Detection.SharedDetectorExceedsHundred`), exactly when
  `Detection.SharedRiskExceedsIff` says so; with a detector per request, as
  deployed, 100 is the limit, and 200 in general.
- A user agent that scores higher in the first filter can end with a lower risk
  (`Detection.WorseAgentLowerRisk`); the order of all agents is kept exactly when
  no rule of the second filter fires (`Detection.AgentOrderKeptIff`).
- The cache of a shared detector need not hold the stored risk: two analyses of
  one session can cross between their two writes
  (`SharedCache.TwoWritersDisagree`), and a passed captcha clears the store only
  (`SharedCache.ResetAgreesIff`). The two agree exactly when the last to write
  the one and the last to write the other wrote the same risk
  (`LastWriters.AgreeIffLastWritersDo`).
- Cleaning that cache is noticed by nobody as long as each look at an entry and
  its deletion are one (`CacheSweeps.SweepsUnobservable`), but they are two: what
  was cached anew between them is lost (`CacheSweeps.FreshEntryLost`). A deletion
  stays unnoticed exactly when it meets no entry that would still be used
  (`CacheSweeps.DropHiddenIff`).
- Cleaning up visitor sessions can be seen by a check
  (`Visits.CleanupSeenByCheckIff`), because visitor sessions are found without a
  look at their expiry, whatever the log line beside the lookup says
  (`Visits.ExpiredSessionSeen`). Sweeping
  login sessions cannot be seen by authentication, only by listings.
- Two pairs of address and path can share a bucket: for a path that starts with
  '/', exactly when the address or the path contains ":/"
  (`RateLimit.SharedBucketIff`). Eviction of idle limiters can therefore be seen
  under the installed rules (`RateLimit.ConfiguredEvictionSeen`). For any rules
  and any set of clients it is invisible exactly when an empty bucket of theirs
  refills within ten minutes and no two of them share a bucket under quotas that
  differ (`RateLimit.EvictionHiddenIff`).
- A client can be admitted more often than its rule allows: twenty times at once
  at the login, where five is the limit (`Admission.LoginBoundExceeded`), because
  a stranger's request has made the bucket under another rule. For any rules and
  any set of clients the bound burst + limit * span holds exactly under that
  same condition (`Admission.AdmissionBoundIff`).
- A token may outlive its session by as much as lies between the two clock reads
  of a login (`UserSessions.LateSignatureIsRefused`); with one read it never does.
- Signing in does not always link the identity: a link whose columns are too
  narrow is only logged (`Accounts.SignedInIsLinkedIff`), and then the next
  sign-in may fail (`Accounts.GetOrCreateIdempotentIff`), as with an identity of
  256 characters (`Accounts.LongIdentityLocksOut`).
- Two identity providers that report the same email do not always reach the same
  user, because look-ups lower-case the email and creation does not
  (`Accounts.OneEmailTwoAnswers`); `Accounts.SameEmailSameUserIff` says when they
  do.
- The handler accepts a name for an API key that its column does not hold, and
  answers 500 (`ApiKeys.LongNameFails`, `ApiKeys.CreatedKey`).
- A read error in the middle of an upload ends the copying loop like the end of
  the file does, and the upload is recorded as complete
  (`Upload.BrokenIsCompleted`); it is the whole part exactly when the last read
  was the end (`Upload.CompletedIsWholeIff`).
- When the save of an upload fails, the goroutine that copies the part can be
  blocked in the pipe for ever (`Upload.StrandedFromStart`): exactly when bytes
  were on offer then, or some later read delivers one
  (`Upload.FailedSaveStrandsIff`).
- The documented endpoint that blocks a session by hand is not routed; only an
  analysis blocks sessions.

## Model

| member | source | states |
|---|---|---|
| Safety.EveryRunIsSafe | backend/detector/detector.go:218-273 | over every interleaving of analyses, checks, sweeps and edits: stored sessions are active exactly when not blocked, keep the site and address they were created with, hold a risk in 0..100 (0..200 with a shared detector), and are blocked only if some analysis computed 80 or more for them |
| Safety.StepSafe | backend/storage/session.go:51-117 | one step of anything keeps that invariant |
| Safety.NoSessionChangesSite | backend/handlers/visitor_session.go:187-241 | between any two points of any run a session id keeps its site and address |
| Convictions.ConvictedAddressStaysBlocked | backend/detector/detector.go:253-270 | in any run, when an analysis that convicted its session comes to list the address the session was created with: it is listed for good, through every continuation that does not lift the entry, if and only if the address fits its column and the site exists at that moment; and then every whole check of it from there on is refused |
| Convictions.InFlightRefusedIff | backend/handlers/visitor_session.go:106-151 | a check in flight when such an entry lands: once answered past the guards on the site it is refused if and only if it had not read the list by then |
| Convictions.LateCheckServed | backend/handlers/visitor_session.go:143-151 | a run in which a check has read the list before its address is entered for good, and is answered with allow |
| Convictions.PermanentRun | backend/storage/blacklist.go:10-34 | an entry without expiry survives every run in which nobody removes it, gives it an expiry or deletes the site, automatic entries included |
| Convictions.EveryRowFits | backend/migrations/001_init_up.sql:31-39 | in every state of every run every listed address fits its column and its site exists, the cascade of a deleted site included |
| Convictions.UnfitAddressNeverRefused | backend/handlers/visitor_session.go:143-151 | so an address that does not fit is refused by no check in any run |
| Convictions.LongAddressEscapes | backend/handlers/visitor_session.go:24-29 | an address of 46 characters: served, convicted at 85, not listed, served again |
| SharedCache.CacheAgreesWhenQuiet | backend/detector/detector.go:244-250 | for one shared detector, over every interleaving of single calls in which no two analyses of a session are between their two writes at once and no captcha clears its risk: whenever none is between them, the cached score is the stored risk, for as long as the entry lives; what a look into the cache without regard to age (348-355) then answers |
| SharedCache.StepCoherent | backend/detector/detector.go:244-250 | the invariant behind it: between the two writes the store already holds the risk of the one analysis that is there |
| SharedCache.TwoWritersDisagree | backend/detector/detector.go:244-250 | a run from the start in which two analyses cross there and leave 65 in the cache and 70 in the store, nothing pending |
| SharedCache.ResetAgreesIff | backend/handlers/visitor_session.go:251-256 | after a passed captcha the two agree exactly when the cache held no risk |
| LastWriters.AgreeIffLastWritersDo | backend/detector/detector.go:239-251 | over every run of one shared detector, without provisos: on a session both know, cache and store agree if and only if the last to write the store (an analysis, or a check after a captcha) and the last to write the cache wrote the same risk; they do when it was one analysis |
| LastWriters.RunTraced | backend/detector/detector.go:239-251 | the invariant behind it: store and cache each hold what their last writer wrote |
| Protocol.AloneIsAnalyze | backend/detector/detector.go:218-273 | the storage calls of an analysis, run without interruption, have exactly the effect of the analysis as one call |
| Protocol.AloneIsCheck | backend/handlers/visitor_session.go:96-269 | likewise for a check |
| Protocol.AloneComputes | backend/detector/detector.go:40-115 | the reads of an uninterrupted analysis compute the risk of a new detector |
| Protocol.AloneApplies | backend/detector/detector.go:245-271 | its writes are the consequences of that risk |
| Protocol.SweepTakes | backend/storage/session.go:196-208 | a cleanup tick takes a session exactly when it was expired by the clock the tick had read, or blocked |
| Protocol.LostSessionFails | backend/handlers/visitor_session.go:251-258 | a passed captcha whose session has gone meanwhile is answered with an error and changes nothing |
| Detection.VerdictMeaning | backend/detector/detector.go:40-115 | a verdict blocks exactly from 80 on, asks for the deep filter only below 70, and is in 0..200 |
| Detection.SwitchesDecide | backend/detector/detector.go:60-115 | agent and volume are scored where the site's stored switch is on, and where the site or its settings are missing; the deep filter is asked for below 70 |
| Detection.CacheMeaning | backend/detector/detector.go:40-59 | the cache answers with entries of less than ten seconds only; cleaning (337-346) keeps what is at most twenty seconds old |
| Detection.FreshAnalysis | backend/detector/detector.go:218-273 | a detector made for one request never answers from its cache and scores no volume: the analysis is one function of session, settings, blacklist, metrics, address and agent, and its consequences |
| Detection.FreshRiskRange | backend/detector/detector.go:40-216 | that risk is in 0..100 |
| Detection.ApplyMeaning | backend/detector/detector.go:245-271 | the final risk is stored; from 80 on and only then the session is blocked, and its own address ends up listed for ever on its own site if and only if it fits the column and the site exists; nothing else changes |
| Detection.PunishmentRow | backend/detector/detector.go:253-270 | the row a high risk leaves: its reason with the number, no expiry, and the id and creation time of the row that was there, if any |
| Detection.EnterMeaning | backend/storage/blacklist.go:10-34 | what the insert of an entry without expiry does to the table: that pair and no other, and listed at all times exactly when the schema lets it in |
| Detection.AnalysisKeepsRisks | backend/detector/detector.go:218-273 | stored risks stay in 0..100 with a detector per request and in 0..200 with a shared one |
| Detection.SharedRiskExceedsIff | backend/detector/detector.go:40-115 | an analysis leaves a risk over 100 where there was none exactly when the cache does not answer, the session exists, the address is not listed, both analyzers are on, and agent and volume scores exceed 100 together |
| Detection.SharedDetectorExceedsHundred | backend/detector/detector.go:82-107 | an instance: 120 or more |
| Detection.AgentOrderKeptIff | backend/detector/detector.go:98-115 | for given metrics, a user agent that scores higher in the first filter never ends with a lower risk if and only if there are no metrics or none of their rules fires |
| Detection.WorseAgentLowerRisk | backend/detector/detector.go:98-115 | two agents that score 65 and 70 and end at 85 and 70 when the page has loaded within 50 ms |
| AnalysisRuns.RepeatedSubmissionsSettle | backend/handlers/behaviour.go:113-121 | with unchanged metrics, after any number of passes: a first risk r below 80 is what is stored and nothing is listed; from 80 on the session is blocked, and where the schema lets its address in it is listed for good and every later pass stores 100, elsewhere every pass stores r |
| AnalysisRuns.UnlistableRepeats | backend/detector/detector.go:253-270 | an address the schema does not let in is scored the same in every pass |
| AnalysisRuns.CacheAlwaysAgrees | backend/detector/detector.go:244-250 | in runs of whole analyses where one detector writes all risks, every cached score is the stored risk of its session while that exists |
| AnalysisRuns.LowRiskRepeats | backend/detector/detector.go:117-216 | a low risk is a fixed point of submitting again |
| CacheSweeps.SweepsUnobservable | backend/detector/detector.go:337-346 | for one shared detector: whole sweeps of its cache, anywhere between the single calls of any analyses and checks, change no answer, no stored value, no stage of any analysis and no call list |
| CacheSweeps.CarefulTicksUnobservable | backend/detector/detector.go:337-346 | the same for sweeps broken between the look at an entry and its deletion, in every run in which no deletion meets an entry that would still be used |
| CacheSweeps.DropHiddenIff | backend/detector/detector.go:339-342 | a deletion is noticed by no continuation whatever if and only if it meets no such entry |
| CacheSweeps.FreshEntryLost | backend/detector/detector.go:339-342 | a run from the start in which a sweep deletes what an analysis has cached since the look, and the next analysis computes again where the cache would have answered |
| Scoring.HeadlessScoreMeaning | backend/detector/detector.go:275-305 | the score is 25 per matching indicator plus the two surcharges, capped; it ignores case, stays in 0..100 and is 0 exactly for a long agent with a platform and no tool |
| Scoring.AgentWeights | backend/detector/detector.go:275-305 | the eight tool names and six platforms that are looked for, and what they and a short agent weigh |
| Scoring.HeadlessChromeScoresTwice | backend/detector/detector.go:279-290 | headless Chrome matches two indicators |
| Scoring.RecentIsSuffix | backend/detector/detector.go:313-318 | pruning a sorted list drops exactly what is a minute old or older |
| Scoring.WindowIsRecentHistory | backend/detector/detector.go:307-322 | after any run of calls the list of an address is exactly the last minute of its whole history |
| Scoring.VolumeOfOneMoreCall | backend/detector/detector.go:307-335 | 100, 50, 20 or 0 for more than 100, 60 or 30 calls of that address in the last minute, or fewer; other addresses are untouched |
| Scoring.CounterEvidenceBound | backend/detector/detector.go:131-171 | the two rate rules exclude each other; counters weigh at most 75 |
| Scoring.EvidenceBound | backend/detector/detector.go:131-206 | the deep filter adds between 0 and 120 |
| Scoring.WeightsOfMetrics | backend/detector/detector.go:117-216 | the second filter on the decoded JSON: which keys it reads, when each of the seven rules fires, in numbers, and what each adds before the clamp; no metrics change nothing |
| Scoring.RulesOneByOne | backend/detector/detector.go:131-171 | the five counter rules one by one, and two together, on top of a risk of 10 |
| Scoring.EvidenceBoundReached | backend/detector/detector.go:131-206 | and 120 is reached |
| Scoring.NoEvidenceIff | backend/detector/detector.go:131-206 | it adds nothing exactly when no rule fires, and at least 15 otherwise |
| Scoring.DeepRiskMonotone | backend/detector/detector.go:117-216 | the deep filter is monotone in the risk it starts from and never lowers one in range |
| Scoring.FastMovesAreHighRate | backend/detector/detector.go:142-171 | over 1000 moves within half a minute always fire the high-rate rule and never the low-rate one |
| Detector.Detector.HeadlessScore | backend/detector/detector.go:275-305 | the loop computes the score |
| Detector.Detector.RateLimitScore | backend/detector/detector.go:307-335 | the list of the address is rewritten in place as specified |
| Detector.Detector.Assess | backend/detector/detector.go:60-115 | blacklist, agent and volume checks in order |
| Detector.Detector.Prefilter | backend/detector/detector.go:40-115 | cache, session and checks as specified |
| Detector.Detector.CounterScore | backend/detector/detector.go:131-171 | the counter rules, one after the other |
| Detector.Detector.DeepFilter | backend/detector/detector.go:117-216 | the evidence is added and clamped, or nothing is when there are no metrics |
| Detector.Detector.AnalyzeAndUpdate | backend/detector/detector.go:218-273 | store, cache and call lists end exactly as the analysis on values says |
| Detector.Detector.Finish | backend/detector/detector.go:245-271 | risk to the store, then the cache, then the punishment |
| Detector.Detector.WriteRisk | backend/detector/detector.go:244-250 | store and cache hold the risk afterwards, nothing else changes |
| Detector.Detector.List | backend/detector/detector.go:261-268 | the address is listed for good, or the table is as it was |
| Detector.Detector.Punish | backend/detector/detector.go:253-270 | the session is blocked and its creation address listed |
| Detector.Detector.CleanCache | backend/detector/detector.go:337-346 | exactly the entries older than twice the lifetime go, in any order |
| Sessions.CleanupKeeps | backend/storage/session.go:196-208 | cleanup keeps exactly the unexpired active sessions, unchanged, and adds nothing when repeated |
| Sessions.ListedWhile | backend/storage/session.go:51-169 | a session is listed as live for thirty minutes from its creation or its last check, not while blocked, and as suspicious from the asked risk on |
| Sessions.LastBatchWins | backend/storage/session.go:128-137 | merging batches in order leaves each key with the value of the last batch that holds it |
| Sessions.StatsAgree | backend/storage/session.go:171-194 | active + blocked <= total, distinct addresses <= total, average times total is the sum of the risks |
| Sessions.StatsCount | backend/storage/session.go:171-194 | which sessions of the site each figure counts |
| Sessions.RiskSumAnyOrder | backend/storage/session.go:174-188 | the sum does not depend on the order of the range |
| SessionStore.MemorySessionStore.CreateSession | backend/storage/session.go:51-63 | the session is stored with its times set, expiry only when unset |
| SessionStore.MemorySessionStore.GetSession | backend/storage/session.go:65-70 | the stored object, expired or not |
| SessionStore.MemorySessionStore.UpdateSessionActivity | backend/storage/session.go:72-80 | activity and expiry of that session move, nothing else |
| SessionStore.MemorySessionStore.DeactivateSession | backend/storage/session.go:82-88 | that session goes |
| SessionStore.MemorySessionStore.BlockSession | backend/storage/session.go:90-98 | blocked and inactive, nothing else |
| SessionStore.MemorySessionStore.UnblockSession | backend/storage/session.go:100-108 | unblocked and active, nothing else |
| SessionStore.MemorySessionStore.UpdateRiskScore | backend/storage/session.go:110-117 | that risk, nothing else |
| SessionStore.MemorySessionStore.MarkCaptchaShown | backend/storage/session.go:119-126 | that flag, nothing else |
| SessionStore.MemorySessionStore.Overlay | backend/storage/session.go:131-133 | copying one map into another, also into itself |
| SessionStore.MemorySessionStore.UpdateSessionMetrics | backend/storage/session.go:128-137 | right-biased merge, also when given the session's own map |
| SessionStore.MemorySessionStore.GetSessionMetrics | backend/storage/session.go:139-145 | the map itself, not a copy |
| SessionStore.MemorySessionStore.GetActiveSessionsBySite | backend/storage/session.go:147-157 | min(limit, matches) distinct live sessions of the site for a limit of at least 1, at most one otherwise |
| SessionStore.MemorySessionStore.GetSuspiciousSessions | backend/storage/session.go:159-169 | every active session of the site at or over the risk, each once |
| SessionStore.MemorySessionStore.GetSessionStats | backend/storage/session.go:171-194 | the one-pass figures are the counts, sums and distinct addresses over the table |
| SessionStore.MemorySessionStore.CleanupExpiredSessions | backend/storage/session.go:196-208 | removes exactly the expired or inactive while ranging, and returns how many |
| Blacklist.ReplayMeaning | backend/storage/blacklist.go:10-50 | after any log of operations a pair has a row exactly when its last operation added it; reason and expiry are the last addition's, id and creation time those of the first since it was absent |
| Blacklist.AnswersFollowTheLog | backend/storage/blacklist.go:52-101 | both queries say: the last operation on the pair was an addition that has not expired |
| Blacklist.BanLasts | backend/storage/blacklist.go:52-101 | after an addition that succeeds and until something else is done to the pair, both queries have it at every instant before its expiry and at none from then on, and at all times without one |
| Blacklist.FilledIn | backend/storage/blacklist.go:10-34 | the row an addition leaves: the last reason and expiry under the first id and creation time, filled in where the caller left them out |
| Blacklist.OnlyListableIsListed | backend/migrations/001_init_up.sql:31-39 | after any log every row is of a site that exists and of an address that fits its column |
| Blacklist.SiteTables.AddToBlacklist | backend/storage/blacklist.go:10-34 | it succeeds exactly when the address fits its column and the site exists, and is then the last word of the log on that pair |
| Blacklist.SiteTables.RemoveFromBlacklist | backend/storage/blacklist.go:36-50 | the row goes, or an error if there was none |
| Blacklist.SiteTables.IsBlacklisted | backend/storage/blacklist.go:52-68 | yes exactly when the last operation of the log on the pair added it and that has not expired |
| Blacklist.SiteTables.ListBlacklist | backend/storage/blacklist.go:70-101 | every unexpired row of the site once, newest first |
| Blacklist.SiteTables.DeleteSite | backend/storage/site.go:203-232 | the site goes and exactly its rows with it |
| Visits.CheckedMeaning | backend/handlers/visitor_session.go:187-269 | every 200 answer names a stored session of the requested site with thirty minutes to live and the reported risk; it denies from 80 on, challenges from 50 to 79, allows below; risk 0 after a captcha; everything else is unchanged |
| Visits.RiskDecidesNextCheck | backend/handlers/visitor_session.go:246-269 | detector and check together: after an analysis by a new detector that comes to the risk r, a check that names the session and is answered with 200 blocks exactly if r is at least 80, asks for a captcha from 50 to 79, and allows below |
| Visits.BannedUntil | backend/handlers/visitor_session.go:143-151 | after the insert of an entry with an expiry, checks of the active site from that address are refused at every instant before it and at none from then on |
| Visits.HeaderBeforeCookie | backend/handlers/visitor_session.go:177-186 | the session named in the header is the one served, whatever the cookie says; without a header the cookie names it |
| Visits.CheckRefusals | backend/handlers/visitor_session.go:101-210 | every refusal exactly for its cause: preflight, no site id, unknown or inactive site, an entry in force, a bad body, a foreign session |
| Visits.CleanupSeenByCheckIff | backend/storage/session.go:65-70 | a cleanup changes the answer to a check exactly when the session it names was expired or blocked |
| Visits.ExpiredSessionSeen | backend/handlers/visitor_session.go:187-200 | a session that has just run out: kept on, or replaced when a cleanup came first |
| Visits.SubmissionsMergeInOrder | backend/handlers/behaviour.go:96-111 | after any submissions the metrics are the earlier ones merged with all batches in order |
| Visits.SubmitRefusals | backend/handlers/behaviour.go:29-95 | every refusal of a submission exactly for its cause, and none changes anything |
| Visits.TriggerRefusals | backend/handlers/behaviour.go:138-168 | the same for an analysis by hand |
| Visits.TriggerBaseline | backend/handlers/behaviour.go:139-168 | an analysis by hand uses no agent: at least 35 with headless detection on; it reports the stored risk |
| Handlers.VisitorSessionHandler.Refuse | backend/handlers/visitor_session.go:101-176 | the answers before a session is looked at, in order |
| Handlers.VisitorSessionHandler.CheckRequest | backend/handlers/visitor_session.go:96-269 | the handler on shared objects does exactly what the check on values says |
| Handlers.BehaviorHandler.SubmitBehavior | backend/handlers/behaviour.go:29-121 | likewise, although it writes through the map the store handed out and then merges that map into itself |
| Handlers.BehaviorHandler.BackgroundAnalysis | backend/handlers/behaviour.go:113-121 | the spawned analysis has a detector of its own |
| Handlers.BehaviorHandler.TriggerAnalysis | backend/handlers/behaviour.go:139-168 | likewise, then reads the session back |
| Handlers.BehaviorHandler.MergeBatch | backend/handlers/behaviour.go:96-111 | writing the batch through the alias and merging the map into itself is one right-biased merge |
| RateLimit.QuotaForIsFirstMatch | backend/middleware/ratelimit.go:56-65 | the first matching rule decides, the default when none matches |
| RateLimit.SharedBucketIff | backend/middleware/ratelimit.go:45-45 | for a path that starts with "/": another pair of address and such a path has the same bucket if and only if the address or the path contains ":/" |
| RateLimit.EvictionHiddenIff | backend/middleware/ratelimit.go:79-90 | for any rules and any set of clients: sweeps are invisible in every run of theirs if and only if each of their buckets refills within ten minutes and no two of them share a bucket under quotas that differ |
| RateLimit.EvictionUnobservable | backend/middleware/ratelimit.go:44-90 | in a run whose limited paths refill and in which no key is used under two quotas, every placement of sweeps leaves the whole allow/deny sequence unchanged |
| RateLimit.ConfiguredEvictionUnobservable | backend/cmd/server/main.go:333-344 | the installed rules refill, so for them one quota per key is enough, and keys that can be read in one way only have one |
| RateLimit.SoloHasOneQuota | backend/middleware/ratelimit.go:131-136 | traffic without ":/" in an address or a path uses no key under two quotas |
| RateLimit.ConfiguredEvictionSeen | backend/cmd/server/main.go:333-344 | a run in which the installed rules answer differently with a sweep and without, through two clients in one bucket |
| RateLimit.SlowRefillSeen | backend/middleware/ratelimit.go:79-90 | a single client under a rule that refills more slowly sees a sweep |
| RateLimit.SharedKeySeen | backend/middleware/ratelimit.go:79-90 | and so do any two clients in one bucket under quotas that differ |
| RateLimit.VolleyOutcome | backend/middleware/ratelimit.go:103-107 | a burst of any client at one instant is admitted in full exactly when the tokens on offer cover it |
| RateLimit.BurstThenWait | backend/middleware/ratelimit.go:44-107 | a new client is let through at once exactly as often as the burst of its rule says, and then again exactly when the rate has brought a token |
| RateLimit.WhoIsLimited | backend/middleware/ratelimit.go:92-107 | upgrades, health checks and metrics pass and leave no trace; every other request is answered by, and leaves, the bucket of its pair only |
| RateLimit.InstalledQuotas | backend/cmd/server/main.go:333-344 | the installed rules in tokens per minute and burst, by a path for each and one for none |
| Admission.AdmissionBoundIff | backend/middleware/ratelimit.go:44-107 | for any rules and any set of clients: in every run of theirs and every window no client is admitted more than burst + limit * span times of its own rule if and only if their buckets refill within ten minutes and no two of them share one under quotas that differ |
| Admission.LoginBoundExceeded | backend/cmd/server/main.go:333-344 | twenty requests admitted at one instant under the key of a login whose quota is five, in the bucket a stranger made |
| Admission.AdmissionBound | backend/middleware/ratelimit.go:92-107 | for a quota that refills while idle, as all installed: from any reachable state, within any span, a key used under that quota alone is admitted at most burst + limit * span times, whatever else is sent |
| Admission.SoloIsUsedUnder | backend/middleware/ratelimit.go:131-136 | a client without ":/" in its address or path needs no such proviso |
| Middleware.Limiter.Allow | backend/middleware/ratelimit.go:107-107 | one token taken, or nothing changed |
| Middleware.RateLimiter.FindQuota | backend/middleware/ratelimit.go:56-65 | the rule loop |
| Middleware.RateLimiter.GetLimiter | backend/middleware/ratelimit.go:44-77 | refresh the visitor, or create it with a full bucket |
| Middleware.RateLimiter.Admit | backend/middleware/ratelimit.go:92-129 | one request is one step of the run |
| Middleware.RateLimiter.Cleanup | backend/middleware/ratelimit.go:79-90 | exactly the entries idle for more than ten minutes go |
| UserSessions.TicksUnobservable | backend/auth/session_manager.go:31-43 | sweeps, whole or in parts and with a stale clock, change no authentication and no revocation outcome |
| UserSessions.ListingsSeeTicks | backend/auth/session_manager.go:87-94 | a listing of all sessions does see them |
| UserSessions.TickTakes | backend/auth/session_manager.go:31-43 | a tick takes exactly those it comes to that were expired when it read the clock |
| UserSessions.AliveIffKeptAlive | backend/auth/session_manager.go:45-85 | a session answers at t exactly when it was logged in, not revoked since, and no gap in its uses up to t exceeds the lifetime |
| UserSessions.BearerMeaning | backend/auth/middleware.go:78-103 | the answer to one request with a bearer token: let through exactly before the expiry of the token, in whole seconds, and while its session is stored and not past its own; only then the session is extended, and a refusal removes at most that expired session |
| UserSessions.AnsweredIffKeptAlive | backend/auth/middleware.go:90-103 | over every run, the answer to each request past its token, and to each revocation: yes if and only if the session was logged in, not revoked since, and no gap in its uses up to then exceeds the lifetime |
| UserSessions.LoginStores | backend/auth/session_manager.go:45-60 | what a login stores, and that the next use within the lifetime is answered yes and starts it again |
| UserSessions.BearerAcceptsIff | backend/auth/middleware.go:78-103 | with both lifetimes at 24 hours, and a token signed no later than its session allows, the answer to it is yes exactly when it is before its expiry and its session was not revoked |
| UserSessions.OneClockReadSuffices | backend/auth/auth.go:35-45 | one clock read per login meets the condition of that theorem |
| UserSessions.LateSignatureIsRefused | backend/auth/auth.go:35-45 | where the condition fails, some unexpired, unrevoked token is refused |
| UserSessions.RevokedForever | backend/handlers/user_session.go:33-58 | the token of a revoked session is never answered yes again, whatever the lifetimes |
| UserSessions.CountsAddUp | backend/handlers/user_session.go:61-74 | the counts per user sum to the number of sessions |
| UserSessionManager.Manager.Create | backend/auth/session_manager.go:45-60 | a session from now to now plus the lifetime |
| UserSessionManager.Manager.Get | backend/auth/session_manager.go:62-73 | an expired session is removed and not returned |
| UserSessionManager.Manager.UpdateLastSeen | backend/auth/session_manager.go:75-81 | the lifetime starts again |
| UserSessionManager.Manager.Delete | backend/auth/session_manager.go:83-85 | that session goes |
| UserSessionManager.Manager.Cleanup | backend/auth/session_manager.go:31-43 | one tick removes exactly the expired |
| UserSessionManager.Manager.ListAll | backend/auth/session_manager.go:87-94 | every stored session once |
| UserSessionManager.Manager.Bearer | backend/auth/middleware.go:78-103 | an expired token is refused before its session is touched; otherwise look up, then extend; yes exactly when the session object is stored and not past its expiry |
| UserSessionManager.Manager.Revoke | backend/handlers/user_session.go:40-46 | look up, then delete: yes exactly for a stored session that is not past its expiry, and gone in any case |
| UserSessionManager.CountPerUser | backend/handlers/user_session.go:63-74 | the loop counts every user's sessions and describes the user as the first of them does |
| UserSessionManager.GetSessionsStats | backend/handlers/user_session.go:61-86 | exactly the users with a stored session are counted, each with how many sessions are theirs, described as one of those is; the counts add up to the total |
| Accounts.RunSound | backend/migrations/001_init_up.sql:75-82 | in every state of every run emails and (provider, identity) pairs are unique, links point at users and every text fits its column |
| Accounts.LinkStep | backend/storage/user.go:257-291 | one statement leaves a linked identity with its user, unless it deletes the user or the link, and then with nobody |
| Accounts.LinkNeverMoves | backend/storage/user.go:316-382 | over any run without such a statement it stays with the same user |
| Accounts.SignedInIsLinkedIff | backend/storage/user.go:383-413 | whoever is returned exists, and has the identity from then on if and only if the columns of the link hold it; an error changes nothing |
| Accounts.GetOrCreateIsRun | backend/storage/user.go:383-413 | signing in is a run of statements, so the run theorems cover it |
| Accounts.WhoIsSignedIn | backend/storage/user.go:383-413 | the user the identity is linked to, else the user of the email in lower case, else a new one: an ordinary, verified user with what the provider reports |
| Accounts.GetOrCreateIdempotentIff | backend/storage/user.go:383-413 | the second call gives the same answer and changes no row if and only if no account can be made, the identity can be linked, the email is known in lower case, or an account made with it is found by it |
| Accounts.SameEmailSameUserIff | backend/storage/user.go:142-176 | two unlinked identities with one email get the same user if and only if its lower-case form is some user's, or the first makes an account and that is stored in lower case or under the other identity |
| Accounts.WhoHasTheOther | backend/storage/user.go:316-327 | which identities a sign-in links: the one it stores, after the columns have cut it, and no other |
| Accounts.LongIdentityLocksOut | backend/storage/user.go:383-413 | on the empty tables, an identity of 256 characters with an email in mixed case is signed in, not linked, and refused the next time |
| Accounts.OneEmailTwoAnswers | backend/storage/user.go:383-413 | on the empty tables, Google and then GitHub report one email in mixed case: the second does not reach the user of the first |
| Accounts.FoundByOwnEmailIff | backend/storage/user.go:13-60 | a user is found by the stored email exactly when that is lower-case |
| AccountStore.UserTables.GetUserByEmail | backend/storage/user.go:142-176 | the user of the lower-cased email |
| AccountStore.UserTables.GetUserByOAuth | backend/storage/user.go:329-354 | the user an identity is linked to |
| AccountStore.UserTables.DeleteUser | backend/storage/user.go:257-291 | user and links go together, or neither |
| AccountStore.UserTables.GetOrCreateUserByOAuth | backend/storage/user.go:383-413 | the calls in sequence have exactly the specified effect |
| ApiKeys.RefusedForever | backend/auth/middleware.go:112-145 | a key that was ever drawn and is refused, for whatever reason, is refused in every later state of every run |
| ApiKeys.EveryKeyWasMadeByAPerson | backend/handlers/api_keys.go:64-132 | over every run in which requests are authenticated against the table as it then is and handled any time later: each stored key was made by a request that carried a bearer token, of the user it belongs to |
| ApiKeys.KeyRequestsChangeNothing | backend/handlers/api_keys.go:64-268 | in every such run, handling a request that came with an API key leaves the tables as they are |
| ApiKeys.KeysNeverManageKeys | backend/handlers/api_keys.go:64-268 | a request with an API key gets 403 from each of the three handlers |
| ApiKeys.CreatedKey | backend/handlers/api_keys.go:64-132 | the exact conditions for a 201, the width of the name's column among them, the stored row, an expiry of that many whole days and later than now |
| ApiKeys.LongNameFails | backend/handlers/api_keys.go:64-132 | a name of 256 characters gets 500 and changes nothing |
| ApiKeys.GoDaysExactIff | backend/handlers/api_keys.go:119-123 | the int64 product is exact precisely for -106751 to 106751 days |
| ApiKeys.OneKeyPerHash | backend/auth/middleware.go:112-145 | the row of the hash decides: a raw key is refused if that is revoked or past its expiry, and accepted as that row's owner otherwise |
| ApiKeys.AcceptedKeyIff | backend/auth/middleware.go:112-145 | accepted exactly with the prefix and a row of the hash that is not revoked and has no expiry or one not passed |
| ApiKeys.ChangedKey | backend/handlers/api_keys.go:182-268 | who may revoke or delete a key, every status with its exact cause, and what a 204 does to the rows |
| KeyLife.KeyAcceptedIff | backend/auth/middleware.go:112-145 | from any state of any run in which an unrevoked row holds the key, over any continuation: it is accepted, as its owner, if and only if no request of the owner or an administrator has revoked or deleted it, the owner is still there and its expiry has not passed |
| KeyLife.RefusedAfterRevocation | backend/handlers/api_keys.go:182-268 | once a request to revoke or delete a key was answered with 204 the raw key is refused in every state of every continuation |
| KeyLife.RoleFollowsOwner | backend/auth/middleware.go:136-145 | a key acts in the role its owner has at the moment |
| KeyLife.OneLife | backend/handlers/api_keys.go:64-224 | a run from the start in which a key is made, works for its owner, and is refused once revoked |
| ApiKeys.RunKeeps | backend/migrations/001_init_up.sql:62-73 | unique hashes, owners that exist and provenance are kept over every run, the cascade included |
| ApiKeyStore.KeyTables.GetAPIKeyByHash | backend/storage/api_keys.go:40-76 | the row of that hash, if any |
| ApiKeyStore.KeyTables.ValidateAPIKey | backend/auth/middleware.go:112-145 | the checks in order accept exactly a key with the prefix whose row is not revoked and not past its expiry |
| ApiKeyStore.KeyTables.Handle | backend/handlers/api_keys.go:64-268 | whichever handler runs: the constraints are kept, a new row only comes with a 201 and belongs to its caller, and a caller with an API key gets 403 and changes nothing |
| Upload.SavedIsReceived | backend/handlers/file.go:133-183 | for every chunking and interleaving, once the save returns the bytes saved and hashed are exactly the bytes read, in spite of the reused buffer, and the size is the final byte count |
| Upload.CompletedIsWholeIff | backend/handlers/file.go:139-171 | an upload recorded as complete has saved the whole part if and only if the last read was the end of the part; a read error after the last byte counts as the end, since nothing is missing then |
| Upload.BrokenIsCompleted | backend/handlers/file.go:152-156 | a run in which a read error after one byte of two is recorded as complete, at 100 percent |
| Upload.ReceivedIsConcat | backend/handlers/file.go:139-156 | the bytes read are the concatenation of the chunks |
| Upload.ProgressOnlyGrows | backend/handlers/file.go:146-171 | the percentage stays in 0..100, never decreases, and is 100 for good once completed |
| Upload.ProgressMeaning | backend/handlers/file.go:146-171 | until it is completed the percentage is that of the bytes reported, in whole percent of the declared length; completed exactly when the save was recorded |
| Upload.NeverStuck | backend/handlers/file.go:137-171 | unless the save fails, until it is completed some step can always be taken |
| Upload.FailedSaveStrandsIff | backend/handlers/file.go:159-164 | after a failed save and any continuation: no further continuation lets the copying goroutine finish if and only if bytes were on offer when the save failed or a read since delivered one |
| Upload.StrandedFromStart | backend/handlers/file.go:159-164 | and such a state is reached from the start |
| Upload.PercentExactIff | backend/handlers/file.go:149-149 | the product overflows int64 for no body under the size limit; the exact bound |
| Upload.RunSound | backend/handlers/file.go:133-171 | the invariant behind these |
| Upload.Pipe.Fill | backend/handlers/file.go:139-142 | a read overwrites the front of the buffer in place and leaves the rest |
| Upload.Pipe.CopyPart | backend/handlers/file.go:138-156 | the copying loop, whatever the consumer does between its steps: what it received is the deliveries in order, the progress counts them, and it ends with the pipe closed, with the whole part exactly if the last read was the end, or blocked with bytes on offer |
| Upload.Pipe.SaveStream | backend/handlers/file.go:159-160 | the loop of the save over the tee, whatever the copying goroutine does between its steps: it has stored what it hashed, a prefix of what was received, and all of it when it returns |
| Totp.WriteCounter | backend/auth/auth.go:91-96 | the shift loop writes the eight-byte big-endian form, which reads back as the counter modulo 2^64 |
| Totp.ValueOfBigEndian | backend/auth/auth.go:91-96 | encoding and decoding are inverse up to the width |
| Totp.TruncationMeaning | backend/auth/auth.go:102-106 | the indices are in bounds and the OR of shifted bytes is the big-endian value of the four bytes without its top bit (section 5.3 of RFC 4226) |
| Totp.MaskIsRemainder | backend/auth/auth.go:102-106 | an AND with n ones is the remainder modulo 2^n |
| Totp.BitByBit | backend/auth/auth.go:102-106 | the operators work bit by bit |
| Totp.OrOfParts | backend/auth/auth.go:103-106 | an OR of parts that do not overlap is their sum |
| Totp.SixDigitsMeaning | backend/auth/auth.go:108-108 | exactly six digits that parse back to the number |
| Totp.CodeMeaning | backend/auth/auth.go:84-109 | the code is that number modulo 10^6 of the HMAC of the counter |
| Totp.GenerateCode | backend/auth/auth.go:84-109 | computes it; an undecodable secret gives the empty string |
| Totp.StepsOfThirtySeconds | backend/auth/auth.go:91-91 | one code for a whole 30-second step, another message in every other step (section 4.2 of RFC 6238) |
| Totp.CounterMeaning | backend/auth/auth.go:91-91 | the counter is the number of whole steps of 30 seconds since the first instant of 1970 |
| Totp.SecondFactorIff | backend/handlers/user.go:217-222 | a login with a secret passes exactly with the code of the moment, and never when the secret cannot be decoded |

## Left out

- Floating point: `float64` and `rate.Limit` are exact reals here; rounding inside `rate.Limiter` is not modelled.
- Data races: every storage call and every `rateLimitScore` call is one atomic step. `getLimiter` and `Allow` together are one instant, although the source takes two locks.
- Upload: one upload per `upload_id`, whose progress entry stays; a `Save` that reads to the end of its stream or fails; the database row written afterwards.
- Convictions.ConvictedAddressStaysBlocked: the analysis must have found its session when it came to block it, as the source does; one swept before that leaves no entry.
- Bearer tokens in `ApiKeys`: taken as valid ones of a user; `UserSessions` says when they are.
- Protocol: cleaning and administration act on one session or entry at a time, which covers any part of a tick; settings are read as of the step that reads them. A sweep of the cache is one instant there, and one look and one deletion per entry in `CacheSweeps`.
- Totp: base32 and HMAC-SHA1 are parameters; HMAC only has its length.
- SHA-256 of API keys, JWT signatures, bcrypt, MinIO, the OAuth exchange and regular expressions: parameters or sets of strings, without properties.
- A token whose claims carry no session id: the source then looks up a random id and finds nothing.
- Database failures and lost connections: statements succeed or fail only for the reasons the schema gives. `NOW()` and the server clock are one clock.
- Strings are ASCII as far as `strings.ToLower`, `len` and the widths of columns go; invalid UTF-8, which the database refuses, does not occur.
- Timestamps are exact and in one zone, and identifiers are compared as texts, although the database rounds to microseconds and reads UUIDs in any spelling.
- The branch of `Prefilter` for a nil session without an error: no store returns that.
- A session created with no metrics map: the constructor of `SessionStore.ActiveSession` always has one, so the store's own `make` is not needed.
- Session ids shorter than eight characters, on which the detector's log lines would panic, are excluded from the detector's methods.
- Fields that nothing modelled reads: device, location and fingerprint of a session, avatar, password hash and TOTP secret of a user.
- The clock read twice in `UpdateLastSeen` and between `Get` and `UpdateLastSeen`: one instant.
- HTTP plumbing: headers, cookies, CORS answers, JSON, logging, metrics and `getRealIP`.
- Listings of API keys and users, `ListAllAPIKeys`, sites, settings, shares and avatars: one query and a copying loop each.
- `backend/reaction/reaction.go`: nothing calls it.
- The web front end.
