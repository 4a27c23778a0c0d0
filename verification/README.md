# mt-server: verified model of the stateful core

mt-server caches weather data for a small fleet of devices, keeps its configuration in one private
directory, and swaps that configuration while it serves requests. This project models the parts of
it that hold state, and proves what they promise over whole runs: every interleaving of the
goroutines, every crash point, every clock reading.

`dafny verify dfyconfig.toml` checks everything.

## How the model is built

Each component has the data its mutex guards, a function for what every lock-held region does to that
data, and a class whose methods carry out the region step by step and are proved to do what the
function says. Runs are sequences of events over those functions; the scheduler, the clock, the
provider's answers, the disk's faults and random draws are free choices in the events.

| file | component |
|---|---|
| `RecencyList.dfy`, `Backoff.dfy` | recency order of cached locations; retry delays on 64-bit integers |
| `WeatherCache.dfy`, `WeatherRuns.dfy`, `WeatherTheorems.dfy`, `WeatherServing.dfy`, `WeatherDetached.dfy` | stale-while-revalidate cache, its interleavings and guarantees, who is served what, and the one run that breaks a natural claim |
| `StateStore.dfy`, `StateRuns.dfy`, `StateMigration.dfy` | state directory on a disk that may lose power, and the v3 to v4 migration |
| `AdminChanges.dfy`, `AdminRuns.dfy`, `AdminAcceptance.dfy`, `AdminInterleavings.dfy` | management handlers and startup: prepare, persist, activate; what they do, when they succeed, and their steps in every order |
| `RuntimeSwap.dfy` | readers-writer protocol around the active runtime |
| `GeoIpReader.dfy` | lifecycle of the hot-reloaded database reader |
| `TokenBucket.dfy`, `SlotLimiter.dfy` | per-device budgets and in-flight slots |
| `Sessions.dfy`, `SessionPurging.dfy` | management sessions, and what their purge is for |
| `AlertRanking.dfy` | alert normalization and selection |
| `Origins.dfy`, `OriginNames.dfy` | canonical origins, and which are accepted |
| `Text.dfy` | string operations |
| `Common.dfy` | shared vocabulary |

Conventions:

- Times are integers of nanoseconds; `time.Time{}` is 0. Token counts are kept in units of
  1/interval, so the float64 arithmetic of the buckets becomes exact integer arithmetic.
- A pointer to a cache entry is its position in a growing list of entry objects, so an evicted entry
  that a refresh still holds stays visible. A wait channel is the number of the refresh that made it.
- A file is its contents and whether they were synced; a directory entry is what readers see and the
  set of files a power loss could leave there. JSON is a datatype of contents: a v3 file keeps its exact
  bytes beside its decoded document.
- Digests are injective and non-empty, and `net.ParseIP` is a parameter of which one fact is used: an
  accepted text consists of hexadecimal digits, colons and dots.
- Lists of origins and the management handlers take the function that normalizes one origin as a
  parameter, of which they need only that it is idempotent; `Origins.Normalizer` is the program's.

## Where a natural claim fails

- A cache hit serves the latest success recorded on the entry object that its key names, not always
  the latest for the key: an entry evicted while its refresh runs can finish after its successor did.
  `WeatherDetached.DetachedRefreshOvertakes` gives the run; `WeatherTheorems.HitServesLatest` proves that
  the two coincide exactly when the last success for the key found its object still in the map.
- `Save` does not look at the file it replaces. From a v3 file, and wherever it fails or loses power, it
  keeps the original recoverable exactly when the backup is durable before it, or it refuses to write
  (`StateMigration.SaveIsSafeIffBackedUp`); every handler loads first, which implies a durable backup. A
  backup that is merely visible is enough only if nothing disturbs the save
  (`StateMigration.UndisturbedSaveIsSafeIffBackupVisible`). `StateMigration.SaveCanLoseOriginal` and
  `StateMigration.UnconfirmedBackupCanBeLost` give runs.
- Six handlers take turns under `changeMu`, but `setup` does not take it. Requests that fall between its
  commit and its activation can leave a runtime in force that is not the persisted one
  (`AdminInterleavings.SetupCanOverwriteSettings`), or credentials that guard the routes of a closed service
  (`AdminInterleavings.SetupCanMisrouteTokens`). `AdminInterleavings.SetupAgreesIffNotOvertaken` gives the exact condition for every run: no
  token change is in flight and the persisted settings are still the committed ones, or a whole runtime is
  about to follow. `AdminInterleavings.UndisturbedSetupAgrees` shows that password changes and refused requests are harmless.
- Activating a token change prepared on an earlier runtime routes requests to a closed service
  (`RuntimeSwap.OverlapReachesClosedService`); `RuntimeSwap.TokenActivationIsSafeIffSameRuntime` gives the
  exact condition. `changeMu` enforces it between the handlers that take it, not against `setup`.
- The reported retry delay is sufficient only if the clock has not stepped back and the capacity is at
  least one; `TokenBucket.RetryDelayIsExact` gives the least sufficient wait in general.
- The purge in `Create` can be observed: with 64 sessions of which an expired one was seen recently, it
  saves a live session from eviction (`SessionPurging.PurgeCanMatter`).
  `SessionPurging.PurgeIsUnobservableIffHarmless` compares the program over every history with a variant that
  never purges: the live sessions agree throughout exactly when every eviction of the variant hit an
  expired session or the one being replaced, or, with 64 live sessions, the one the program evicts.
- `Create` and `Validate` read the clock before they take the lock, so calls can take effect in another order
  than their readings even if the clock never steps back. A token in good standing can then be refused
  (`Sessions.EarlierReadingCanBeRefused`). For every order of readings `Sessions.ValidatesIffIntact` gives the
  exact condition, `Sessions.ValidatesOnlyIfStanding` the direction that always holds, and
  `SessionPurging.PurgeRefusesIffFoundExpired` says which refusals are due to the purge.
- Under a clock that steps back and forth, the tokens charged at readings in a window are not bounded by
  the length of the window (`TokenBucket.SteppingClockExceedsBound`). `TokenBucket.RunRateBound` and
  `SlotLimiter.RunGrantRateBound` need a clock that does not step back between the requests of the device,
  `TokenBucket.RateBound` and `SlotLimiter.GrantRateBound` a stretch of the run in which all of its readings
  lie in the window.
- The consecutive-failure counter is a machine word, so after 2^64 failures the backoff starts over;
  `WeatherTheorems.BackoffOverRuns` states the delay for every count.

## Model

| member | source | states |
|---|---|---|
| RecencyList.LruRefinesHistory | internal/modules/weather/service.go:360-381 | after any history of touches the list holds, without repetition and latest touch first, the `maximum` most recently touched locations: nothing left out was touched after anything kept |
| RecencyList.AfterTouchesIsPrefix | internal/modules/weather/service.go:360-381 | bounded move-to-front with eviction from the back equals the prefix of the unbounded recency order |
| RecencyList.TouchedKeepsNewest | internal/modules/weather/service.go:367-380 | with room for at least one location, the touched one stays; every other is kept or evicted |
| Backoff.BaseProgression | internal/modules/weather/service.go:418-427 | delays start at 5 s, double with each failure, and equal 300 s exactly from the seventh failure on |
| Backoff.JitterBounds | internal/modules/weather/service.go:410-443 | without a provider delay the retry lies in [0.8 base, 1.2 base] and at most at 300 s, for every random word and when randomness fails |
| Backoff.RetryDelayPositive | internal/modules/weather/service.go:410-429 | the delay is never zero or negative, whatever the provider asks for |
| Backoff.BackoffBase | internal/modules/weather/service.go:418-427 | the doubling loop on 64-bit integers computes min(5 s * 2^(k-1), 300 s) for every count, without overflow |
| Backoff.JitterDelay | internal/modules/weather/service.go:431-443 | the jitter arithmetic stays inside 64 bits and equals the exact value |
| WeatherCache.Service.Touch | internal/modules/weather/service.go:360-381 | the map of locations and the linked list stay in bijection; the list becomes the bounded recency list and exactly the entries of evicted locations are deleted |
| WeatherCache.Service.DropLocation | internal/modules/weather/service.go:375-379 | the deletion loop removes exactly the entries of one location |
| WeatherCache.Service.Turn | internal/modules/weather/service.go:168-213 | one turn of the loop: touch, find or create, decide, begin a refresh if due; keys keep naming objects made for them |
| WeatherCache.Service.Finish | internal/modules/weather/service.go:310-339 | a completion updates only its own object, closes the wait channel if there is one, and leaves the index alone |
| WeatherRuns.RunKeeps | internal/modules/weather/service.go:156-224 | the invariant linking entries, flights, channels, callers, the log of completions and the recency list holds in every run |
| WeatherTheorems.SingleFlight | internal/modules/weather/service.go:193-218 | per entry object, evicted or not: refreshing iff it has a wait channel iff exactly one unfinished fetch works for it; every channel is closed once when its fetch has finished and not before |
| WeatherTheorems.NoLostWakeup | internal/modules/weather/service.go:201-210 | a waiting caller can go on, or some running fetch will let it go on whatever its outcome |
| WeatherTheorems.NoCallerIsStuck | internal/modules/weather/service.go:156-224 | every caller that has not returned can go on, or is let go on by a running fetch, whatever its outcome |
| WeatherTheorems.CachedLocationsAreMostRecent | internal/modules/weather/service.go:170-175 | in every interleaving the cached locations are the most recently touched ones of the whole run, and entries exist only for them |
| WeatherTheorems.HitServesLatest | internal/modules/weather/service.go:176-192 | every hit carries the latest success on the entry object its key names, inside the window its stale flag says; it is the latest for the key iff that success found its object attached |
| WeatherServing.TurnDecides | internal/modules/weather/service.go:167-213 | in every reachable world, from the log and the flights alone: a caller is served at once, with the latest success on its object, while that is fresh or, as stale, usable; a background fetch then starts iff none runs and the last failure's delay is over; otherwise the caller waits for the running fetch, is refused during the delay, or leads |
| WeatherServing.OwnerLearnsOutcome | internal/modules/weather/service.go:211-222 | when a fetch ends its owner, and nobody else, goes on with its result or its failure |
| WeatherServing.EntryStaysIffLocationStays | internal/modules/weather/service.go:170-175 | a step keeps the entry object of a key iff it keeps the key's location |
| WeatherServing.EntryStaysWithLocation | internal/modules/weather/service.go:360-381 | over any run, a key names the same entry object for as long as its location is never dropped |
| WeatherTheorems.DeliveryServesLatest | internal/modules/weather/service.go:214-222 | a caller whose own fetch succeeded is served the latest success on that object |
| WeatherTheorems.RefusalsAreBackoffs | internal/modules/weather/service.go:193-200 | an immediate refusal means no usable value and a recorded failure, whose error it carries, with its retry time ahead |
| WeatherTheorems.FailuresKeepValue | internal/modules/weather/service.go:326-333 | over any run without a success on an entry, any number of failures leave its value and deadlines untouched |
| WeatherTheorems.WokenCallersCollapse | internal/modules/weather/service.go:201-212 | after a completion, a caller that reads its clock before the deadline set by it starts no fetch, unless its location was evicted or the entry completed again |
| WeatherTheorems.FetchesRespectBackoff | internal/modules/weather/service.go:182-212 | a turn starts a fetch iff there is no fresh value, no running refresh, and the retry time has come |
| WeatherTheorems.FetchesWaitOutFailures | internal/modules/weather/service.go:182-212 | in every run, a fetch for an object whose latest completion failed starts no earlier than that completion plus its retry delay: at least the provider's delay if it named one, else at least 0.8 times the base of the k-th failure in a row |
| WeatherTheorems.BackoffOverRuns | internal/modules/weather/service.go:326-333 | in every run the retry time after the k-th consecutive failure lies within the jitter window of the k-th base delay, k read modulo 2^64 |
| WeatherDetached.DetachedRefreshOvertakes | internal/modules/weather/service.go:310-325 | a run in which a hit serves the older of two successes for its key |
| StateRuns.WriteIsAtomic | internal/platform/state/state.go:424-462 | at every step a power loss leaves the target with something it could hold before or the whole new contents, and the other file alone; an error leaves what readers see; success leaves only the new contents if confirmed, and every earlier outcome beside them if not |
| StateRuns.DurabilityFlagIsExact | internal/platform/state/state.go:456-461 | in every run the flag is true iff the last rename of the process was followed by a successful directory sync; the store's methods make exactly these calls |
| StateRuns.ConfirmedMeansDurable | internal/platform/state/state.go:456-461 | in every run, once the process has replaced a file and the flag is true, no outcome but the visible one is possible for either file |
| StateRuns.ConfirmedSurvivesPowerLoss | internal/platform/state/state.go:456-461 | so a power loss then changes neither file |
| StateRuns.AtMostOneInitialization | internal/platform/state/state.go:285-294 | without power losses at most one initialization succeeds over any restarts; with them at most one durable one |
| StateStore.Store.Stage | internal/platform/state/state.go:428-451 | create, write, sync and close the temporary file, removing it on failure |
| StateStore.Store.AtomicWriteContents | internal/platform/state/state.go:424-462 | every disk passed through, the result and the flag are those of the write protocol |
| StateStore.Store.Commit | internal/platform/state/state.go:211-235 | migration as a compare-and-swap: backup first, durably, then the state |
| StateStore.Store.Restore | internal/platform/state/state.go:239-268 | restore only a v3 backup over a v4 state |
| StateStore.Store.SaveState | internal/platform/state/state.go:271-280 | replace an existing state file |
| StateStore.Store.Initialize | internal/platform/state/state.go:285-294 | create the state file only where there is none |
| StateMigration.MigrationIsInjective | internal/platform/state/state.go:383-399 | two documents that migrate alike are the same document |
| StateMigration.MigrationNeverLosesOriginal | internal/platform/state/state.go:181-268 | from a v3 file, in every run with crashes at any step, a power loss leaves the exact v3 bytes as the state or a v4 state with those bytes as its durable backup |
| StateMigration.RestoreGivesBackOriginal | internal/platform/state/state.go:239-268 | wherever a run left a v4 state, an undisturbed restore brings back the original file byte for byte |
| StateMigration.MigrationInstallsV4 | internal/platform/state/state.go:211-235 | an undisturbed migration succeeds durably and what is then loaded is the migrated document, stamped with the clock if it carried no time |
| StateMigration.MigrationCarriesEveryField | internal/platform/state/state.go:383-399 | an undisturbed migration leaves a v4 document with every field of the original under the same name, the alerts window 600/3600, and the original time or else the clock |
| StateMigration.MigrationReplacesOnlyWhatItLoaded | internal/platform/state/state.go:211-235 | at every step and fault a migration replaces nothing but the v3 file it was loaded from, and only once that is durably backed up |
| StateMigration.LoadReadsCurrent | internal/platform/state/state.go:173-206 | which files the two load functions accept, and how their errors differ |
| StateMigration.RestoreIsDoneIff | internal/platform/state/state.go:239-268 | a restore is done iff a readable file of version 4 is visible, the visible backup is a readable v3 file, and no step up to the rename fails |
| StateMigration.SaveIsSafeIffBackedUp | internal/platform/state/state.go:271-280 | at every step and under every fault of a save the original stays recoverable iff its backup is durable beforehand or the save refuses to write; a successful load implies such a backup |
| StateMigration.UndisturbedSaveIsSafeIffBackupVisible | internal/platform/state/state.go:271-280 | what an undisturbed save leaves is recoverable iff the visible backup is the original, durable or not |
| StateMigration.SaveCanLoseOriginal | internal/platform/state/state.go:271-280 | a save straight onto a v3 file can lose it |
| StateMigration.UnconfirmedBackupCanBeLost | internal/platform/state/state.go:211-235 | after a migration whose backup was not confirmed, a bare save loses the original at a power loss before its directory sync |
| AdminChanges.CheckCredentials | internal/app/runtime.go:427-449 | the loop with its seen-set accepts exactly 1 to 32 valid tokens with distinct identities |
| AdminChanges.FilterTokens | internal/modules/admin/admin.go:611-623 | the deletion loop keeps the other tokens in order and reports whether one was found |
| AdminChanges.FilterOrigins | internal/modules/admin/admin.go:494-507 | the deletion loop keeps the other origins in order and names the last match |
| AdminChanges.Handler.Put | internal/modules/admin/admin.go:390-424 | loads the state, refuses an untested or unpreparable candidate, saves it, and only after a successful save swaps in the prepared runtime; any failure leaves runtime and allowlist |
| AdminChanges.Handler.AddOrigin | internal/modules/admin/admin.go:437-484 | refuses a bad, repeated or seventeenth origin before writing, saves the longer list, and only then enforces it |
| AdminChanges.Handler.DeleteOrigin | internal/modules/admin/admin.go:486-540 | refuses an unknown origin, the last one behind a proxy and the one the request came from, saves the filtered list, and only then enforces it |
| AdminChanges.Handler.AddToken | internal/modules/admin/admin.go:554-596 | refuses a 33rd or invalid token, saves the longer list, and only then activates it |
| AdminChanges.Handler.RemoveToken | internal/modules/admin/admin.go:598-644 | refuses an unknown identity and the last token, saves the remaining list, and only then activates it |
| AdminChanges.Handler.SetPassword | internal/modules/admin/admin.go:646-686 | saves the new verifier; runtime and allowlist stay |
| AdminChanges.Handler.Initialize | internal/modules/admin/admin.go:206-282 | refuses where a state can already be loaded or the request is unacceptable, creates the state, and only then activates it; without interleaving |
| AdminRuns.StartupSettles | internal/app/app.go:53-77 | a server that starts, from any directory, runs on exactly what is persisted, after migration if it was v3 |
| AdminRuns.HandleSettles | internal/modules/admin/admin.go:904-915 | taken one at a time, setup included, requests keep disk and runtime in agreement, whichever write fails or lacks durability |
| AdminRuns.HandleEffect | internal/modules/admin/admin.go:390-686 | whatever the runtime and the allowlist were before, each handler changes the persisted state exactly as requested and nothing else in it, and its own part of the server with it, or neither |
| AdminRuns.SetupEffect | internal/modules/admin/admin.go:206-282 | setup persists what it was asked for, with origins in normal form and the default cache policy, only where nothing is persisted, and would activate what it persists |
| AdminAcceptance.RequestIsDoneIff | internal/modules/admin/admin.go:390-686 | a request is done iff a current state is persisted, it meets the demands of its handler, written out, and no step up to the rename fails; the reply says whether the directory sync succeeded |
| AdminAcceptance.SetupIsDoneIff | internal/modules/admin/admin.go:206-268 | setup is done iff there is no state file, the origins are acceptable and distinct, the settings and the token are valid, and the write goes through |
| AdminAcceptance.StartsIff | internal/app/app.go:53-77 | a process starts iff there is no state file, a v4 state it can run on, or a v3 state it can run on whose migration goes through; it then runs on what that file says |
| AdminInterleavings.StepsMakeHandler | internal/modules/admin/admin.go:206-297 | save and activation, or commit, enforcement and activation of setup, taken one after the other do what the whole handler does |
| AdminInterleavings.DiskAndRuntimeAgree | internal/modules/admin/admin.go:437-644 | in every interleaving of handlers and setups from every start in which no setup was overtaken: while none is between commit and end, tokens, provider settings, cache policy and allowlist in force are the persisted ones as soon as the handler in flight is done; tokens are 1 to 32 with distinct identities, origins at most 16, canonical, distinct and, behind a proxy, not empty; requests reach the current runtime |
| AdminInterleavings.DiskAndRuntimeAgreeInPractice | internal/modules/admin/admin.go:437-644 | the same, with normal forms computed by `Origins.NormalizePublicOrigin` |
| AdminInterleavings.SetupAgreesIffNotOvertaken | internal/modules/admin/admin.go:269-282 | in every interleaving at all, the end of a setup leaves disk and runtime in agreement iff what it committed is still what is persisted, or a change in flight covers it; the same for its allowlist |
| AdminInterleavings.UndisturbedSetupAgrees | internal/modules/admin/admin.go:269-282 | whatever happened before, only password changes and refused requests between its commit and its end leave setup in agreement |
| AdminInterleavings.SetupCanOverwriteSettings | internal/modules/admin/admin.go:269-282 | a run in which setup replaces the runtime of newer, persisted settings |
| AdminInterleavings.SetupCanMisrouteTokens | internal/modules/admin/admin.go:575-595 | a run in which a token change prepared before the activation of setup sends requests to a closed service |
| AdminRuns.RevokedTokenIsGone | internal/modules/admin/admin.go:611-643 | a revoked identity is in force nowhere, and no other token is lost |
| AdminRuns.AcceptedOriginIsEnforced | internal/modules/admin/admin.go:466-483 | an accepted origin is enforced in its normal form beside the earlier ones |
| AdminRuns.DeletedOriginIsGone | internal/modules/admin/admin.go:494-539 | exactly the named origin leaves the enforced allowlist |
| RuntimeSwap.RequestsNeverUseClosedService | internal/app/runtime.go:167-176 | in every disciplined interleaving no request uses a service whose close has begun or is due, and each service is closed once or is still current, pending or due |
| RuntimeSwap.EveryServiceHasOneFate | internal/app/runtime.go:51-65 | in every interleaving at all, each built service is exactly one of current, pending, awaiting its close, or closed once |
| RuntimeSwap.ShutdownClosesEverything | internal/app/runtime.go:303-317 | after shutdown with nothing pending or due, every service ever built has been closed |
| RuntimeSwap.ShutdownCanComplete | internal/app/runtime.go:303-325 | from every point of every interleaving requests can end and the manager can shut down, after which every service ever built has been closed |
| RuntimeSwap.TokenActivationIsSafeIffSameRuntime | internal/app/runtime.go:73-85 | after a token activation the next request reaches a closed or retired service iff the runtime changed since the preparation |
| RuntimeSwap.OverlapReachesClosedService | internal/app/runtime.go:286-300 | a run in which a runtime activation between prepare and activate sends a request to a closed service |
| RuntimeSwap.RuntimeManager.Swap | internal/app/runtime.go:263-273 | the write-locked part of activate and of Close |
| RuntimeSwap.RuntimeManager.SetHandler | internal/app/runtime.go:77-81 | the write-locked part of a token activation |
| GeoIpReader.LookupsReadOpenReaders | internal/providers/geoip/geoip.go:229-243 | in every interleaving no lookup reads a closed reader, no reader is closed twice, and there is at most one poller |
| GeoIpReader.NothingInstalledAfterClose | internal/providers/geoip/geoip.go:138-160 | once Close has run no reader is ever installed and no poller starts, however many reloads were past their open |
| GeoIpReader.NoReaderLeaks | internal/providers/geoip/geoip.go:182-221 | when all activities have ended, every opened reader but the installed one is closed |
| GeoIpReader.UndisturbedReload | internal/providers/geoip/geoip.go:182-221 | in every reachable open store an undisturbed reload of a file that differs in identity, size or time installs its reader; of the same file it opens nothing |
| GeoIpReader.FirstFileIsServed | internal/providers/geoip/geoip.go:182-243 | a run in which a new store loads the first file it finds and looks an address up in it |
| GeoIpReader.StartBeginsPolling | internal/providers/geoip/geoip.go:119-136 | Start leaves exactly one poller, and starts none once Close has run |
| GeoIpReader.CloseCanComplete | internal/providers/geoip/geoip.go:138-160 | from every point of every interleaving the store can be closed and every activity can end, after which every opened reader is closed |
| GeoIpReader.Store.Replace | internal/providers/geoip/geoip.go:208-217 | the write-locked end of a reload |
| GeoIpReader.Store.TakeReader | internal/providers/geoip/geoip.go:141-146 | the write-locked start of Close |
| GeoIpReader.Store.Changed | internal/providers/geoip/geoip.go:187-190 | a file counts as changed iff there is no reader or its identity, size or time differ |
| TokenBucket.ChangeLimiter.Allow | internal/platform/location/location.go:205-229 | the bucket update and decision, on one device's bucket only |
| TokenBucket.RetainOnly | internal/platform/location/location.go:232-244 | the two loops keep exactly the buckets of the given identities, unchanged |
| TokenBucket.RateBound | internal/platform/location/location.go:205-229 | in any stretch of any run in which a device is retained and all of its clock readings lie in a window of length T, in whatever order, it is charged at most capacity + T/interval tokens |
| TokenBucket.RunRateBound | internal/platform/location/location.go:205-229 | from any point of any run on, while a device is retained and the clock does not step back between its requests, those read in any window of length T are charged at most capacity + T/interval tokens |
| TokenBucket.SteppingClockExceedsBound | internal/platform/location/location.go:217-221 | a run with a backward step in which more tokens than that are charged at one reading |
| TokenBucket.BackwardStepsAddNothing | internal/platform/location/location.go:217-221 | what a bucket gains is bounded by how far the latest clock reading moved; a backward step adds nothing |
| TokenBucket.LazyIsContinuous | internal/platform/location/location.go:205-229 | with a monotone clock lazy refill decides every sequence of changes as a bucket refilled every nanosecond does |
| TokenBucket.FirstChangeIsFree | internal/platform/location/location.go:205-229 | after every run the first change of an unknown device is allowed and free, and exactly the capacity of further ones follow at once |
| TokenBucket.RetryDelayIsExact | internal/platform/location/location.go:222-225 | the same change is admitted later iff the capacity is at least one and the wait covers the reported delay plus any backward clock step |
| TokenBucket.HeaderIsSufficient | internal/modules/weather/module.go:82-84 | the header is at least 1 s, sufficient, and less than a second too long |
| SlotLimiter.LocalizeLimiter.Try | internal/platform/location/localize.go:99-127 | without interleaving: no free slot changes no budget; a poor device gives its slot back; a grant takes one slot and one token |
| SlotLimiter.LocalizeLimiter.GiveBack | internal/platform/location/localize.go:105-106 | a release frees its slot once however often it is called |
| SlotLimiter.SlotsAreConserved | internal/platform/location/localize.go:99-127 | in every interleaving occupied slots are exactly unreleased grants plus calls still deciding or giving back, never above the limit |
| SlotLimiter.RefusalsAndRepeatsAreFree | internal/platform/location/localize.go:99-127 | a slot refusal changes nothing, a budget refusal frees its slot, a second release changes nothing |
| SlotLimiter.SlotsCanBeFreed | internal/platform/location/localize.go:99-127 | from every point of every interleaving each call can be answered and released, and then all slots are free |
| SlotLimiter.GrantRateBound | internal/platform/location/localize.go:108-126 | in any stretch of any interleaving in which a device is retained and all clock readings for it lie in a window of length T, it is granted at most capacity + T/interval tokens |
| SlotLimiter.RunGrantRateBound | internal/platform/location/localize.go:108-126 | from any point of any interleaving on, while a device is retained and the clock does not step back between the decisions for it, those read in any window of length T grant it at most capacity + T/interval tokens |
| SlotLimiter.FirstCallIsGranted | internal/platform/location/localize.go:108-126 | in every interleaving a device seen for the first time is granted as soon as a slot is free |
| SlotLimiter.LazyBudgetIsContinuous | internal/platform/location/localize.go:115-123 | with a monotone clock a budget grants as one that refills every nanosecond |
| Sessions.Store.Purge | internal/platform/adminauth/session.go:100-106 | the loop removes exactly the expired sessions |
| Sessions.Store.RemoveOldest | internal/platform/adminauth/session.go:108-118 | the scan removes one session that no other was seen before |
| Sessions.Store.Create | internal/platform/adminauth/session.go:38-56 | purging, the terminating eviction loop and the insertion; at most a least recently seen live session goes |
| Sessions.Store.Validate | internal/platform/adminauth/session.go:59-75 | an accepted token is touched, a refused one removed |
| Sessions.NeverMoreThanMaximum | internal/platform/adminauth/session.go:51-54 | no run ever holds more than 64 sessions, whatever the clock readings |
| Sessions.EvictionTakesLeastRecent | internal/platform/adminauth/session.go:51-54 | a creation evicts iff 64 others are live, and then a token in good standing presented no later than any other |
| Sessions.ValidatesIffStanding | internal/platform/adminauth/session.go:59-122 | with readings in lock order, a token validates iff it was created, not since deleted, cleared or evicted, is under 12 h old and was never left for an hour; it returns the CSRF value of its creation |
| Sessions.ValidatesIffIntact | internal/platform/adminauth/session.go:38-122 | for every history and every order of readings, a token validates iff it was created, not since deleted, cleared or evicted, was not found expired by any purge or presentation since, and is not expired now |
| Sessions.ValidatesOnlyIfStanding | internal/platform/adminauth/session.go:59-75 | for every history and every order of readings, a token that validates is in good standing and returns the CSRF value of its creation |
| Sessions.EarlierReadingCanBeRefused | internal/platform/adminauth/session.go:47-50 | a history in which a token in good standing is refused, because a creation with a later reading took the lock first |
| Sessions.ExtraPurgesAreUnobservable | internal/platform/adminauth/session.go:100-106 | with readings in lock order, purges beside those that Create makes, anywhere in a history, change no answer and no later eviction |
| SessionPurging.CreationAgreesIffHarmless | internal/platform/adminauth/session.go:50-54 | one creation with and without its purge leaves the same live sessions iff the eviction without it was harmless |
| SessionPurging.HarmIsObserved | internal/platform/adminauth/session.go:50-54 | a session lost to a harmful eviction would have validated |
| SessionPurging.PurgeIsUnobservableIffHarmless | internal/platform/adminauth/session.go:50-54 | with readings in lock order, over every history the program and a variant that never purges have the same live sessions throughout iff every eviction of the variant was harmless, and then give the same answers |
| SessionPurging.PurgeRefusesIffFoundExpired | internal/platform/adminauth/session.go:50 | for every order of readings, with the same evictions, the purges of Create change an answer iff the token is in good standing at the reading and at each presentation but a creation in between found it expired |
| SessionPurging.PurgeCanMatter | internal/platform/adminauth/session.go:50-54 | a history in which the purge drops an expired session and so saves one in good standing |
| AlertRanking.NormalizedValuesAreKnown | internal/providers/qweather/parse.go:334-378 | normalized values are in the CAP vocabularies or unknown, and only unknown severities rank lowest |
| AlertRanking.KnownValuesAreKept | internal/providers/qweather/parse.go:334-378 | words of the vocabularies are kept in any letter case, a severity that is none falls back on the level's colour, and the rest is unknown |
| AlertRanking.WarningIsAcceptedIff | internal/providers/qweather/parse.go:271-290 | a warning is accepted iff its identity is there and its times parse, identity first; its times and normalized words are carried over |
| AlertRanking.TextFieldsAreBounded | internal/providers/qweather/parse.go:253-270 | every text field is a bounded prefix of the trimmed input, and the flag is set iff one was cut |
| AlertRanking.ParseItems | internal/providers/qweather/parse.go:248-291 | the parsing loop yields what collecting the parsed warnings in order yields |
| AlertRanking.FirstBadWarningDecides | internal/providers/qweather/parse.go:271-283 | the response fails iff some warning is bad, with the first one's error; otherwise one alert per warning in order |
| AlertRanking.PrecedesIsStrictOrder | internal/providers/qweather/parse.go:292-303 | the comparator is a strict weak order whose ties are exactly equal status, severity, time and ID |
| AlertRanking.StableSortedSorts | internal/providers/qweather/parse.go:292-303 | the stable sort gives an ordered permutation that keeps ties in place |
| AlertRanking.StableSortIsUnique | internal/providers/qweather/parse.go:292-303 | ordered and tie-preserving determines the result, whatever algorithm the library uses |
| AlertRanking.SelectAlerts | internal/providers/qweather/parse.go:292-310 | sort, then cut to 32 with the truncation flag |
| AlertRanking.SelectionIsTopAlerts | internal/providers/qweather/parse.go:292-310 | kept and dropped alerts make up the input, no dropped one precedes a kept one, and the flag is set iff more than 32 came in |
| AlertRanking.MostUrgentAreShown | internal/providers/qweather/parse.go:292-310 | for every parsed response at most 32 alerts are shown, none dropped is more urgent than one shown, and none shown than one before it: active, unknown, cancelled; then extreme to unknown; then later issued; then lexically smaller ID |
| AlertRanking.SelectionIgnoresArrivalOrder | internal/providers/qweather/parse.go:292-310 | alerts with distinct sort keys are selected alike in any arrival order |
| Text.TrimSplits | internal/providers/qweather/parse.go:325-332 | trimming removes exactly the surrounding white space |
| Origins.ParseRender | internal/platform/adminauth/transport.go:170-205 | reading back a printed origin, http or https, gives the host and port it was printed from |
| Origins.NormalizeIsIdempotent | internal/platform/adminauth/transport.go:147-162 | an accepted origin is its own normal form |
| Origins.NormalizerIsIdempotent | internal/platform/adminauth/transport.go:147-162 | what the list lemmas need of the function applied to each origin holds of the one the program applies |
| OriginNames.AcceptedIffAcceptable | internal/platform/adminauth/transport.go:147-205 | exactly the values that read as an https origin with a public host and a port in range are accepted, in their one normal form |
| OriginNames.PrintedIsFixedIffPublic | internal/platform/adminauth/transport.go:188-205 | a printed https origin is its own normal form iff its host is in lower case and a dotted list of valid labels, or an IP address, of at most 253 characters |
| OriginNames.SpellingsAreAccepted | internal/platform/adminauth/transport.go:147-205 | every capitalization of scheme and host, leading zeros in the port, surrounding white space and an empty fragment are accepted |
| Origins.SameFormIffSameHostAndPort | internal/platform/adminauth/transport.go:170-205 | two accepted values have one normal form iff their hosts agree in lower case and their effective ports are equal |
| Origins.HostOfRendered | internal/platform/adminauth/transport.go:152-160 | the host name that is validated is the one that was printed |
| Origins.NormalizePublicOrigins | internal/platform/adminauth/transport.go:126-144 | the loop with its seen-set computes the list of normal forms or the first error |
| Origins.FixedIffCanonical | internal/platform/adminauth/transport.go:126-144 | normalizing gives canonical lists and leaves exactly those unchanged, so the saved list is the activated one |
| Origins.ListIsAcceptedIff | internal/platform/adminauth/transport.go:126-144 | a list is accepted iff it has at most 16 entries, all acceptable, with distinct normal forms, and becomes the list of these |
| Origins.TransportPolicy.ReplacePublicOrigins | internal/platform/adminauth/transport.go:79-85 | the enforced allowlist becomes the set of the given origins |

## Left out

- HTTP routing, JSON encoding, cookies, CSRF checks, logging, access logs and web assets: plumbing without deep state.
- The hit, request and error counters and the diagnostics snapshot of the weather service: sums that nothing else depends on.
- Closing of a weather service (cancelling refreshes, waiting for them, closing the provider once): `RuntimeSwap` takes the call as one event.
- The password, connection-test and login limits, and the session checks in front of the management handlers.
- Clearing of sessions by a password change or an origin deletion, and pruning of limiter buckets on activation: `Sessions` and `TokenBucket` have these steps, the handlers here do not call them.
- A `changePassword` that a restart interrupts between its save and its session clear.
- I/O errors while reading an existing state file; a failed read changes nothing.
- Percent-encoded hosts and stray brackets in `url.Parse`: refused here, although `url.Parse` decodes some, such as `https://%E2%84%AA.example` to a host whose lower case is `k.example`. No normal form has a percent sign.
- IEEE rounding in the token buckets; overflow of int64 nanoseconds in times of day.
- Session tokens and CSRF values as random draws: they are inputs, and a repeated token replaces its session.
- The fixed-window limiter, health reporting, device authentication, location inference, the QWeather client and the other dataset parsers.
- AdminChanges.Handler.Initialize: one call without interleaving; its three steps among those of the other handlers are in `AdminInterleavings.dfy`.
- SlotLimiter.LocalizeLimiter.Try: one call without interleaving; interleaved calls are covered by the lemmas of the same file.
- TokenBucket.LazyIsContinuous: only for a clock that never steps back; other clocks are covered by TokenBucket.BackwardStepsAddNothing and TokenBucket.RateBound.
