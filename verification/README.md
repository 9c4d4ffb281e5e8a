# HermesToken: verified models of the stateful core

HermesToken is an API gateway. This project models the parts of it whose correctness depends on history,
interleaving or re-indexing, and proves what they promise for every input, every interleaving and every run.

| module | subject |
|---|---|
| `Basics` | an option type and bytes |
| `ModelNames`, `UpstreamModels` | model name lists; reconciling a channel's models with its upstream, and whole histories of checks and partial applications |
| `ChannelPaging` | visiting all enabled channels page by page while the table changes |
| `OrderLock`, `EpayTopUp` | the reference-counted order lock as a state machine over threads, and order completion on top of it |
| `RateLimiter` | the in-memory sliding-window limiter with queue dropping and key eviction |
| `OggOpus` | finding the duration of an Ogg stream |
| `PriceDifferences`, `ModelsDev` | the price difference table and the choice of one price per model |
| `RetryBudget`, `RelayRetry`, `TaskRelay` | the retry loops with billing, the terminal-error log and channel groups |
| `MultiKey` | a channel's key list with three position-keyed maps |
| `BodyStorage`, `BodyCache` | request bodies in memory and on disk, retries, and usage counters |
| `VideoTask` | charging, re-pricing and refunding a polled task |
| `SecureVerification` | step-up verification in a session |

Objects that the Go code updates in place are classes; loops are loops with invariants; each is proved against a
function of the old state, and the theorems are about those functions. Network, clock, database and settings are
parameters, so a theorem holds for all their answers.

## What the code does not promise

Some natural properties are false of the code. For each there is a lemma that says exactly when it holds.

- After applying a selection the stored pending lists equal a fresh detection only for coherent selections
  (`AppliedIsSyncedIff`). A name with a comma comes back after it was applied, because the list is stored joined by
  commas (`RemainingIsFreshDetection`, `CommaNameComesBack`, `CommaNameExample`), and a name that starts with `regex:`
  is stored as a pattern when it is ignored (`PatternNamesIff`, `PatternNameExample`). Auto-sync has the comma problem
  too (`CheckedIsSyncedIff`).
- The rate limiter is exact for a key only if its limit is at least 1 and its window is at most one second longer than
  the eviction delay (`ExactIff`).
- For an `auto` token the retry counter is reset when the token moves to its next group, so `RetryTimes + 1` limits
  neither the turns nor the upstream calls (`RetryTimesIsTheLimitIff`); `LimitsExact` gives the true limits.
- A request or task can fail after upstream errors without a terminal error log, when the body cannot be read again or,
  for a task, on a local error (`EveryFailureLoggedIff` in both modules, `UnloggedRun`, `SecondTurn`). Then, and after a
  success that followed a failure, the last "will retry" verdict is left standing (`Accounted` in both modules).
- The comments in relay/relay_task.go say that a task bound to the channel of an earlier task is retried on that channel
  with another key. It is submitted exactly once (`LockedTakesOneTurn`).
- A top-up whose save reports an error but took effect, or whose credit fails, stays stored as successful and is never
  credited by a later callback (`LostForever`).
- When all keys of a channel have status 3, `delete_disabled_keys` reports a deletion but deletes none and enables all
  (`BulkIsOneByOne`, `BulkOnAllDisabledReenables`).
- A zero-length read at the end of a body is answered differently in memory and on disk (`SameAnswers`).
- In the price difference table a null or the literal text `same` can hide a channel or an entry
  (`TableExactIff`, `SentinelHidden`).
- If storing a video task fails after a supplementary charge, the next poll charges again
  (`StepSettled`, `UnstoredSuccessChargesAgain`).

## Model

| member | source | states |
|---|---|---|
| `ModelNames.SpacesWrittenOut` | controller/channel_upstream_update.go:97-102 | the characters that trimming removes, by code point |
| `ModelNames.NormalizeFixpoint` | controller/channel_upstream_update.go:97-102 | normalising changes nothing iff the names are trimmed, non-empty and distinct |
| `ModelNames.MergeModelNames` | controller/channel_upstream_update.go:104-118 | the merge loop gives the normal form of the two lists concatenated |
| `ModelNames.JoinParse` | model/channel.go:288-312 | a normalised list is read back from its stored text iff no name contains a comma |
| `UpstreamModels.DetectIsFilter` | controller/channel_upstream_update.go:176-235 | detection is the upstream list filtered by "missing and not ignored" and the local list filtered by "gone upstream", in order, both normalised |
| `UpstreamModels.DetectionWrittenOut` | controller/channel_upstream_update.go:176-235 | a name is listed for adding iff it is upstream, not local, no redirect target and not ignored, exactly or by a pattern; for removal iff it is local, not upstream and no redirect source |
| `UpstreamModels.RedirectsSafe` | controller/channel_upstream_update.go:176-235 | over every history of checks and applications under one redirect map no redirect source is ever listed for removal or removed, and no redirect target is ever listed for adding |
| `UpstreamModels.SyncedRespects` | controller/channel_upstream_update.go:783-831 | lists that equal a fresh detection respect the redirects |
| `UpstreamModels.NextModelsShape` | controller/channel_upstream_update.go:142-147 | applying keeps the unselected local names in order and appends the selected additions |
| `UpstreamModels.AppliedIsSyncedIff` | controller/channel_upstream_update.go:783-831 | after any selection the stored remaining lists equal, as sequences, a fresh detection, iff an open upstream name becomes local or ignored exactly when it was decided about, and no fragment of an added name is unknown upstream |
| `UpstreamModels.ReadBack` | model/channel.go:288-312 | the list read back after applying is the kept names and then the comma-separated fragments of the additions |
| `UpstreamModels.RemainingIsFreshDetection` | controller/channel_upstream_update.go:783-831 | with no pattern-like name selected the two agree iff no selected addition contains a comma |
| `UpstreamModels.PatternNamesIff` | controller/channel_upstream_update.go:176-235 | with comma-free additions they agree iff the old and the selected ignore entries cover what was ignored or selected and nothing else |
| `UpstreamModels.PatternNameExample` | controller/channel_upstream_update.go:176-235 | a pattern-like name that does not match itself is reported again after being ignored |
| `UpstreamModels.CommaNameComesBack` | controller/channel_upstream_update.go:783-831 | some selected name with a comma is detected again and is not among the stored remaining ones |
| `UpstreamModels.CommaNameExample` | controller/channel_upstream_update.go:783-831 | on an empty channel, adding the one pending name is undone if it holds a comma |
| `UpstreamModels.ApplyAllConverges` | controller/channel_upstream_update.go:783-831 | selecting everything empties both stored lists, and the next detection is empty iff that selection is coherent |
| `UpstreamModels.PlainEverythingCoherent` | controller/channel_upstream_update.go:857-912 | it is when no pending name contains a comma or looks like a pattern |
| `UpstreamModels.CheckedIsSyncedIff` | controller/channel_upstream_update.go:360-407 | a completed check leaves exact lists, whatever was stored before, iff no name it adds by itself contains a comma |
| `UpstreamModels.CheckedModels` | controller/channel_upstream_update.go:360-407 | a completed check leaves the models alone unless auto-sync is allowed and on; then what is read back is the old models followed by the pending ones, for names without a comma (the general case is `ReadBack`) |
| `UpstreamModels.ThrottleHolds` | controller/channel_upstream_update.go:360-407 | a check that ran stamps its time; until its interval has passed a check that is not forced changes nothing, and from then on it runs |
| `UpstreamModels.HistorySyncedIff` | controller/channel_upstream_update.go:360-407 | over every history of checks, each with its own fetched list, and applications, failed fetches and saves included, the lists stay exact for the last fetched list iff every operation was safe when it came |
| `UpstreamModels.HistoryStaysSynced` | controller/channel_upstream_update.go:783-831 | for that it is enough that no name really added or ignored contains a comma or looks like a pattern |
| `UpstreamModels.Channel.Save` | controller/channel_upstream_update.go:349-358 | writes settings, and models only when they changed; a failed save leaves the row |
| `UpstreamModels.Channel.Apply` | controller/channel_upstream_update.go:783-831 | the stored row becomes `Applied` of the old one, and the reply lists what was added, removed and remains |
| `UpstreamModels.Channel.CheckAndPersist` | controller/channel_upstream_update.go:360-407 | the stored row becomes `Checked` of the old one; the count is the number of new names auto-sync added |
| `ChannelPaging.FindEnabledAfter` | controller/channel_upstream_update.go:837-848 | the page is the smallest eligible ids, ascending, at most a batch of them |
| `ChannelPaging.VisitEnabled` | controller/channel_upstream_update.go:541-608 | with other requests changing the table between pages, no channel is visited twice, every channel enabled throughout is visited, up to the last visited one if a query failed, and the loop ends |
| `ChannelPaging.VisitFixed` | controller/channel_upstream_update.go:857-912 | on an unchanged table the enabled channels are visited ascending, each once, all of them unless a query failed |
| `OrderLock.StepInv` | controller/topup.go:285-325 | every step of every thread keeps the lock invariant |
| `OrderLock.LockGuarantees` | controller/topup.go:285-325 | in every interleaving: one holder per order, unlock finds the mutex that was locked, an entry exists iff its count is positive, the table is empty when nobody uses the lock |
| `OrderLock.SomeStepEnabled` | controller/topup.go:296-325 | no deadlock: while a call is pending some pending call can move |
| `OrderLock.CallsComplete` | controller/topup.go:296-325 | pending calls take a bounded number of steps, and a schedule that cannot go on has finished them all |
| `EpayTopUp.CreditedOnce` | controller/topup.go:431-487 | in every interleaving with failing saves and credits, an order is credited at most once, only while stored as successful, to its user, for a callback of its gateway with its method and its money to the cent, by amount times QuotaPerUnit without the fraction, all stated by bounds |
| `EpayTopUp.PaymentGoesThrough` | controller/topup.go:431-487 | a thread inside the lock with a pending order and a matching callback stores success and then credits, when its database accesses succeed |
| `EpayTopUp.MatchesPayable` | controller/topup.go:431-487 | an order, callback and quota that meet the written-out conditions are accepted, at that quota |
| `EpayTopUp.CreditAfterSuccess` | controller/topup.go:431-487 | the credit step is only taken when the row already says success and has no credit |
| `EpayTopUp.LostForever` | controller/topup.go:431-487 | at any point of any run an order is stored as successful with no credit and none coming iff an earlier step was a save that took effect but reported an error or a credit that did not take effect |
| `EpayTopUp.NextKeeps` | controller/topup.go:364-371 | lock, read, write, credit and insert steps all keep the joint invariant of lock and orders |
| `RateLimiter.InMemoryRateLimiter.constructor` | common/rate-limit.go:15-22 | an empty limiter that never evicts |
| `RateLimiter.InMemoryRateLimiter.Init` | common/rate-limit.go:15-22 | sets the eviction delay and nothing else |
| `RateLimiter.InMemoryRateLimiter.DeleteExpired` | common/rate-limit.go:24-40 | when due, drops exactly the keys whose last acceptance is older than the delay |
| `RateLimiter.InMemoryRateLimiter.Request` | common/rate-limit.go:43-72 | new state and verdict are those of the limiter function |
| `RateLimiter.ExactIff` | common/rate-limit.go:43-72 | on all runs with calls for any keys, a key's verdicts equal those of its full acceptance log, iff its limit is at least 1 and its window is at most one second longer than the eviction delay |
| `RateLimiter.KeyExactIff` | common/rate-limit.go:24-40 | that condition in nanoseconds |
| `RateLimiter.InexactRun` | common/rate-limit.go:24-40 | a run that goes wrong for every key outside that condition |
| `RateLimiter.RateHolds` | common/rate-limit.go:43-72 | any max+1 consecutive acceptances of such a key span at least its duration, whatever the other keys allow |
| `RateLimiter.IdleKeysGo` | common/rate-limit.go:24-40 | after every run each stored key was accepted less than two eviction delays ago, or at most one |
| `RateLimiter.SweepStep` | common/rate-limit.go:24-32 | a call sweeps iff none did before or the delay in whole seconds has passed since |
| `OggOpus.GetOpusDuration` | common/audio.go:196-254 | ends on every byte string and returns the walk's largest granule position over 48000 |
| `OggOpus.ReadPage` | common/audio.go:203-253 | one turn does one step of the walk, and unread bytes shrink even through the seek back |
| `OggOpus.Granule64` | common/audio.go:203-253 | decoding the eight little-endian bytes of a signed 64-bit position gives it back |
| `OggOpus.SumAdds` | common/audio.go:203-253 | the size of a page body is the additive sum of its segment lengths |
| `OggOpus.WalkStream` | common/audio.go:203-253 | on pages with clean garbage before, between and after them the walk finds the largest granule position |
| `OggOpus.WalkCutStream` | common/audio.go:203-253 | in a stream cut off anywhere in its last page, that page counts iff its header is complete |
| `OggOpus.DurationOfStream` | common/audio.go:196-254 | the duration is not negative, bounds every page, and is zero or some page's own |
| `PriceDifferences.BuildDifferences` | controller/ratio_sync.go:543-703 | the nested loops, first pass and pruning, compute the table function, whatever the map order |
| `PriceDifferences.BuildItem` | controller/ratio_sync.go:543-703 | the loop over channels gives all cells, confidence flags and the inclusion test |
| `PriceDifferences.Prune` | controller/ratio_sync.go:543-703 | pruning leaves the marked columns and the entries and models that still show something |
| `PriceDifferences.TableCharacterised` | controller/ratio_sync.go:543-703 | for distinct channel names: an entry is there iff some channel differs and some shown channel has more than "same" to say; columns are exactly the shown channels; every cell is as specified, and untrusted iff it has the placeholder prices |
| `PriceDifferences.TableExactIff` | controller/ratio_sync.go:543-703 | there is an entry wherever some channel differs, with a column for every channel that differs somewhere, iff every differing channel is shown and no difference has only "same" cells of shown channels |
| `PriceDifferences.DifferencesExact` | controller/ratio_sync.go:543-703 | that is so when no channel offers a null or the text "same" |
| `PriceDifferences.CellIsSpec` | controller/ratio_sync.go:47-61 | the computed cell is the differing value, "same" or nil as specified, and marks its channel iff it is a real difference |
| `PriceDifferences.DiffersWrittenOut` | controller/ratio_sync.go:47-61 | a channel differs iff it offers a value that is more than a billionth from the local one as a number, or unequal to it otherwise, or a non-null value where there is no local one |
| `PriceDifferences.TrustedIff` | controller/ratio_sync.go:565-600 | a column is untrusted iff the channel offers the model at a model ratio of 37.5 and a completion ratio of 1, each up to a billionth |
| `PriceDifferences.FieldsWrittenOut` | controller/ratio_sync.go:63-75 | the ten fields that are compared |
| `PriceDifferences.SentinelHidden` | controller/ratio_sync.go:543-703 | a channel differing by null or by the text "same" is not shown |
| `ModelsDev.SelectInOrder` | controller/ratio_sync.go:960-989 | the loops compute, for every model, the fold over its candidates in provider order |
| `ModelsDev.ChosenWins` | controller/ratio_sync.go:918-937 | the fold's survivor is paid if any is, of best priority, strictly cheaper than earlier equals and within one epsilon of later ones |
| `ModelsDev.SelectCandidates` | controller/ratio_sync.go:960-989 | a model is priced iff a provider has a usable price; output and cache prices are that provider's own; a Claude model gets the price of Anthropic if Anthropic has one of its class; otherwise the price taken beats every rival by cost up to one epsilon, never more |
| `ModelsDev.PriorityWrittenOut` | controller/ratio_sync.go:905-916 | a provider comes first iff the model name, trimmed and in lower case, starts with "claude-" or contains "/claude-" and the provider or its name is "anthropic" |
| `ModelsDev.BuildWrittenOut` | controller/ratio_sync.go:869-903 | when a cost entry makes a candidate, and which of its prices the candidate takes over |
| `ModelsDev.LessIff` | controller/ratio_sync.go:918-937 | the tie-break order of provider names: a proper prefix, or smaller at the first difference |
| `RetryBudget.RetrySpends` | service/channel_select.go:25-49 | every retry lowers the budget, also when the counter is reset for the next group |
| `RetryBudget.PickSpends` | service/channel_select.go:120-208 | no selection leaves more than one turn and one call fewer |
| `RetryBudget.GreedySpends` | service/channel_select.go:120-208 | staying in the group to the last moment leaves exactly one fewer of each |
| `RetryBudget.PickWrittenOut` | service/channel_select.go:120-208 | what a selection does to counter and group, for every case of preset channel, group passed over, group exhausted and cross-group retry |
| `RetryBudget.CountsInGroup` | service/channel_select.go:25-49 | turns that stay in their group only count, until the counter has reached its limit |
| `RelayRetry.Relay` | controller/relay.go:166-289 | billing, loop and deferred refund give the result of the loop function |
| `RelayRetry.TakeTurn` | controller/relay.go:199-289 | one pass of the loop body is one `Turn` |
| `RelayRetry.ProcessChannelError` | controller/relay.go:555-564 | warns while a retry follows, otherwise passes the gate |
| `RelayRetry.RelayGuarantees` | controller/relay.go:166-289 | success never passes the gate, an upstream failure passes it once with its own error, exhaustion once with the last one; which verdict is left standing; the counter never ends the loop; the refund happens once iff quota was pre-consumed and the request failed |
| `RelayRetry.RunWrittenOut` | controller/relay.go:199-289 | on every run each turn but the last picked a channel, read the body and failed upstream with an error worth a retry, with counter left; the last turn's own data say how the run ended |
| `RelayRetry.VerdictWrittenOut` | controller/relay.go:470-508 | an error is retried iff no flag, pinned channel or spent counter forbids it and it is a channel error, or a channel is selected, or affinity allows it and the status is retryable; with the reason given |
| `RelayRetry.PinnedTakesOneTurn` | controller/relay.go:470-508 | a request pinned to a channel takes exactly one turn |
| `RelayRetry.RetryLaws` | controller/relay.go:470-508 | an error marked "skip retry", or on a pinned channel, ends the run; a channel error, or one with a channel selected, is followed by a turn exactly while RetryTimes allows |
| `RelayRetry.InfoLeft` | controller/relay.go:199-289 | the retry info left by a failed run: counter and remainder after an upstream error, zero remaining after running out of channels; without groups the counter is the number of earlier turns |
| `RelayRetry.LimitsExact` | controller/relay.go:199-289 | `MaxTurns` and `MaxCalls` bound turns and upstream calls of all runs that start with the channel in the context, and one run reaches both |
| `RelayRetry.RetryTimesIsTheLimitIff` | controller/relay.go:199-289 | RetryTimes+1 bounds the turns iff RetryTimes is 0, no group is left, or one group without cross-group retry; it bounds the upstream calls iff RetryTimes is 0 or at most one group is left |
| `RelayRetry.EveryFailureLoggedIff` | controller/relay.go:199-289 | whatever the channels do, no request with upstream errors fails without a terminal log, iff a body readable on the first turn is readable on every further turn that can reach an upstream |
| `RelayRetry.UnloggedRun` | controller/relay.go:218-230 | one such run |
| `TaskRelay.RelayTask` | controller/relay.go:726-825 | the submit loop gives the loop function; settlement, insertion and refund follow from its end |
| `TaskRelay.TakeTurn` | controller/relay.go:726-800 | one pass of the loop body is one `Turn` |
| `TaskRelay.RunTask` | controller/relay.go:707-825 | exactly one of "settled once", at the quota of the last submission, and "ended with an error"; refunded once iff it failed after a submission had created billing; the counter never ends the loop; "no retry" stands after every final submit error and exhaustion with an upstream error; bounded turns |
| `TaskRelay.RunWrittenOut` | controller/relay.go:726-800 | on every run each turn but the last failed upstream with an error worth a retry, with counter left; the last turn's own data say how the run ended, and billing exists iff a submission created it |
| `TaskRelay.VerdictWrittenOut` | controller/relay.go:845-878 | which task errors are retried |
| `TaskRelay.RetryLaws` | controller/relay.go:845-878 | a local error, or one on a pinned channel, ends the run; an upstream error with a channel selected is followed by a turn exactly while RetryTimes allows |
| `TaskRelay.LockedTakesOneTurn` | controller/relay.go:845-878 | a task bound to the channel of an earlier one takes exactly one turn, and setting that channel up again never happens |
| `TaskRelay.LimitsExact` | controller/relay.go:726-800 | the same exact limits of turns and submissions for a task that is not bound |
| `TaskRelay.EveryFailureLoggedIff` | controller/relay.go:726-800 | whatever the channels do, no task with upstream errors fails without a terminal log, iff it is bound, or its first body is unreadable, or every further turn that can submit has a readable body and no local error |
| `TaskRelay.SecondTurn` | controller/relay.go:764-795 | a first retryable error stays unlogged when the body cannot be read again or the second submission fails locally, and its verdict stands when the second submission succeeds |
| `TaskRelay.RunAccounts` | controller/relay.go:726-878 | from any retrying state the loop ends accounted for, within the budget |
| `MultiKey.MultiKeyChannel.constructor` | controller/channel.go:1407-1446 | holds the channel read from the database |
| `MultiKey.MultiKeyChannel.Manage` | controller/channel.go:1561-1873 | the stored channel becomes `Step` of the old one; success is reported iff the action was allowed and both row and abilities were written |
| `MultiKey.DisableEnabled` | controller/channel.go:1670-1715 | turns exactly the enabled positions to status 2, and counts none iff there are none |
| `MultiKey.RemoveKey` | controller/channel.go:1735-1772 | the rebuilding loop of `delete_key` |
| `MultiKey.RemoveDisabled` | controller/channel.go:1797-1838 | the rebuilding loop of `delete_disabled_keys`, with the number of keys deleted |
| `MultiKey.ActionRefines` | controller/channel.go:1561-1864 | every action acts on one record per key as specified and keeps size and indices right; a failed save changes nothing |
| `MultiKey.RunRefines` | controller/channel.go:1561-1864 | over every action sequence each key keeps its own status, time and reason through re-indexing, and the list is never emptied |
| `MultiKey.DeleteDisabledRefines` | model/channel.go:530-577 | saving an emptied key list keeps the old keys, all enabled |
| `MultiKey.BulkIsOneByOne` | controller/channel.go:1797-1864 | bulk removal shows the same as deleting status-3 keys one by one from the top, iff some key survives or there is none |
| `MultiKey.BulkOnAllDisabledReenables` | controller/channel.go:1797-1864 | when all keys have status 3 they all stay, enabled |
| `BodyStorage.MemoryStorage.constructor` | common/body_storage.go:37-45 | the whole data at offset 0, counted once |
| `BodyStorage.MemoryStorage.Do` | common/body_storage.go:47-81 | read, seek, bytes and close are those of the abstract machine; the first close alone is counted |
| `BodyStorage.DiskStorage.constructor` | common/body_storage.go:100-130 | the whole data at offset 0, counted once |
| `BodyStorage.DiskStorage.Do` | common/body_storage.go:169-230 | same states as the abstract machine, same answers but for a zero-length read at the end |
| `BodyStorage.DiskStorage.ReadWhole` | common/body_storage.go:198-230 | returns the whole file and leaves the position where it was |
| `BodyStorage.Stats.DecrementDiskFiles` | common/disk_cache_config.go:115-122 | both counters go down and stop at zero |
| `BodyStorage.SameAnswers` | common/body_storage.go:47-230 | over every operation sequence both storages answer alike iff no zero-length read is made at the end |
| `BodyStorage.SeekWrittenOut` | common/body_storage.go:56-63 | seeking from the start, the position and the end; before the start or from elsewhere it fails and nothing moves |
| `BodyStorage.ClosedAndWhole` | common/body_storage.go:47-81 | a closed storage refuses all but another close; the bytes of an open one are all its contents |
| `BodyStorage.ReadsDeliver` | common/body_storage.go:47-55 | non-empty reads deliver the contents in order without gaps, all of them once the end is reported |
| `BodyStorage.RetryReadsWholeBody` | controller/relay.go:220-230 | after any history rewinding works iff nothing closed the storage, and then reading to the end gives the whole body in both storages |
| `BodyCache.CreateBodyStorage` | common/body_storage.go:241-260 | the storage is placed as `Placed` says, holds all the data at offset 0 and is counted once |
| `BodyCache.CreateBodyStorageFromReader` | common/body_storage.go:262-303 | without I/O failure a reader is accepted iff it holds at most maxBytes, and all of it is stored; a refusal counts nothing |
| `BodyCache.PlacedWrittenOut` | common/body_storage.go:241-303 | when a body goes to disk, to memory or is refused, in terms of the settings in megabytes |
| `BodyCache.NoDiskWhenOff` | common/disk_cache_config.go:170-177 | in no run does anything go to disk while disk caching is off |
| `BodyCache.Context.GetRequestBody` | common/gin.go:36-83 | a storage once made is rewound and handed out again, uncounted; otherwise the whole request at offset 0, counted once, iff within the limit; when it fails, and that a refusal counts nothing |
| `BodyCache.Context.CleanupBodyStorage` | common/gin.go:99-106 | closes the storage, counts it once and forgets it |
| `BodyCache.CountersExact` | common/disk_cache_config.go:109-134 | in every run the four counters are the number and total size of open storages |
| `BodyCache.Process.Create` | common/body_storage.go:241-260 | the object takes the step `Next` of those runs and keeps its counters exact |
| `BodyCache.Process.CreateFromReader` | common/body_storage.go:262-303 | likewise, whether a storage is made or not |
| `BodyCache.Process.Use` | common/body_storage.go:47-230 | likewise for any operation on any storage; only the close of an open one changes the counters |
| `BodyCache.DiskUsageBounded` | common/disk_cache_config.go:170-177 | disk usage stays within the maximum when no body is longer than declared |
| `BodyCache.OverrunIff` | common/body_storage.go:262-281 | one creation exceeds the maximum iff a body stored on its declared length is longer than what was left |
| `VideoTask.Ledger.UpdateVideoSingleTask` | controller/task_video.go:122-276 | stored task and net debit become `Step` of the old ones; an unknown status changes nothing |
| `VideoTask.Ledger.Reprice` | controller/task_video.go:143-240 | quota and debit move together, and only if the charge or return succeeded |
| `VideoTask.PriceWrittenOut` | controller/task_video.go:143-240 | when a success is re-priced, and the price by its bounds: tokens times model ratio times group ratio without the fraction, the ratio of the user's own group first |
| `VideoTask.StatusWrittenOut` | controller/task_video.go:120-267 | the stored status for every reported one; an unknown one, or a failed update, stores nothing |
| `VideoTask.MoneyWrittenOut` | controller/task_video.go:127-276 | what a poll moves, for every status and every outcome of its calls: a failed charge or return moves nothing, and a failure gives the recorded quota back only out of another status |
| `VideoTask.Ledger.IncreaseUserQuota` | model/user.go:1165-1180 | refuses negative amounts |
| `VideoTask.StepSettled` | controller/task_video.go:127-276 | one poll keeps "debit is the recorded quota, or 0 after failure" iff it is safe |
| `VideoTask.RunSettled` | controller/task_video.go:127-276 | the books balance after every poll of a run iff every poll was safe when it came |
| `VideoTask.Conservation` | controller/task_video.go:127-276 | with failure final and storing and refunding successful, the books always balance, whatever single charges and returns do |
| `VideoTask.RepeatedSuccess` | controller/task_video.go:143-240 | once a success is stored and paid, the same success again changes nothing, whichever calls succeed then |
| `VideoTask.UnstoredSuccessChargesAgain` | controller/task_video.go:264-267 | a success that was not stored moves the same amount again |
| `SecureVerification.Session.PasskeyVerifyFinish` | controller/passkey.go:495-503 | sets the marker and withdraws any verification |
| `SecureVerification.Session.SetSecureVerificationSession` | controller/secure_verification.go:145-155 | records method and time and uses up the marker |
| `SecureVerification.Session.ConsumePasskeyReady` | controller/secure_verification.go:157-179 | the marker is gone afterwards and counted only if under 60 seconds old |
| `SecureVerification.Session.UniversalVerify` | controller/secure_verification.go:85-130 | a right code, a fresh marker, or no change but a used-up marker |
| `SecureVerification.Session.RequireSecureVerificationMethod` | controller/passkey.go:569-586 | verdict and new session are those of `Step` |
| `SecureVerification.PasskeyIff` | controller/secure_verification.go:157-179 | a passkey verification succeeds iff a finish under 60 seconds old had no further finish, passkey attempt or 2FA verification after it |
| `SecureVerification.PasskeyNotShared` | controller/secure_verification.go:98-126 | behind two successful passkey verifications stand two finishes, each under 60 seconds old when used, the later one after the earlier verification |
| `SecureVerification.RequireIff` | controller/passkey.go:569-586 | an action passes iff a verification with its method under 300 seconds old had no finish and no other verification after it |
| `SecureVerification.PasskeyActionBacked` | controller/passkey.go:495-586 | behind an action that wants a passkey stands a finish of this session, with a bound on its age |

## Left out

- HTTP handlers, JSON binding, context plumbing, logging, audit texts and translations.
- Network clients and libraries: Stripe, Creem, WebAuthn, the Epay client, the regular expression engine (a parameter) and `strings.EqualFold` (a parameter).
- Several processes sharing one database: the order lock lives in one process.
- Other handlers that change an order's status while a callback is being completed.
- float64 rounding: prices, ratios and amounts are reals; no claim that decimal and float roundings agree.
- 64-bit overflow of counters, sizes and positions, and the shift of configured megabytes.
- `strings.ToLower` outside ASCII letters in the provider priority.
- The conversion of the chosen candidates into ratios, with its rounding.
- Channel selection itself: `service/channel_select.go` is modelled as to the counter and the group index; which channel is found is arbitrary.
- `get_key_status` with its pages and counts: it changes nothing.
- Key storage formats: a key list is a sequence of non-empty keys; JSON arrays and blank lines are not modelled.
- Requests for one channel or one session that overlap; each is taken as one step.
- Cleaning up old cache files, resetting and re-syncing the disk counters: `CountersExact` is about runs without them.
- Short reads, failing reads and lengths changed from outside: a body file is a regular file nobody else writes; seeks beyond the file system's limit.
- Cache hit counters, task progress texts and start and finish times.
- `CleanupBodyStorage` followed by another read of the same request: the request body is consumed by then.
- The expiry check in `middleware/secure_verification.go`.
- Sessions that fail to save, and markers of another type than a number.
- TaskRelay.RelayTask: requires a RetryTimes of at least 0, because with a negative value the source dereferences a missing result.
- RetryBudget.RetrySpends: the priority index and the set of channels already tried are not part of the counter, so the runs that reach the limits suppose enough channels in every group.
- RateLimiter.InMemoryRateLimiter.Request: takes a limit of at least 0, because with a negative one the source panics when it makes the queue.
- PriceDifferences.TableCharacterised: asks for distinct channel names; with equal names the later channel overwrites the earlier one's cells.
- VideoTask.Conservation: asks for ratios that are not negative, since `IncreaseUserQuota` refuses to refund a negative quota; `RunSettled` has no such condition.
- BodyCache.DiskUsageBounded: asks for bodies no longer than declared; `OverrunIff` says what happens otherwise.
