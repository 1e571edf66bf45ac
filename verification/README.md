# DeepRouter gateway: a verified model

DeepRouter is a gateway in front of many AI providers. This project models the parts of it that carry
invariants across calls, threads or retries, and proves those invariants in Dafny 4.11.
`dafny verify dfyconfig.toml` checks everything.

| part | modules |
|---|---|
| per-order lock, top-up callbacks, crediting | `OrderLock`, `EpayCredit`, `TopUpAmount` |
| pricing differences and models.dev import | `PriceValue`, `PriceDiff`, `PriceDiffLaws`, `PriceTables`, `ModelsDev` |
| upstream model reconciliation | `ModelNames`, `UpstreamModels`, `Reconciliation` |
| sliding-window rate limiter | `RateLimiter` |
| channel selection, relay and task retry loops, billing session | `Routing`, `Relay`, `RelayLaws`, `RelayLog`, `RelayAuto`, `RelayTheorems`, `RelayFallback`, `RelayPriority`, `RelayProvenance`, `RelayRetries`, `RelayTask`, `TaskOutcomes`, `Billing`, `RelayBilling` |
| Ogg page scanner | `OggScanner` |
| multi-key channels | `MultiKey`, `MultiKeyLaws`, `KeyTexts`, `KeyRing`, `KeyPages` |
| request-body storage | `BodyStorage`, `StorageObjects`, `StoragePool` |
| step-up verification | `StepUp` |
| Midjourney refund poller | `MidjourneyPoller` |
| shared | `Prelude`, `Lists`, `Text` |

Code that updates state is a class or a method with loops, proved against a specification function or
predicate; the theorems are about those specifications, over every input or every run. Concurrent code is
a step system over any number of threads. Databases, clocks, upstreams, random choices, cryptographic
verdicts, JSON and regular expressions are parameters, so a statement for all parameters covers every
behaviour of the outside world.

## What was found

Some things the code or its comments promise do not hold without a proviso. Each has a counterexample and
an exact condition.

- Fallback models are documented to get "a fresh retry budget" (`controller/relay_cross_model.go:23-24`).
  While set-up does not report exhaustion, a fallback model is ever tried exactly when there is one,
  `RetryTimes` is at least 1 and the group is plain (`RelayFallback.FallbackTriedExactlyWhen`); then each can
  get all `RetryTimes + 1` attempts (`RelayFallback.FallbackGetsFullBudget`). The default `RetryTimes` is 0.
  If set-up does report exhaustion, a swap inside the `auto` groups can reach a fallback model exactly when two
  groups are left, or one without cross-group retry or with `RetryTimes` at least 2
  (`RelayFallback.FallbackTriedAtAllExactlyWhen`).
  With `auto` the group index is never reset, so once the groups are used up the whole chain is consumed
  without an attempt (`RelayAuto.SpentGroupsNeverServe`).
- `(1 + chain) * (RetryTimes + 1)` bounds the upstream attempts of a plain group, and
  `chain * RetryTimes + RetryTimes + 1` is the sharp bound. With `auto` the counter starts over with every
  group. `RelayAuto.AutoMax` is the exact maximum (`RelayTheorems.AutoMaxIsMax`), and with n groups left the
  bound for plain groups holds exactly when `(n - 1) * RetryTimes <= chain`, or, with cross-group retry,
  `(n - 1) * (RetryTimes + 1) <= 2 * chain`, apart from no retries or no group
  (`RelayTheorems.AutoKeepsPlainBoundExactlyWhen`).
- A model swap while an `auto` group is being left makes the next selection ask for priority -1, which the
  channel cache uses as an index. Some world gets there exactly when cross-group retry is on, there is a
  chain, `RetryTimes` is at least 1 and another group follows (`RelayPriority.NegativePriorityExactlyWhen`).
- With a negative `RetryTimes` a request ends with no attempt, no error and no refund, so what was held stays
  taken (`RelayBilling.PaidRightExactlyWhen`), and a task request crashes. Otherwise both loops end served or
  failed (`RelayTheorems.ServedOrFailed`, `RelayTask.SettlesXorFails`).
- `Settle` does not look at `refunded`: it charges the right amount exactly when nothing was refunded before
  (`Billing.SettleChargesExactlyWhen`). The loops never settle after a refund.
- A reservation that the fund accepts and the token refuses is rolled back, and that rollback can fail. A
  subscription then stays charged for good (`Billing.LostRollbackStays`), a wallet until a refund of something
  held (`Billing.FailedRequestRestoresExactlyWhen`). Over every run the fund has paid the bill exactly when no rollback was lost, or a wallet was refunded, and no refund was
  lost (`Billing.FundPaysExactlyWhen`); the token exactly when the deciding settlement or refund did not lose its
  token write (`Billing.TokenPaysExactlyWhen`).
- An order can be successful without a credit: exactly when its quota write failed or was refused because
  the amount is negative (`EpayCredit.CreditedExactlyWhen`).
- Deleting keys stores the rest joined by newlines. They read back exactly when no key spans lines and the
  first and last are not empty, or the text happens to parse as that array
  (`KeyTexts.ReadsBackExactlyWhen`). A key of a JSON array that spans lines breaks this, and then the status
  of one key lands on another (`KeyRing.SpanningKeyShiftsStatus`, `KeyRing.DeleteDeletesExactlyWhen`,
  `KeyRing.StepRefinesExactlyWhen`).
- `delete_disabled_keys` on a channel whose keys are all auto-disabled deletes nothing and enables
  everything, while it reports the deletion (`KeyRing.SweepDeletesExactlyWhen`).
  Deleted and remaining keys add up exactly when some key survives and as many line breaks are cut at the ends
  of the text as there are inside keys (`KeyRing.SweepCountsExactlyWhen`).
- `MultiKeySize` is the number of keys exactly when the key text is not an empty JSON array
  (`KeyTexts.CountExactlyWhen`). Replacing keys leaves times and reasons past the end exactly when a key past
  the new count had some (`KeyRing.ReplaceFitsExactlyWhen`) and lets a new key inherit the status of the old
  one with its index (`KeyRing.ReplaceCarriesOver`). Appending to a text that starts with `[` but is not JSON
  drops the stored keys (`KeyTexts.AppendReadsKeysExactlyWhen`, `KeyRing.UnreadableAppendForgets`).
- The relay's status change hits key 0 exactly when the key in use is gone or is key 0
  (`KeyRing.StatusLandsExactlyWhen`).
- The two body storages differ on an empty read at the end, and only there
  (`BodyStorage.BackendHiddenExactlyWhen`).
- Reconciliation converges exactly when no added name holds a comma and no ignored name loses the entry
  that ignores it (`Reconciliation.ConvergesExactlyWhen`); both happen
  (`Reconciliation.CommaNameComesBack`, `Reconciliation.ExposedOccurs`).
- The rate limiter agrees with the full request log exactly when no duration exceeds the expiration by more
  than one second, or the cleaner is off (`RateLimiter.RefinesExactlyWhenCleanerHarmless`). A maximum of zero
  lets one request through per window; a negative one panics on every new key.
- A pricing difference is hidden when its only values are null or the literal `same`
  (`PriceDiffLaws.ListedExactlyWhen`).
- Two pollers can refund a task twice exactly when a reply is a failure by one criterion and not by the
  other (`MidjourneyPoller.SafeExactlyWhen`). With one poller, a response that lists a task several times
  refunds again exactly for a failure that differs from the one before or is not at 100%
  (`MidjourneyPoller.RefundsAgainExactlyWhen`), and a response is harmless exactly when it holds at most one
  such failure and leaves the task finished (`MidjourneyPoller.HarmlessExactlyWhen`).
- In token display mode the credit is short by less than one unit for every request exactly when the
  fraction of the unit is zero or one over a whole number
  (`TopUpAmount.ShortByLessThanUnitExactlyWhen`), and always by less than one unit plus one
  (`TopUpAmount.TokenCreditBounds`).
- A streamed body keeps disk usage within the maximum, whatever is stored already, exactly when it is no
  longer than declared (`StoragePool.KeepsWithinMaxExactlyWhen`).

## Model

| member | source | states |
|---|---|---|
| `OrderLock.StepKeepsInv` | controller/topup.go:276-305 | each atomic step of LockOrder and UnlockOrder, by any thread, keeps: one owner of createLock, the map entry of an order is the mutex of all its registered threads, refCount is their number, holders are in their section |
| `OrderLock.RunsKeepInv` | controller/topup.go:276-305 | the same invariant after every interleaving |
| `OrderLock.SafetyOfEveryRun` | controller/topup.go:265-305 | in every reachable state at most one thread is inside an order's section, the unguarded Load in UnlockOrder finds the mutex this thread holds, and no map entry outlives its users |
| `OrderLock.SomeoneCanMove` | controller/topup.go:276-305 | from the invariant: some thread is enabled unless all are done |
| `OrderLock.NoDeadlock` | controller/topup.go:276-305 | every reachable state is finished or has an enabled thread |
| `OrderLock.StepsUseUpWork` | controller/topup.go:276-305 | every step taken brings the system strictly closer to the end |
| `OrderLock.EveryRunCanFinish` | controller/topup.go:291-305 | every state can be driven to the end, where the map is empty |
| `EpayCredit.StepKeepsSafe` | controller/topup.go:370-406 | one step of a callback, an administrator completion or a new order keeps: credits match successful orders, no order twice, what a section has read is still true |
| `EpayCredit.RunsKeepSafe` | controller/topup.go:370-406 | the same for every interleaving of any number of duplicated callbacks |
| `EpayCredit.StepKeepsBalance` | model/topup.go:335-382 | users hold what they held at the start plus their recorded credits, after every step |
| `EpayCredit.EveryRunCreditsOnce` | controller/topup.go:370-406 | from every database and in every run no order is credited twice, each credit is the integer part of amount times unit of an order now successful, callbacks credit Epay orders only, and quotas are conserved |
| `EpayCredit.DecidedIsFinal` | controller/topup.go:370-406 | an order that is not pending never changes again, and a closed one is never credited |
| `EpayCredit.PaidOrderCreditedExactlyOnce` | controller/topup.go:370-406 | without store failures a finished callback for a pending Epay order means exactly one credit, amount times unit without the fraction, to the right user, if and only if that is not negative |
| `EpayCredit.CreditsAreExact` | model/topup.go:335-382 | every credit of every run is money times unit for a Stripe order and amount times unit for any other, without the fraction, to the order's user; positive if given by an administrator, for an Epay order if by a callback |
| `EpayCredit.AdminCompletesExactlyOnce` | model/topup.go:335-382 | without store failures a finished administrator section on a pending order of any provider means exactly one positive credit of that product, if and only if the product is at least one |
| `EpayCredit.RunsAgree` | controller/topup.go:370-406 | over every run with any store failures the database bears out which steps completed the order, lost its credit or failed |
| `EpayCredit.CreditedExactlyWhen` | controller/topup.go:370-406 | in every run, with any store failures: a pending order of any provider is credited exactly once, rightly, if and only if it was completed and no quota write failed or was refused; it is successful without a credit if and only if one did |
| `EpayCredit.EveryoneCanFinish` | controller/topup.go:276-406 | from every reachable state every callback and administrator section can be driven to its end without a store failure |
| `EpayCredit.PendingOrderCanBePaid` | controller/topup.go:370-406 | after any run without store failures a pending Epay order worth at least nothing can still be paid out, exactly once and rightly |
| `EpayCredit.NewOrderCanBePaid` | controller/topup.go:239-262 | a newly requested order can be paid out, amount times unit to the user who asked |
| `EpayCredit.CompletionRecords` | controller/topup.go:382-392 | a completed order is the pending one, now successful, with the payment type that the callback was told |
| `TopUpAmount.StoredIs` | controller/topup.go:239-244 | an order stores the dollars asked for, or the whole dollars that the tokens asked for are worth |
| `TopUpAmount.TokenCreditBounds` | controller/topup.go:239-244 | in token display mode the credit is at most the requested tokens, short by less than unit + 1, and by less than unit when the unit is whole |
| `TopUpAmount.TokenCreditFractionalUnit` | controller/topup.go:395-397 | a fractional unit and a request whose credit is short by a whole unit |
| `TopUpAmount.ShortByLessThanUnitExactlyWhen` | controller/topup.go:239-244 | every request is short by less than one unit if and only if the fraction of the unit is zero or one over a whole number |
| `TopUpAmount.OtherFractionFails` | controller/topup.go:395-397 | for any other fraction, a request that is short by a unit or more |
| `RateLimiter.InMemoryRateLimiter.Init` | common/rate-limit.go:14-26 | only the first call sets the expiration and starts a cleaner, if it is positive |
| `RateLimiter.InMemoryRateLimiter.ClearExpiredItems` | common/rate-limit.go:28-43 | removes exactly the keys whose newest timestamp is older than the expiration |
| `RateLimiter.InMemoryRateLimiter.Request` | common/rate-limit.go:45-70 | accepted, refused, or panicked exactly for a new key with a negative maximum, and the new store |
| `RateLimiter.SameAnswer` | common/rate-limit.go:45-70 | if the bounded queue agrees with the full log, the queue's answer is: fewer than the maximum accepted in the window |
| `RateLimiter.RunsAgree` | common/rate-limit.go:28-70 | for every run with cleaner passes at arbitrary moments the answers are those of the full log |
| `RateLimiter.RefinesExactlyWhenCleanerHarmless` | common/rate-limit.go:28-70 | the limiter answers as the full log on all runs, for any maxima, if and only if the cleaner is off or every duration of a key with a maximum of at least zero is at most the expiration plus one |
| `RateLimiter.SweptTooSoon` | common/rate-limit.go:28-43 | a longer duration: a sweep forgets accepted requests that still count |
| `RateLimiter.BurstDiverges` | common/rate-limit.go:28-70 | the run that shows it, for every maximum that is not negative |
| `RateLimiter.NoWindowOverflows` | common/rate-limit.go:45-70 | no window of the configured length holds more accepted requests than the maximum |
| `PriceDiff.ReportCell` | controller/ratio_sync.go:605-624 | what one channel reports for a model and field, and whether it differs |
| `PriceDiff.BuildItem` | controller/ratio_sync.go:595-642 | whether the cell is a candidate and the item with all channels, the last of a name counting |
| `PriceDiff.BuildRow` | controller/ratio_sync.go:594-654 | the candidates of a model over the ten fields |
| `PriceDiff.CollectModels` | controller/ratio_sync.go:542-556 | exactly the models that some table mentions |
| `PriceDiff.CollectDifferences` | controller/ratio_sync.go:593-654 | exactly the candidate cells, and no empty model |
| `PriceDiff.MarkChannels` | controller/ratio_sync.go:656-665 | exactly the channels with a value that is neither null nor "same" in some item |
| `PriceDiff.PruneItem` | controller/ratio_sync.go:668-688 | drops unmarked channels and tells whether anything but "same" is left |
| `PriceDiff.PruneDifferences` | controller/ratio_sync.go:667-693 | prunes every item and removes empty items and models |
| `PriceDiff.BuildDifferences` | controller/ratio_sync.go:536-696 | the result for any input: which cells are listed, what they hold, no empty model |
| `PriceDiffLaws.VocalExactlyWhen` | controller/ratio_sync.go:656-674 | a channel survives the pruning if and only if it openly disagrees about some cell |
| `PriceDiffLaws.ListedExactlyWhen` | controller/ratio_sync.go:536-696 | with distinct channel names a cell is listed if and only if some channel disagrees and some channel shows it |
| `PriceDiffLaws.ListsDisputedCells` | controller/ratio_sync.go:536-696 | if no channel supplies null or "same", a cell is listed if and only if some channel's value is not nearly the local one |
| `PriceDiffLaws.ItemsShowSameChannels` | controller/ratio_sync.go:667-688 | every listed item shows exactly the channels that disagree somewhere, with their own reports |
| `PriceDiffLaws.ConfidenceMatches` | controller/ratio_sync.go:558-591 | a listed item rates exactly the channels it shows, each by its own two ratios |
| `PriceDiffLaws.SyncSettles` | controller/ratio_sync.go:536-696 | taking over all values reported for a channel and comparing with that channel again gives the empty result |
| `PriceDiffLaws.PlaceholderHidesDispute` | controller/ratio_sync.go:656-688 | a literal "same" or a null hides a disputed cell |
| `PriceTables.DisagreesMeans` | controller/ratio_sync.go:48-62 | a channel disagrees about a cell if and only if it stores a value apart from the stored local one: as numbers by 1e-9 or more, otherwise as values |
| `PriceTables.ReportedMeans` | controller/ratio_sync.go:605-624 | what is shown for a channel, in terms of the stored values |
| `PriceTables.ListsValuesApart` | controller/ratio_sync.go:536-696 | with distinct channels that store neither null nor "same", a cell is listed if and only if some channel stores a value apart from the local one |
| `PriceTables.ListsExactly` | controller/ratio_sync.go:536-696 | for any stored values: exactly which cells are listed |
| `PriceTables.ItemsOnTables` | controller/ratio_sync.go:593-688 | a listed item holds the stored local value and, for exactly the channels that are openly apart somewhere, what they store |
| `PriceTables.ConfidentMeans` | controller/ratio_sync.go:558-591 | a channel is distrusted if and only if it stores 37.5 and 1 for the two ratios, to within 1e-9 |
| `ModelsDev.SortedKeys` | controller/ratio_sync.go:915-919 | the keys in strictly ascending order |
| `ModelsDev.TieBreakNeverReplaces` | controller/ratio_sync.go:881-893 | over sorted provider names the provider-name tie-break never replaces |
| `ModelsDev.PickIsCheapest` | controller/ratio_sync.go:881-893 | the fold picks a non-zero price if there is one, less than 1e-9 above the cheapest, although the comparison is not transitive |
| `ModelsDev.AbsorbProvider` | controller/ratio_sync.go:922-944 | one provider's models update exactly their own candidates |
| `ModelsDev.SelectCandidates` | controller/ratio_sync.go:915-944 | the candidate of every model is the pick among its offers in provider order |
| `ModelsDev.SelectionIsFair` | controller/ratio_sync.go:921-944 | the selected candidate is one of the offers and meets the price promise |
| `ModelsDev.ConvertCandidate` | controller/ratio_sync.go:954-972 | the ratios written for a candidate, and nothing else changed |
| `ModelsDev.ConvertModelsDevToRatioData` | controller/ratio_sync.go:906-985 | errors exactly for an empty catalog and for one in which no provider prices a model; otherwise the ratios are exactly those of the cost fields of a cheapest provider |
| `ModelsDev.FairIsPriced` | controller/ratio_sync.go:845-985 | on the cost fields: a model has ratios if and only if some provider prices it, and they are within 0.0000005 of input/2, output/input and cache read/input of one provider that no charging provider undercuts by 1e-9 |
| `ModelsDev.RatioRoundTrip` | controller/ratio_sync.go:698-700 | cost to ratio and back to USD per million tokens is within 1e-6 |
| `ModelNames.MergeModelNames` | controller/channel_upstream_update.go:104-118 | the loop computes: normalised base, then the new normalised names in order |
| `ModelNames.NormalizeIn` | controller/channel_upstream_update.go:97-102 | membership in a normalised list |
| `ModelNames.NormalizeIsNormal` | controller/channel_upstream_update.go:97-102 | normalising gives trimmed, non-empty, distinct names |
| `ModelNames.NormalizeNormal` | controller/channel_upstream_update.go:97-102 | a normalised list is left alone |
| `ModelNames.NormalizeKeepsOrder` | controller/channel_upstream_update.go:97-102 | normalised names come in the order in which the trimmed names first occur |
| `ModelNames.MergedNormal` | controller/channel_upstream_update.go:104-118 | a merge is normalised and has exactly the names of both lists |
| `ModelNames.WithoutNormal` | controller/channel_upstream_update.go:120-129 | subtraction keeps order and normality |
| `ModelNames.AmongNormal` | controller/channel_upstream_update.go:131-140 | intersection keeps order and normality |
| `ModelNames.ApplySelectedShape` | controller/channel_upstream_update.go:142-147 | survivors keep their order, new names follow, no duplicates |
| `UpstreamModels.CollectPendingUpstreamModelChangesFromModels` | controller/channel_upstream_update.go:176-235 | the two loops compute the specified pending additions and removals |
| `UpstreamModels.CollectIn` | controller/channel_upstream_update.go:176-235 | exactly which names are pending: additions are upstream, uncovered and not ignored; removals are local, gone and no alias |
| `UpstreamModels.CollectNormal` | controller/channel_upstream_update.go:176-235 | both pending lists are trimmed, non-empty, distinct names, additions in upstream order and removals in local order |
| `UpstreamModels.Channel.CheckAndPersist` | controller/channel_upstream_update.go:360-407 | the new channel row, the change flags and the number of models added by auto-sync |
| `UpstreamModels.Channel.Apply` | controller/channel_upstream_update.go:780-828 | the new channel row and the applied, remaining and removed lists |
| `Reconciliation.LocalIsPlain` | model/channel.go:257-262 | stored model lists read back as normalised names without commas |
| `Reconciliation.StoredRoundTrip` | controller/channel_upstream_update.go:142-147 | joining and reading back is the identity on comma-free names |
| `Reconciliation.StoredKeeps` | controller/channel_upstream_update.go:142-147 | a comma-free name survives storing, whatever the others are |
| `Reconciliation.ApplySplitsPending` | controller/channel_upstream_update.go:793-827 | each apply splits the pending additions into added, ignored and remaining and the pending removals into removed and remaining, in order; what the settings are afterwards |
| `Reconciliation.ApplyStores` | controller/channel_upstream_update.go:793-827 | what the stored models and settings are after an apply |
| `Reconciliation.ConvergesExactlyWhen` | controller/channel_upstream_update.go:780-828 | detect, apply all, detect again finds nothing if and only if no added name has a comma and no ignored name is exposed by its entry being dropped |
| `Reconciliation.OrdinaryNamesConverge` | controller/channel_upstream_update.go:780-828 | names without commas and without a regex prefix converge |
| `Reconciliation.AddedEntryExposes` | controller/channel_upstream_update.go:793-827 | an ignore pattern that is itself an upstream name is added and leaves the ignore list, and what it hid is pending |
| `Reconciliation.ExposedOccurs` | controller/channel_upstream_update.go:793-827 | a row that does not converge for that reason |
| `Reconciliation.CommaNameComesBack` | controller/channel_upstream_update.go:142-147 | a name with a comma is pending again |
| `Reconciliation.RunsKeep` | controller/channel_upstream_update.go:360-407 | over every run of checks and applies aliases are never removed and a plainly ignored name is not proposed until added |
| `Reconciliation.IgnoringIgnores` | controller/channel_upstream_update.go:793-827 | ignoring a pending name makes it plainly ignored |
| `Reconciliation.PatternNameProposed` | controller/channel_upstream_update.go:214-220 | an ignored name with the regex prefix is a pattern and does not ignore itself |
| `Reconciliation.CheckNotes` | controller/channel_upstream_update.go:360-407 | what a check notes: nothing if too early, the time if the fetch fails, otherwise what is pending |
| `Reconciliation.AutoSyncAddsPending` | controller/channel_upstream_update.go:384-392 | auto-sync adds exactly as many models as were pending |
| `Routing.Request.AdvanceRetry` | service/channel_select.go:33-42 | adds one, or spends the pending reset |
| `Routing.Request.TryCrossModelFallback` | controller/relay_cross_model.go:37-57 | takes the next model off the chain and sets the counter to -1; nothing happens on an empty chain |
| `Routing.Request.SelectAuto` | service/channel_select.go:97-154 | the loop over the auto groups: skipped groups reset the counter and move the index, the last priority of a group prepares the next |
| `Routing.Request.SelectChannel` | service/channel_select.go:83-162 | selection for plain and auto groups |
| `Routing.Request.FetchChannel` | controller/relay.go:303-333 | first attempt on the context channel; later a selected channel, or an error |
| `Routing.AutoEnds` | service/channel_select.go:106-154 | where the auto loop stops, and what that does to counter, flag and index |
| `Relay.IterateDescends` | controller/relay.go:190-247 | every pass that continues goes down in (chain left, groups left, retries left) |
| `Relay.Pass` | controller/relay.go:190-247 | one pass of the loop body is one step of the specification |
| `Relay.RelayRequest` | controller/relay.go:170-247 | the loop terminates in the specified state; one refund if it failed with billing open |
| `RelayLaws.IterateCases` | controller/relay.go:190-247 | a pass ends without an attempt, swaps the model, or makes exactly one attempt |
| `RelayLaws.RunBudget` | controller/relay.go:190-247 | the attempts of a run are bounded by a budget of chain, groups and retries |
| `RelayLaws.AttemptsPlain` | controller/relay.go:190-247 | plain group: at most chain * RetryTimes + RetryTimes + 1 attempts |
| `RelayAuto.AttemptsAuto` | controller/relay.go:190-247 | auto group: no world makes more attempts than AutoMax, a formula in groups, chain and RetryTimes |
| `RelayAuto.AutoMaxIsReached` | service/channel_select.go:106-154 | a world that makes exactly that many, for every number of groups, chain and RetryTimes |
| `RelayAuto.SpentGroupsNeverServe` | controller/relay_cross_model.go:37-57 | once the auto groups are used up the whole chain is consumed without an attempt |
| `RelayLog.RunTracked` | controller/relay.go:190-247 | order of attempts and outcome, as an invariant over whole runs |
| `RelayTheorems.RelayOrder` | controller/relay.go:190-247 | attempts follow the model and its chain in strictly increasing (model, group, priority), gap-free priorities in a plain group; only the last can be served, and no error means it was |
| `RelayTheorems.ServedOrFailed` | controller/relay.go:170-247 | a request ends served or with an error if and only if RetryTimes is not negative |
| `RelayTheorems.SpecificChannelTriedOnce` | controller/relay.go:335-365 | a request pinned to a channel is tried once unless a channel error occurs |
| `RelayTheorems.HandleRelay` | controller/relay.go:170-247 | served without refund, or failed with exactly one refund if billing is open; nothing at all for negative RetryTimes |
| `RelayTheorems.FailedAutoSelectionIsFinal` | service/channel_select.go:106-154 | an auto selection that finds nothing is the last word of the request |
| `RelayTheorems.PlainBoundIsSharp` | controller/relay.go:190-247 | the plain bound is reached for every RetryTimes and every chain |
| `RelayTheorems.AutoMaxIsMax` | service/channel_select.go:106-154 | AutoMax is the maximum of the attempts over all worlds, for any chain |
| `RelayTheorems.AutoKeepsPlainBoundExactlyWhen` | service/channel_select.go:106-154 | in all worlds at most (1 + chain) * (RetryTimes + 1) attempts, if and only if the groups are few for the chain; any chain |
| `RelayFallback.FallbackTriedExactlyWhen` | controller/relay_cross_model.go:17-57 | a fallback model can be tried, while set-up reports no exhaustion, if and only if there is one, RetryTimes is at least 1 and the group is plain |
| `RelayFallback.FallbackGetsFullBudget` | controller/relay_cross_model.go:17-57 | any fallback model can then get RetryTimes + 1 attempts, at priorities 0, 1, 2 and so on |
| `RelayFallback.FallbackTriedAtAllExactlyWhen` | controller/relay_cross_model.go:17-57 | a fallback model can be tried in some world at all if and only if there is one, RetryTimes is at least 1, and the group is plain or its auto groups allow a swap that leaves a group to try |
| `RelayFallback.CalmAutoNeverHops` | service/channel_select.go:106-154 | with auto groups no fallback model is tried in such a world |
| `RelayFallback.NoRetriesNoHops` | controller/relay.go:190-247 | without retries the chain stays untouched and at most one attempt is made |
| `RelayPriority.TurnsNegativeExactlyWhen` | controller/relay_cross_model.go:37-57 | a pass leaves the counter negative if and only if it swaps the model while leaving an auto group |
| `RelayPriority.NegativePriorityExactlyWhen` | model/channel_cache.go:132-142 | some world selects at a negative priority if and only if cross-group retry, a chain, retries and a further group are there |
| `RelayPriority.RunStaysNonNegative` | service/channel_select.go:106-154 | otherwise no attempt of any run has a negative priority |
| `RelayProvenance.EveryAttemptIsJustified` | controller/relay.go:303-333 | every attempt is on the distributor's channel or on one that the selection of that pass found for its group, model and priority and that was set up; it reports what the upstream said |
| `RelayProvenance.ChoosesFirst` | service/channel_select.go:83-162 | a selection takes the first group from the current one on with a channel at its priority, and fails if and only if none has |
| `RelayRetries.FollowedExactlyWhen` | controller/relay.go:335-365 | in every run a failed attempt is followed by a further pass if and only if there is no affinity skip, the counter allows it, and the error is a channel error or meets every written-out condition |
| `RelayRetries.PassRecords` | controller/relay.go:190-247 | the same for one pass: it makes its attempt or none, and goes on exactly then |
| `RelayRetries.RunsEnd` | controller/relay.go:190-247 | how every run ends: with the answer to the attempt of its last pass, or with the error of body, set-up or selection; exhaustion only with the chain used up |
| `RelayProvenance.OnlyRetryableIsRetried` | controller/relay.go:335-365 | every attempt but the last failed with an error that may be retried |
| `RelayProvenance.OnlyExhaustionSwaps` | controller/relay_cross_model.go:63-68 | while channels do not run out no error changes the model or the chain |
| `RelayTask.TaskRequest.PickChannel` | controller/relay.go:530-546 | the locked channel if there is one, set up again on retries; else a selected one |
| `RelayTask.TaskRequest.Pass` | controller/relay.go:527-575 | one pass of RelayTask's loop is one step of the specification |
| `RelayTask.TaskRequest.Loop` | controller/relay.go:520-575 | RelayTask's loop terminates in the specified state |
| `RelayTask.TaskConcludes` | controller/relay.go:527-575 | at the end the last attempt was submitted and there is no error, or none was and there is one; attempts stay within what retries and groups allow |
| `RelayTask.LockedChannelServesAll` | controller/relay.go:530-537 | with a locked channel every attempt and every recorded channel is that one |
| `RelayTask.SettlesXorFails` | controller/relay.go:512-613 | a task settles or fails, never both or neither, if and only if RetryTimes is not negative |
| `RelayTask.TaskAttempts` | controller/relay.go:527-575 | no world makes more attempts than TaskMax, a formula in RetryTimes, lock, groups and cross-group retry |
| `RelayTask.TaskMaxIsMax` | controller/relay.go:527-575 | TaskMax is the maximum over all worlds |
| `RelayTask.DoggedReaches` | controller/relay.go:624-660 | the world that makes exactly that many attempts |
| `TaskOutcomes.ResubmittedExactlyWhen` | controller/relay.go:624-664 | in every run a rejected submission is followed by a further pass if and only if the written-out conditions hold |
| `TaskOutcomes.TasksEnd` | controller/relay.go:527-575 | every run ends with the quota or the error of the submission in its last pass, or with the error of that pass; billing is open if and only if a submission on record opened it |
| `TaskOutcomes.EveryTaskIsJustified` | controller/relay.go:527-575 | every submission is on the locked channel, set up again after the first pass, or on the distributor's or a found and set-up one, with a readable body |
| `TaskOutcomes.LockedFailsExactlyWhen` | controller/relay.go:530-537 | a locked channel is missing in a pass if and only if it is not the first and set-up fails |
| `TaskOutcomes.HandleTask` | controller/relay.go:496-614 | settled with the quota of the last submission, failed with its error and one refund if some submission opened billing, or crashed exactly for negative RetryTimes |
| `Billing.BillingSession.ReserveQuota` | service/billing_session.go:152-178 | raises the held amount on fund and token together; if the token refuses, the fund is given back or, where that fails, stays charged |
| `Billing.BillingSession.SettleQuota` | service/billing_session.go:41-79 | charges the difference once |
| `Billing.BillingSession.RefundQuota` | service/billing_session.go:82-123 | returns what is held once, each of the three parts if its store call succeeds |
| `Billing.OpenTakes` | service/billing_session.go:188-231 | what opening takes from fund and token: nothing from a trusted wallet, at least one from a subscription |
| `Billing.OpensTiedExactlyWhen` | service/billing_session.go:188-231 | a session starts in step with its ledger if and only if a wallet is not asked for a negative quota |
| `Billing.StepTied` | service/billing_session.go:41-269 | one call, with any outcome of every store call and rollback, keeps fund and token tied to bill and losses |
| `Billing.RunsPayTheLedger` | service/billing_session.go:41-269 | over every run of calls, late settlements included, fund and token have paid exactly the bill plus the recorded losses |
| `Billing.DecidedStays` | service/billing_session.go:41-178 | the first settlement or refund that takes effect decides, if nothing is settled after a refund |
| `Billing.LossesExactlyWhen` | service/billing_session.go:152-269 | which calls of a run leave fund or token with a loss |
| `Billing.FundPaysExactlyWhen` | service/billing_session.go:152-269 | the fund has paid the bill if and only if no refund part was lost and no rollback was lost, or a wallet was refunded |
| `Billing.TokenPaysExactlyWhen` | service/billing_session.go:55-121 | the token has paid the bill if and only if neither the deciding settlement nor the refund lost its token write |
| `Billing.SettleChargesExactlyWhen` | service/billing_session.go:41-79 | beyond earlier losses a settlement charges the actual quota if and only if nothing was refunded before |
| `Billing.FailedRequestRestoresExactlyWhen` | service/billing_session.go:82-269 | from opening, through any reservations, to a refund: fund and token are each as before if and only if what they need was returned |
| `Billing.ServedRequestCharges` | service/billing_session.go:41-269 | from opening, through any reservations, to a settlement: the fund pays the actual quota, or what is held, plus lost rollbacks; the token never pays those |
| `Billing.LostRollbackStays` | service/billing_session.go:256-269 | a subscription that stays charged after refund and after settlement |
| `RelayBilling.BilledRelay` | controller/relay.go:170-247 | relay loop and session together: served, the fund is charged; failed, the account is as before if and only if the refund is right; negative RetryTimes, what was held stays taken |
| `RelayBilling.PaidRightExactlyWhen` | controller/relay.go:170-247 | in every world and with any store outcomes: when fund and token have paid exactly what is due, by how the request ended |
| `OggScanner.PageSize` | common/audio.go:241-245 | the sum of the segment table |
| `OggScanner.ReadHeader` | common/audio.go:207-235 | capture pattern, granule position and segment count of a header |
| `OggScanner.GetOpusDuration` | common/audio.go:196-254 | terminates on any bytes and returns the largest granule position seen over 48000 |
| `OggScanner.LittleEndianRoundTrip` | common/audio.go:228-229 | little-endian fields read back |
| `OggScanner.GranuleRoundTrip` | common/audio.go:228-232 | signed 64-bit granule positions read back, -1 included |
| `OggScanner.EncodedPageSeen` | common/audio.go:219-248 | a page as laid out in section 6 of RFC 3533 is seen as such, anywhere in a stream |
| `OggScanner.ScanPages` | common/audio.go:207-249 | over laid-out pages the scanner visits exactly their headers |
| `OggScanner.SkipJunk` | common/audio.go:219-226 | bytes in which no capture pattern starts are passed one by one |
| `OggScanner.ScanFindsPages` | common/audio.go:196-254 | junk, any well-formed pages, fewer than 27 bytes: exactly the page headers are visited and the result is their maximum |
| `OggScanner.MaxGranuleIsMax` | common/audio.go:230-232 | that maximum is the least bound of 0 and all granule positions |
| `MultiKey.Channel.Save` | model/channel.go:507-553 | the stored row after Update: kept key text, new count, statuses pruned to it |
| `MultiKey.Channel.DisableAll` | controller/channel.go:1492-1537 | every enabled key becomes disabled; fails if there is none |
| `MultiKey.Channel.Reindex` | controller/channel.go:1556-1589 | keys but one with their data under new indices |
| `MultiKey.Channel.Delete` | controller/channel.go:1539-1617 | the stored row after delete_key, for any row |
| `MultiKey.Channel.SweepDisabled` | controller/channel.go:1620-1657 | keys that are not auto-disabled under new indices, and how many were |
| `MultiKey.Channel.DeleteDisabled` | controller/channel.go:1619-1686 | the stored row after delete_disabled_keys, for any row |
| `MultiKey.Channel.Dedupe` | controller/channel.go:924-944 | the trimmed, non-blank, unknown keys in order, each once |
| `MultiKey.Channel.AppendKeys` | controller/channel.go:876-948 | the stored row after an append of lines or of a parsed Vertex array |
| `MultiKey.Channel.ChangeStatus` | model/channel.go:622-649 | the automatic status change of the key in use |
| `MultiKey.Channel.Manage` | controller/channel.go:1268-1695 | every action leaves the specified row and answer |
| `MultiKeyLaws.DeletingDrops` | controller/channel.go:1556-1589 | re-indexing drops one entry; all others keep order, status, time and reason |
| `MultiKeyLaws.EnabledIsUnwritten` | controller/channel.go:1556-1657 | neither a deletion nor a sweep stores a status 1: a missing status means enabled |
| `MultiKeyLaws.SweepKeepsSurvivors` | controller/channel.go:1620-1657 | exactly the entries that are not auto-disabled survive, in order; deleted plus kept is all |
| `MultiKeyLaws.FreshIsExact` | controller/channel.go:924-944 | exactly the non-blank keys not stored yet are added, trimmed and once each |
| `MultiKeyLaws.ExtendedExactly` | controller/channel.go:924-944 | an append stores the existing keys, then once each exactly the trimmed candidates that are neither blank nor among them |
| `KeyTexts.CandidatesAre` | controller/channel.go:897-923 | an appended text is read as its lines, or for Vertex AI as one key or as the array it opens |
| `KeyTexts.ReadsBackExactlyWhen` | model/channel.go:142-164 | joined keys read back as themselves if and only if they parse to themselves as an array, or do not parse and are single lines with a non-empty first and last |
| `KeyTexts.PlainKeysStorable` | model/channel.go:142-164 | single lines read back if the first opens no array |
| `KeyTexts.KeptKeysReadBackExactlyWhen` | controller/channel.go:1590-1617 | after a deletion the stored text holds exactly the kept keys if and only if they read back |
| `KeyTexts.CountsBackExactlyWhen` | model/channel.go:142-164 | joined keys read back as equally many if and only if the line breaks inside keys equal those cut at the ends, or the parsed array has that length |
| `KeyTexts.CountExactlyWhen` | model/channel.go:510-533 | the stored count is the number of keys if and only if the text is not an empty array |
| `KeyTexts.AppendReadsKeysExactlyWhen` | controller/channel.go:882-896 | an append sees the stored keys if and only if a text that opens an array parses |
| `KeyRing.StepRefinesExactlyWhen` | controller/channel.go:1268-1695 | every action on any sound stored row, JSON arrays included, is the same action on the list of entries and leaves it sound, if and only if the text it stores reads as the right keys |
| `KeyRing.RunsRefine` | controller/channel.go:1268-1695 | the same over every run of such actions, replacements included |
| `KeyRing.SucceedsExactlyWhen` | controller/channel.go:1268-1695 | when each action succeeds, and that one which does not leaves the row alone |
| `KeyRing.ActsOnStatuses` | controller/channel.go:1383-1617 | what each action does to the statuses 1, 2 and 3 of the list of entries |
| `KeyRing.SurvivorsAre` | controller/channel.go:1620-1657 | a sweep keeps exactly the keys whose status is not 3, in order |
| `KeyRing.SurvivorsKeepData` | controller/channel.go:1620-1657 | no key of status 3 survives, a disabled key keeps its time and reason, an enabled one loses them |
| `KeyRing.DeleteDeletesExactlyWhen` | controller/channel.go:1539-1617 | a deletion leaves exactly the other keys if and only if there are any and they read back |
| `KeyRing.SweepDeletesExactlyWhen` | controller/channel.go:1619-1686 | a sweep leaves exactly the keys that are not auto-disabled if and only if there are any and they read back |
| `KeyRing.SweepCountsExactlyWhen` | controller/channel.go:1667-1672 | deleted plus remaining is the old count if and only if some key is not auto-disabled and the kept keys read back as equally many |
| `KeyRing.SpanningKeyShiftsStatus` | controller/channel.go:1539-1617 | a JSON array with a key over two lines: after a deletion the status of one key is that of another |
| `KeyRing.ReplaceFitsExactlyWhen` | model/channel.go:533-541 | after a replacement all data belongs to keys if and only if no key past the new count had a time or reason |
| `KeyRing.StaysFreshExactlyWhen` | model/channel.go:533-541 | of all actions only a replacement that drops such a key leaves data behind |
| `KeyRing.RunsFit` | controller/channel.go:1268-1695 | over every run without such a replacement the three maps only use indices of keys |
| `KeyRing.ReplaceCarriesOver` | controller/channel.go:949-951 | a replaced key hands its data to the key that takes its index |
| `KeyRing.StatusLandsExactlyWhen` | model/channel.go:622-649 | the status change lands on the key in use if and only if that is still stored; otherwise on key 0 |
| `KeyRing.UnreadableAppendForgets` | controller/channel.go:882-896 | an append to an array text that does not parse forgets every stored key |
| `KeyPages.CollectStatus` | controller/channel.go:1285-1330 | status list and counters |
| `KeyPages.FilterStatus` | controller/channel.go:1332-1342 | the filtered list |
| `KeyPages.Paginate` | controller/channel.go:1344-1365 | the shown page, clamped |
| `KeyPages.GetKeyStatus` | controller/channel.go:1269-1381 | the whole answer of a status query |
| `KeyPages.PagesConcatenate` | controller/channel.go:1344-1365 | the pages concatenate to exactly the filtered list |
| `KeyPages.PageIsFull` | controller/channel.go:1344-1365 | a shown page is the nearest one to the page asked for, is not longer than the page size and not empty unless the list is |
| `KeyPages.ShowsKey` | controller/channel.go:1285-1330 | what the list says about a key: status 1 by default, time and reason only if disabled, ten characters of it |
| `KeyPages.FilterIsExact` | controller/channel.go:1332-1342 | the filtered list holds exactly the matching keys |
| `KeyPages.FilterKeepsOrder` | controller/channel.go:1332-1342 | in index order |
| `KeyPages.FilterCounts` | controller/channel.go:1297-1305 | its length is the counter of that status |
| `BodyStorage.BackendHiddenExactlyWhen` | common/body_storage.go:47-230 | every sequence of Read, Seek, Bytes, Size and Close gives the same answers on both storages if and only if no empty read happens at the end |
| `BodyStorage.ReadAnswers` | common/body_storage.go:47-54 | a read gives EOF exactly at the end, on disk only if it asks for something, and otherwise the next bytes |
| `BodyStorage.SeekLands` | common/body_storage.go:56-63 | a seek goes to start, position or end plus the offset and reports it, or fails before the start |
| `BodyStorage.ClosedRefuses` | common/body_storage.go:47-230 | a closed storage refuses reads, seeks and bytes; an open one gives all its bytes |
| `BodyStorage.DataStays` | common/body_storage.go:47-230 | no operation changes the data; only Close closes |
| `BodyStorage.ReadsConcatenate` | common/body_storage.go:47-54 | reads of any sizes give the data from the position on, in order, without gap |
| `StorageObjects.Stats.Decrement` | common/disk_cache_config.go:115-134 | disk counters are clamped at zero, memory counters are not |
| `StorageObjects.ReleasedCounts` | common/disk_cache_config.go:108-134 | opening and releasing change exactly the two counters of their kind, on disk not below zero |
| `StorageObjects.PlacedExactlyWhen` | common/body_storage.go:241-303 | a body goes to disk if and only if it is within the limit, the disk works and its declared or real length has room; it goes nowhere if and only if it is too long or a declared one meets a failing disk |
| `StorageObjects.LimitedIsPrefix` | common/body_storage.go:262-303 | a limited reader delivers the start of the body, up to the limit |
| `StorageObjects.MemoryStorage.Read` | common/body_storage.go:47-54 | one read on the memory storage |
| `StorageObjects.MemoryStorage.Seek` | common/body_storage.go:56-63 | one seek; a negative target fails and moves nothing |
| `StorageObjects.MemoryStorage.Close` | common/body_storage.go:65-72 | closing releases the counters once |
| `StorageObjects.DiskStorage.Bytes` | common/body_storage.go:198-230 | the whole file, with the position as before |
| `StorageObjects.DiskStorage.Read` | common/body_storage.go:169-176 | one read on the disk storage |
| `StorageObjects.DiskStorage.Close` | common/body_storage.go:187-196 | closing releases the counters once |
| `StorageObjects.CreateBodyStorage` | common/body_storage.go:241-259 | holds the data from offset 0; on disk exactly if enabled, large enough, available and working |
| `StorageObjects.CreateBodyStorageFromReader` | common/body_storage.go:262-303 | too large if and only if the body exceeds the limit; otherwise the exact body at offset 0; where it is placed; counters |
| `StorageObjects.RequestContext.GetBodyStorage` | common/gin.go:36-96 | an open cached storage is rewound; every success is the original body at offset 0; each error case |
| `StorageObjects.RequestContext.Cleanup` | common/gin.go:99-106 | closes and empties the slot, releasing once |
| `StorageObjects.Attempts` | controller/relay.go:210-221 | each of any number of attempts reads the original body from its first byte |
| `StoragePool.StepBalanced` | common/disk_cache_config.go:108-134 | one create or close keeps the counters equal to the open storages |
| `StoragePool.RunsBalanced` | common/disk_cache_config.go:108-134 | in every run the counters are number and total size of the open storages |
| `StoragePool.ClampNeverFires` | common/disk_cache_config.go:115-122 | releasing an open storage never reaches the clamp |
| `StoragePool.NothingLeaks` | common/disk_cache_config.go:108-134 | all closed means all counters zero |
| `StoragePool.RunsWithinMax` | common/disk_cache_config.go:170-177 | with bodies no longer than declared disk usage never exceeds the maximum |
| `StoragePool.KeepsWithinMaxExactlyWhen` | common/body_storage.go:266-281 | an event keeps every pool of every configuration within its maximum if and only if a storable body is no longer than declared |
| `StoragePool.LongerThanDeclaredOverruns` | common/body_storage.go:266-281 | a longer body that overruns it |
| `StepUp.SessionStore.PasskeyVerifyFinish` | controller/passkey.go:485-493 | writes the marker and deletes the verification |
| `StepUp.SessionStore.ConsumePasskeyReady` | controller/secure_verification.go:157-179 | takes the marker, and accepts it if under 60 s old |
| `StepUp.SessionStore.SetSecureVerificationSession` | controller/secure_verification.go:145-155 | deletes the marker and records time and method |
| `StepUp.SessionStore.UniversalVerify` | controller/secure_verification.go:80-130 | the method dispatch |
| `StepUp.SessionStore.RequireSecureVerificationMethod` | controller/passkey.go:559-576 | accepts a current verification by that method; clears an expired one |
| `StepUp.AcceptanceHasHistory` | controller/passkey.go:559-576 | every acceptance has a verification with that method less than 300 s before, and nothing finished or verified since |
| `StepUp.PasskeyConsumesMarker` | controller/secure_verification.go:98-113 | every passkey verification consumed a marker less than 60 s old |
| `StepUp.MarkersServeOnce` | controller/secure_verification.go:157-179 | two verifications consume different markers, the second finished after the first verification |
| `StepUp.FinishRevokes` | controller/passkey.go:485-490 | nothing is accepted between a finish and the next verification |
| `StepUp.ExpiryClears` | controller/passkey.go:559-576 | asking after 300 s clears the verification if the session can be saved; asking earlier changes nothing |
| `StepUp.VerifiedExactlyWhen` | controller/secure_verification.go:80-179 | a verification succeeds if and only if the method is allowed, the session is saved, and it is two-factor or a passkey finish less than 60 s before is unused |
| `StepUp.CheckedExactlyWhen` | middleware/secure_verification.go:36-73 | with an orderly clock the middleware accepts if and only if there is a verification less than 300 s before |
| `StepUp.CheckHasHistory` | middleware/secure_verification.go:36-73 | the middleware accepts only with a verification less than 300 s before |
| `StepUp.AcceptedExactlyWhen` | controller/passkey.go:559-576 | with an orderly clock a requirement is accepted if and only if such a verification exists |
| `MidjourneyPoller.TaskRow.UpdateWithStatus` | model/midjourney.go:165-171 | compare-and-set on the old status |
| `MidjourneyPoller.HandleItem` | controller/midjourney.go:121-196 | one response item: new row, new snapshot, refund |
| `MidjourneyPoller.LateItemFails` | controller/midjourney.go:121-196 | a task over an hour old and not at 100% becomes FAILURE at 100% with a reason whatever the reply, and is refunded if and only if the write wins |
| `MidjourneyPoller.TimelyItemCarries` | controller/midjourney.go:121-196 | otherwise snapshot and row carry the reply's own status and reason, and a reported failure is refunded if and only if there is news and the write wins |
| `MidjourneyPoller.BulkFailIsFinal` | controller/midjourney.go:37-79 | a task failed in bulk while no poller works on it stays failed at 100% and is never refunded |
| `MidjourneyPoller.SoloRefundsOnce` | controller/midjourney.go:121-196 | a single poller refunds a task at most once, whatever writes fail, if after a failure its response only repeats it |
| `MidjourneyPoller.TimedIsCoherent` | controller/midjourney.go:124-129 | the one-hour rule gives replies that are failures by both criteria |
| `MidjourneyPoller.ManyRefundOnce` | controller/midjourney.go:121-196 | any number of pollers refund at most once if replies are coherent; a failed row stays failed |
| `MidjourneyPoller.SafeExactlyWhen` | controller/midjourney.go:168-195 | a reply is harmless to several pollers if and only if it is coherent |
| `MidjourneyPoller.OpenFailureRefundsTwice` | controller/midjourney.go:168-195 | a failed status without a refund leads to two refunds |
| `MidjourneyPoller.RefundsAgainExactlyWhen` | controller/midjourney.go:121-196 | after a failing item another item of the response refunds again if and only if it is a failure and differs or is not at 100% |
| `MidjourneyPoller.RoundRefundsExactly` | controller/midjourney.go:121-196 | a response refunds as often as it reports a failure that is not such a repetition |
| `MidjourneyPoller.RoundIsRun` | controller/midjourney.go:121-196 | the round is the run of its items in the machine with many pollers |
| `MidjourneyPoller.TameRefundsOnce` | controller/midjourney.go:121-196 | responses with at most one such failure that leave the task finished refund once over the whole run |
| `MidjourneyPoller.HarmlessExactlyWhen` | controller/midjourney.go:121-196 | a response is harmless in every run if and only if it is of that kind |
| `MidjourneyPoller.ListedTwice` | controller/midjourney.go:121-132 | the same failure twice: one refund at 100%, otherwise two |

## Left out

- IEEE floating point, and the 16-digit rounding of decimal division: amounts, prices and ratios are reals.
- 64-bit overflow of counters, quotas and page arithmetic: integers are unbounded, except the granule positions of Ogg pages.
- HTTP, JSON, SQL, logging, sessions and cookies as transports: only the state they update is modelled.
- Cryptography, WebAuthn, one-time codes and payment signatures: their verdicts are inputs.
- Regular expressions of the ignore list and JSON arrays of keys: parameters of the theorems.
- The other payment providers, subscriptions as products, and OAuth: they would add easy members.
- The choice of a billing source, trust checks, insufficient quota and openings that fail (`service/billing_session.go:188-231`, `282-400`): a session starts with the amount that was taken.
- Failed store calls while saving a channel row: saving succeeds in `UpstreamModels` and `MultiKey`.
- Go aliasing: the slice returned by the memory storage's `Bytes` shares memory with it, maps in a channel are shared with the cache.
- Whence values other than start, current and end, and reads of a regular file that return fewer bytes than available.
- Concurrent creation of storages between the availability check and the counter update: creations are sequential.
- Files removed by the disk cache cleaner while a storage is open, and the hit counters.
- The JSON text of a channel's model mapping and of appended Vertex keys: mappings are maps, parsed keys are inputs.
- Channel-level status and polling index of multi-key channels, and byte-wise cutting of key previews in multi-byte characters.
- Other writers of a Midjourney row than the poller and its bulk updates, replies for rows the poller did not ask about, and databases that count changed instead of matched rows.
- Violation fees, error normalisation and channel disabling after a failed attempt: the reply of an attempt is already the final error.
- Routing.Request.SelectAuto: the crash of the channel cache on a negative priority is not a state; `RelayPriority.NegativePriorityExactlyWhen` says when it is asked for one.
- RelayBilling.BilledRelay: a served attempt settles at the end of the request; quota reserved during attempts is part of what is held.
- PriceDiffLaws.ListedExactlyWhen: for distinct channel names, as the caller provides them; `PriceDiff.BuildDifferences` covers repeated names.
- StoragePool.RunsWithinMax: for bodies no longer than their declared length, as the HTTP server enforces.
- Values of type float32 and json.Number in pricing tables: numbers are reals or integers.
