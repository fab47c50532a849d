# A verified model of the gateway's core algorithms

The gateway relays model requests for users who pay in quota units. This project models the parts of it
that carry state or arithmetic and proves what they keep. Tables are maps, a GORM transaction or a single
UPDATE statement is one atomic step, each call reads one clock value `now`, and random numbers, decoded JSON
and cryptographic primitives are arbitrary parameters. Code that updates state is a class or a loop, proved equal
to a specification function; the laws are lemmas about those functions.

| file | subject |
|---|---|
| `Sums.dfy`, `Text.dfy`, `Bytes.dfy`, `Options.dfy` | sums over tables, the string and byte primitives of Go the rest needs |
| `Ledger.dfy` | quota tables, every billing statement, and the class that runs them in program order |
| `Settlement.dfy`, `Overdraft.dfy`, `WalletCheck.dfy` | the same statements as a concurrent protocol: conservation, how far each balance can be overdrawn, and when a balance check is enough |
| `Relay.dfy` | hold, retry loop and deferred refund; the sequential program as one schedule of the protocol |
| `Pricing.dfy` | exact arithmetic of a request's cost and of the hold |
| `Abilities.dfy`, `Selector.dfy`, `Affinity.dfy`, `Routing.dfy` | the ability index, channel selection, affinity, and the whole way from a request to its channels |
| `MultiKey.dfy` | the multi-key store of a channel, refining a sequence of key records |
| `Windows.dfy`, `ClockReadings.dfy`, `RateLimit.dfy`, `GroupLimit.dfy` | fixed-window counters, with one clock reading per call and with several, and the two limiters built on them |
| `CxBlock.dfy`, `CxRatchet.dfy`, `CxSession.dfy` | the encrypted channel: block layout, key ratchet, whole conversations, replay |
| `Streaming.dfy` | the event splitter and the OpenAI-to-Claude stream translation |
| `Subscriptions.dfy`, `GroupReturn.dfy` | activation, expiry and cancellation, the group they save and restore, endings in any order and sweeps that act on an old reading |

Results a reader of the source may not expect:

- wallet_only and wallet_first check a wallet in one statement and charge it in a later one; subscription_first, the
  default, charges it without a check when no subscription pays. `WalletCheck.ChecksSufficeIff` says when that is safe:
  every interleaving of a user's deductions in flight keeps the balance nonnegative if and only if it covers, together,
  the checks already passed, the deductions that fit it one by one and will ask, and all that fall back on it unasked.
  `Overdraft.WalletFloor` bounds the damage in every run, and `Overdraft.WalletFloorAttained` reaches the bound.
- The same gap lets a subscription exceed its quota; `Overdraft.PoolCeiling` gives the bound for n overlapping
  settlements and `Overdraft.PoolCeilingAttained` a run that reaches it for every n.
- A successful upstream answer without reported usage is refunded in full (`Relay.ScriptResolvesOnce`).
- The hold is priced with the requested model, the token's group and max_tokens on both sides; the settlement with the
  mapped model, the channel's group, any price per call and whatever the upstream reports. One request decides: the hold
  covers every text request within given bounds if and only if it covers the dearest one
  (`Pricing.HoldCoversIffWorst`, thresholds in `Pricing.HoldCoversIff`), and no hold covers prompts of every length
  (`Pricing.NoHoldCoversEveryPrompt`). Only for the same ratios on both sides, per-token billing, a prompt within its
  estimate, no penalty and cached tokens no dearer than others is the condition that no tool is used
  (`Pricing.HoldCoversIffNoTools`).
- In per-token billing without a penalty, splitting a request never costs more under any ratios if and only if no part's
  details exceed its prompt while another has text to spare (`Pricing.SplitNeverDearerIff`). A price per call is charged
  in full for every part.
- With one clock reading per call, a limiter of `limit` calls per window grants up to 2·limit - 1 in a closed stretch one
  window long (`Windows.BurstBound`, `Windows.BurstBoundAttained`); with the program's separate readings the bound is
  2·limit (`ClockReadings.ServedPerStretch`, `ClockReadings.ServedPerStretchAttained`), and the deletion of an ended
  counter can show in later answers (`ClockReadings.DeletionShowsIff`).
- A `|` in a group name can make two abilities share a deduplication key; one is then missing from the index
  (`Abilities.BarLosesAnAbility`). The index finds what a scan would find if and only if no active channel has such a
  collision (`Selector.IndexFindsWhatScanFinds`).
- Retagging channels queries the old tag after the update, so the edited channels keep their old index entries
  (`Abilities.Catalog.EditTagChannels`). A retag alone does no harm; a new priority or weight beside it leaves the index
  stale exactly when the channel serves a model (`Abilities.HarmlessIff`, `Abilities.RetagIsHarmless`).
- Whatever the order in which group subscriptions end, the one ended last decides: the user is back if and only if the
  group below it in the stack is the initial one (`GroupReturn.AnyOrderRestoresIff`).
- An expiry sweep that nobody disturbs between its reading and its statements acts as if at once
  (`GroupReturn.UndisturbedIsAtomic`). A restore on an old reading keeps the chain of saved groups if and only if it writes
  the group the user is in; otherwise a held group is lost (`GroupReturn.RestoreKeepsChainIff`,
  `GroupReturn.StaleSweepTakesGroup`).
- A payload of 2^32 bytes or more does not survive encryption: its length field wraps
  (`CxBlock.DecryptInvertsEncrypt`).

## Model
| member | source | states |
|---|---|---|
| Ledger.Billing.PreConsumeQuota | backend/service/billing.go:54-104 | a hold is granted exactly when the wallet row has the amount and the token is unlimited or has it both as carried and in its row; it then leaves both rows short by the amount, and a refused one changes nothing |
| Ledger.Billing.PostConsumeQuota | backend/service/billing.go:109-181 | moves the difference between cost and hold on user and token and books the cost as used; a larger, smaller or equal cost end in one closed form |
| Ledger.Billing.RefundQuota | backend/service/billing.go:184-205 | gives the hold back to user and token and touches nothing else |
| Ledger.FindSub | backend/controller/relay_handler.go:31-44 | only the newest active, unexpired subscription of the user with a quota counts, and it is found iff it has room for the whole cost |
| Ledger.Billing.HasActiveSubscriptionQuota | backend/controller/relay_handler.go:31-44 | a subscription is returned iff the eligible one with the largest id has room |
| Ledger.Billing.GetUserBillingPreference | backend/controller/relay_handler.go:48-62 | a preference is returned iff its stored name is the user's column; a missing user or any other column means subscription first |
| Ledger.Billing.DeductFromWallet | backend/controller/relay_handler.go:65-82 | a direct deduction is a settlement with nothing held |
| Ledger.Billing.DeductFromPrioritySource | backend/controller/relay_handler.go:85-126 | exactly one of wallet and subscription pays, as the preference orders them, or nothing changes and the call fails |
| Ledger.Billing.RecordConsumeLog | backend/controller/relay_handler.go:128-197 | the cost is logged exactly when some source paid it |
| Ledger.Billing.RecordConsumeWithBilling | backend/controller/relay_handler.go:205-320 | either the wallet settles against the hold, or the hold is refunded and the subscription charged; one log entry either way |
| Ledger.Billing.SettleFromPoolElseWallet | backend/controller/relay_handler.go:269-319 | the subscription pays if one has room, else the wallet settles against the hold |
| Settlement.StepConserves | backend/service/billing.go:66-205 | one statement of any in-flight request keeps all conserved sums |
| Settlement.RequestEnters | backend/controller/relay.go:278-291 | a request enters the protocol with its token and amount under an unused id |
| Settlement.RunConserves | backend/controller/relay_handler.go:65-319 | over every interleaving of any requests: each user's quota + used + outstanding holds and each limited token's remain + used + holds are constant, unlimited tokens keep their remain, a user's used moves with its tokens' used, and logs total user used plus subscription used |
| Overdraft.WalletFloor | backend/service/billing.go:69-163 | after every run a wallet is no further below zero than its settlements cost beyond their holds |
| Overdraft.WalletFloorAttained | backend/service/billing.go:109-163 | for every number of settlements dearer than their holds, a run that ends exactly at that floor |
| Overdraft.CoveredNeverOverdraws | backend/service/billing.go:69-163 | a wallet never goes negative when no settlement costs more than its hold |
| Overdraft.TokenFloor | backend/service/billing.go:82-163 | the same floor for a token's allowance |
| Overdraft.StepCommits | backend/controller/relay_handler.go:273-313 | one statement keeps used plus pending charges of a subscription within quota + (n-1)·most |
| Overdraft.PoolCeiling | backend/controller/relay_handler.go:31-313 | with at most n settlements between check and update, each costing at most `most`, a subscription never exceeds quota + (n-1)·most |
| Overdraft.AtomicNeverOverdraws | backend/controller/relay_handler.go:31-44 | settled one at a time, a subscription never exceeds its quota |
| Overdraft.PoolCeilingAttained | backend/controller/relay_handler.go:85-126 | for every n and every positive cost a run with n overlapping settlements that meets the ceiling's conditions ends exactly at quota + (n-1)·cost |
| WalletCheck.CoveredExposureIsSafe | backend/controller/relay_handler.go:85-126 | whatever the preference, the subscriptions and everybody else's requests, a balance that covers a user's exposure never goes negative in any interleaving |
| WalletCheck.ChecksSufficeIff | backend/controller/relay_handler.go:85-126 | and only then, for deductions in flight at any stage, if none falls back on the wallet unasked or a moment comes at which no subscription could pay |
| WalletCheck.AskedExposureIsNeeded | backend/controller/relay_handler.go:94-115 | without that proviso, the balance must still cover the checks passed and the deductions that fit it and will ask |
| WalletCheck.PoolsLapseIff | backend/controller/relay_handler.go:33-36 | such a moment comes iff the user has no active subscription with a quota that never expires |
| WalletCheck.RunSafe | backend/controller/relay_handler.go:65-108 | what may still leave the wallet never exceeds the balance, over every run |
| WalletCheck.ChecksThenCharges | backend/controller/relay_handler.go:94-124 | all checks before all charges leave the wallet at its balance minus the whole exposure |
| Relay.Serve | backend/controller/relay.go:278-489 | the loop's actions and final tables: hold, attempts in list order, one settlement or the deferred refund |
| Relay.ScriptResolvesOnce | backend/controller/relay.go:293-489 | every script holds first, tries a prefix of the channels in order, stops at the first terminal outcome, and ends with exactly one settlement or refund; it settles iff the last attempt reported usage |
| Relay.ScriptStops | backend/controller/relay.go:302-445 | by the upstream's answers: failures before sending, unreadable errors, 429, 5xx and errors that disable the channel move on; a refusal by policy, another client error or an answer below 400 stops the loop |
| Relay.HoldLeavesNoTrace | backend/service/billing.go:66-205 | hold then refund is the identity; hold then settlement equals direct settlement of the cost |
| Relay.ServedAloneChargesOnce | backend/controller/relay.go:278-489 | served alone, a request either changes nothing or is charged its cost once |
| Relay.ServeIsOneSchedule | backend/controller/relay.go:278-489 | the sequential program is one schedule of the concurrent protocol and ends in the same tables |
| Relay.ArrivedTakesHold | backend/service/billing.go:54-104 | in the concurrent protocol an arrived request takes its hold in two own turns under exactly that condition on the rows, and otherwise is done without a trace |
| Relay.DirectIsOneSchedule | backend/controller/relay_handler.go:85-197 | recording a direct charge is one schedule of the concurrent protocol |
| Relay.HoldsBalance | backend/controller/relay.go:278-298 | in every interleaving, holds taken equal holds resolved plus the hold still open, and at most one is taken |
| Relay.FinishedResolvedOnce | backend/controller/relay.go:293-298 | a finished request resolved its hold exactly as often as it took it, at most once, in every interleaving |
| Pricing.MeteredIs | backend/service/billing.go:252-308 | per token, the charge less tool fees is the weighted tokens times the model and group ratios, cut towards zero, for any ratios and counts |
| Pricing.PricedIs | backend/service/billing.go:224-246 | per call, it is the price times 500000 times the group ratio, cut towards zero |
| Pricing.PenalisedIs | backend/service/billing.go:303-307 | a penalty above one multiplies the whole charge and cuts it; any other leaves it |
| Pricing.EstimateIs | backend/service/billing.go:42-52 | the hold is at least one unit and at least 500 prompt tokens' worth at the model and group ratios |
| Pricing.MeteredWhole | backend/service/billing.go:252-308 | at whole model and group ratios nothing is rounded |
| Pricing.MoreCostsNoLess | backend/service/billing.go:212-308 | the cost is monotone in prompt, completion, audio completion and tool counts, per call or per token, under any penalty |
| Pricing.NeverNegative | backend/service/billing.go:212-308 | the cost is nonnegative for nonnegative counts, ratios and price |
| Pricing.SplitCosts | backend/service/billing.go:252-308 | per token and without a penalty, for every split and all fair ratios the parts cost what the whole would with the lesser of total overflow and total spare text added, less at most n - 1 units |
| Pricing.SplitNeverDearerIff | backend/service/billing.go:252-308 | per token and without a penalty, the parts never cost more than the whole under any fair ratios iff no part overflows or none has text to spare |
| Pricing.SplittingSavesOnlyRounding | backend/service/billing.go:252-308 | n parts whose details fit their prompts cost at most the whole and at least the whole minus n - 1 |
| Pricing.BilledAtPar | backend/service/billing.go:261-265 | at ratios of one the parts cost exactly that text more than the whole |
| Pricing.HoldCoversIffWorst | backend/service/billing.go:42-308 | for any ratios at the hold and any others, price, penalty and tool counts at the settlement, the hold covers every text request within prompt and output bounds iff it covers the dearest one |
| Pricing.HoldCoversIffNoTools | backend/service/billing.go:42-308 | for the same ratios on both sides, per-token billing, a prompt within its estimate, cached tokens no dearer and no penalty: covered iff no tool is used |
| Pricing.HoldCoversIff | backend/service/billing.go:42-308 | the thresholds in closed form: the dearest request's cost against the hold without a penalty, its product with the penalty against the next unit with one |
| Pricing.NoHoldCoversEveryPrompt | backend/controller/relay.go:279-282 | for every limit and all ratios with a positive model and group ratio, some prompt costs more than the hold |
| Pricing.ToolsOutrunTheHold | backend/service/billing.go:42-308 | for the same ratios on both sides and per-token billing, whatever the limit, ratios and penalty, one tool call outruns the hold of a request that uses its limit |
| Abilities.BuildAbilities | backend/model/ability.go:39-81 | one row for each deduplication key of a served group and model, current status, priority and weight |
| Abilities.BuiltMeans | backend/model/ability.go:62-78 | each row carries the channel's id, priority and weight and is enabled while the status is 1; every served pair's key appears exactly once |
| Abilities.ServesMeans | backend/model/ability.go:25-58 | a channel serves the groups its column names, or `default` if it names none, and the models it names or its mapping has keys for, all trimmed |
| Abilities.EntriesMean | backend/model/ability.go:39-81 | an entry of a tracked table is its channel's present state |
| Abilities.CompleteIffCollisionFree | backend/model/ability.go:62-78 | every served pair gets its row iff no two pairs share a key, in any order of iteration |
| Abilities.NoBarNoCollision | backend/model/ability.go:64-66 | no vertical bar in the group names rules collisions out |
| Abilities.BarLosesAnAbility | backend/model/ability.go:64-66 | a channel whose two group names differ by a trailing vertical bar loses an ability |
| Abilities.ExactIffCollisionFree | backend/model/ability.go:39-81 | a tracked table is exactly the set of served triples iff no channel has a collision |
| Abilities.Replanted | backend/model/ability.go:84-94 | inserting one channel's built rows makes the table track it and disturbs no other channel |
| Abilities.PurgedTracks | backend/model/ability.go:113-115 | deleting the rows of deleted channels keeps the table tracking the rest |
| Abilities.SwitchedTracks | backend/controller/channel.go:430-466 | switching the rows' flag together with the channels' status keeps the table tracking |
| Abilities.IndexIsUnique | backend/model/ability.go:127-144 | an exact index is the one a rebuild would give, however it was maintained |
| Abilities.StaleIffDifferent | backend/controller/channel.go:468-506 | an index left alone stays exact iff no channel's entries changed |
| Abilities.HarmlessIff | backend/controller/channel.go:475-492 | an edit leaves a channel's entries alone iff it keeps the served models and, where there are any, the priority and weight |
| Abilities.RetagIsHarmless | backend/controller/channel.go:475-492 | a new tag alone changes no entry; a new priority or weight does iff the channel serves a model |
| Abilities.Catalog.UpdateAbilities | backend/model/ability.go:97-110 | replaces exactly one channel's rows |
| Abilities.Catalog.FixAllAbilities | backend/model/ability.go:127-144 | from any table at all, a rebuild tracks the channels |
| Abilities.Catalog.AddChannel | backend/controller/channel.go:324-341 | inserts the channel and keeps the table tracking; rejects blank names, blank keys and taken ids |
| Abilities.Catalog.UpdateChannel | backend/controller/channel.go:513-535 | each field takes the patch's value where that is not empty or zero and keeps its own otherwise, and the table keeps tracking |
| Abilities.Catalog.DeleteChannel | backend/controller/channel.go:396-405 | removes the channel and its rows |
| Abilities.Catalog.DeleteDisabledChannel | backend/controller/channel.go:407-419 | removes exactly the manually and automatically disabled channels, with their rows |
| Abilities.Catalog.SetTagChannels | backend/controller/channel.go:430-466 | switches exactly the tagged channels and their rows |
| Abilities.Catalog.EditTagChannels | backend/controller/channel.go:468-506 | edits exactly the tagged channels; tracking is kept when the filter still finds them, and otherwise an exact index stays exact iff the edit is harmless to each |
| Selector.DrawnExactly | backend/controller/selector.go:197-207 | a candidate is drawn for exactly as many targets as its weight |
| Selector.ShuffledByDraw | backend/controller/selector.go:180-217 | each round takes the candidate in whose stretch of the summed weights the drawn number lies, and the next draw shuffles the rest |
| Selector.ShuffledWithoutWeight | backend/controller/selector.go:186-193 | without weight the rest stays in its order |
| Selector.ArrangedByRuns | backend/controller/selector.go:124-146 | each run of one priority is shuffled by its own draws in its own place |
| Selector.ShuffledPermutes | backend/controller/selector.go:180-217 | for every sequence of random numbers the weighted shuffle terminates with a permutation |
| Selector.ShuffledWeightlessLast | backend/controller/selector.go:180-217 | with nonnegative weights, no candidate with weight comes behind one without |
| Selector.WeightedShuffle | backend/controller/selector.go:180-217 | the in-place loop computes that shuffle and always removes an element |
| Selector.SortedSpec | backend/controller/selector.go:118-120 | the sort is descending, a permutation, and keeps the order within each priority |
| Selector.SortedIsOnly | backend/controller/selector.go:118-120 | no other list is descending and keeps that order |
| Selector.ArrangedPermutes | backend/controller/selector.go:124-146 | bucketing and shuffling lose and invent no candidate |
| Selector.ArrangedOrders | backend/controller/selector.go:118-148 | the result is in nonincreasing priority, weightless candidates last within a priority |
| Selector.ArrangeBuckets | backend/controller/selector.go:124-146 | the single pass with one reused bucket shuffles each run of equal priority |
| Selector.ListCandidates | backend/controller/selector.go:66-116 | some listing of the selectable channels, in whatever order the rows come |
| Selector.ListsMeans | backend/controller/selector.go:66-116 | a listing holds every active and allowed channel with an enabled row once, at that row's priority and weight, with its mapping's name for the model if the mapping has one and the model's own name otherwise |
| Selector.LookupIsSound | backend/model/ability.go:118-124 | the index never yields a channel a scan would not, nor a stale row, and misses none without collisions |
| Selector.IndexFindsWhatScanFinds | backend/controller/selector.go:66-116 | for every group and model the index equals the scan iff no active channel has a collision |
| Selector.ListingIsScan | backend/controller/selector.go:66-116 | candidates are scanned channels exactly as their rows stand; none without collisions is missing |
| Selector.SelectForGroup | backend/controller/selector.go:65-149 | the parallel results are some listing of the selectable channels, sorted by priority and shuffled within each priority by the given draws |
| Selector.ChosenIsListedInOrder | backend/controller/selector.go:65-149 | whatever the draws, every selectable channel is chosen once, its mapped model at the same position, in nonincreasing priority with weightless channels last |
| Selector.SelectChannel | backend/controller/selector.go:23-61 | gathers the choices of one group, or of the auto groups in turn, stopping at the first that has any unless retrying across groups |
| Routing.GatheredInBlocks | backend/controller/selector.go:38-60 | the choices are the tried groups' blocks one after the other, one block at most without retry across groups |
| Routing.RequestIsRouted | backend/controller/selector.go:23-173 | over lookup, sort, shuffle, groups and affinity together, for any draws: every choice is an active, allowed channel that serves its group and the model, as stored, beside its mapping's name for the model or the model's own; each block in order of priority, none missing without a collision |
| Routing.SelectChannelWithAffinity | backend/controller/selector.go:151-173 | the gathered choices, with the cached channel's first choice moved to the front in all three slices |
| Selector.ChoicesStayTogether | backend/controller/selector.go:38-60 | every channel keeps the mapped model and the group it was chosen with |
| Selector.GetUserUsableGroups | backend/service/group.go:56-84 | the usable groups are the public ones, the user's own and those its group grants |
| Selector.AutoGroupsInOrder | backend/service/group.go:113-122 | auto groups are exactly the usable configured ones, in configured order |
| Selector.GetUserAutoGroup | backend/service/group.go:113-122 | the loop computes that list |
| Selector.FavouredPermutes | backend/controller/channel_affinity_cache.go:120-151 | the affinity step moves the first match to the head and keeps the order of the rest; it is a permutation, and the identity without a match |
| Selector.PrioritizeAffinityChannel | backend/controller/channel_affinity_cache.go:120-151 | moves one position to the front in all three slices at once; unequal lengths are left alone |
| Affinity.SafeTwice | backend/controller/channel_affinity_cache.go:288-311 | sanitising parts a second time changes neither them nor the key |
| Affinity.SanitizeMeans | backend/controller/channel_affinity_cache.go:34-41 | white space around a part goes, each colon becomes an underscore, a blank part is one underscore |
| Affinity.CleanKey | backend/controller/channel_affinity_cache.go:43-48 | the key of sanitised parts, spelled out |
| Affinity.ParseOfBuild | backend/controller/channel_affinity_cache.go:34-59 | every built key parses into the sanitised parts |
| Affinity.EntriesShared | backend/controller/channel_affinity_cache.go:34-48 | two requests share a cache entry iff their sanitised parts agree |
| Affinity.BuildOfParse | backend/controller/channel_affinity_cache.go:43-59 | a key that parses is its parts joined, and building gives it back iff the parts are sanitised |
| MultiKey.ParseMap | backend/controller/channel_multikey.go:42-91 | whatever order the entries are visited in, each spelled index gets the value of one of its spellings |
| MultiKey.EncodeDecodes | backend/controller/channel_multikey.go:42-118 | decoding an encoded map gives back that map and no other |
| Text.AtoiMeans | backend/controller/channel_multikey.go:52-54 | an index is an optional sign before digits, leading zeros included, within 64 bits |
| Text.AtoiRejects | backend/controller/channel_multikey.go:52-54 | anything else is skipped |
| Text.ItoaIsPlain | backend/controller/channel_multikey.go:93-100 | indexes are written without plus sign or leading zero |
| Text.UnixLinesBreak | backend/controller/channel_multikey.go:33 | a carriage return before a line feed is dropped |
| MultiKey.SplitLinesNonEmpty | backend/controller/channel_multikey.go:31-40 | the loop computes the trimmed non-blank lines |
| MultiKey.StoredKeysReload | backend/controller/channel_multikey.go:31-171 | for trimmed non-blank keys, joining then splitting is the identity iff no key has a line feed |
| MultiKey.ReloadIsStable | backend/controller/channel_multikey.go:31-171 | for every column, split after join after split is split |
| MultiKey.StoredKeysNeverVanish | backend/controller/channel_multikey.go:180-200 | a stored non-empty key list is never read back empty, even when its keys contain line feeds |
| MultiKey.SaveThenLoad | backend/controller/channel_multikey.go:163-177 | what one request saves the next one loads |
| MultiKey.DropKey | backend/controller/channel_multikey.go:304-328 | rebuilding without one position removes exactly that record; the survivors keep their data under their new numbers |
| MultiKey.DropAutoDisabled | backend/controller/channel_multikey.go:375-401 | keeps exactly the records that are not automatically disabled, in order, and counts the others |
| MultiKey.SurvivingSpec | backend/controller/channel_multikey.go:375-401 | exactly the records that are not automatically disabled survive, each once and in order |
| MultiKey.DisableEach | backend/controller/channel_multikey.go:349-362 | marks exactly the enabled keys; the others keep status, time and reason |
| MultiKey.PagesCoverListing | backend/controller/channel_multikey.go:246-272 | pages 1 to total_pages concatenate to exactly the filtered list |
| MultiKey.TakePage | backend/controller/channel_multikey.go:256-272 | as many pages as needed and no more, the wanted page or the last, and exactly its stretch of the items |
| MultiKey.ListKeys | backend/controller/channel_multikey.go:215-244 | the listing shows every record in order and counts each status |
| MultiKey.ListingMeans | backend/controller/channel_multikey.go:215-244 | position, status (1 without an entry), time and reason of disabled keys only, and the first ten characters of longer keys |
| MultiKey.CountIsCardinality | backend/controller/channel_multikey.go:220-227 | each count is the number of records with that status |
| MultiKey.FilterKeys | backend/controller/channel_multikey.go:246-254 | the loop computes the filtered list |
| MultiKey.MatchingSpec | backend/controller/channel_multikey.go:246-254 | exactly the items with the requested status, all of them without one, each once and in order |
| MultiKey.KeyStore.Set | backend/controller/channel_multikey.go:180-200 | refuses blank lists; otherwise all keys are enabled and the list is not empty |
| MultiKey.KeyStore.GetKeyStatus | backend/controller/channel_multikey.go:202-278 | page, totals and counts of the stored records for any requested page, size and filter |
| MultiKey.KeyStore.DisableKey | backend/controller/channel_multikey.go:280-335 | changes one record, or nothing for a missing or wrong index |
| MultiKey.KeyStore.EnableKey | backend/controller/channel_multikey.go:280-335 | clears one record's status, time and reason |
| MultiKey.KeyStore.DeleteKey | backend/controller/channel_multikey.go:280-335 | removes one record, never the last one |
| MultiKey.KeyStore.EnableAllKeys | backend/controller/channel_multikey.go:337-346 | every key is enabled, the keys stay |
| MultiKey.KeyStore.DisableAllKeys | backend/controller/channel_multikey.go:348-372 | disables the enabled records; refused iff there is none |
| MultiKey.KeyStore.DeleteDisabledKeys | backend/controller/channel_multikey.go:374-419 | filters the automatically disabled records; refused iff there is none or nothing would be left |
| Windows.WithinWindow | backend/middleware/ratelimit.go:62-81 | until its window ends a counter grants no more than the room it has left |
| Windows.BurstBound | backend/middleware/ratelimit.go:62-81 | at most 2·limit - 1 grants in any closed stretch one window long, with sweeps in between |
| Windows.BurstBoundAttained | backend/middleware/ratelimit.go:62-81 | that bound is reached for every limit and window |
| RateLimit.RateLimiter.CheckLimit | backend/middleware/ratelimit.go:62-81 | one call counts once, opens a new window after the old one, and is granted iff the count fits |
| RateLimit.DeleteStale | backend/middleware/ratelimit.go:45-58 | the janitor deletes exactly the counters more than a window past their end |
| RateLimit.JanitorIsInvisible | backend/middleware/ratelimit.go:40-81 | with one clock reading per call, running the janitor at any moments changes no answer |
| ClockReadings.OneReading | backend/middleware/ratelimit.go:66-81 | three equal readings are that one reading |
| ClockReadings.DeletionShowsIff | backend/middleware/ratelimit.go:45-81 | with separate readings, a call that finds an ended counter deleted leaves everything after it as if it had not been iff its first and last readings agree or the window was over before it got the lock |
| RateLimit.GrantsPerStretch | backend/middleware/ratelimit.go:62-81 | with one clock reading per call, per key at most 2·limit - 1 grants in any stretch one window long, over every run of calls and sweeps |
| ClockReadings.ServedPerStretch | backend/middleware/ratelimit.go:66-81 | with the three separate readings of each call, at most 2·limit, for any sweeper that waits a window past a counter's end |
| ClockReadings.ServedPerStretchAttained | backend/middleware/ratelimit.go:66-81 | that bound is reached for every limit and window |
| RateLimit.GrantsPerWindow | backend/middleware/ratelimit.go:62-81 | per key and window at most the limit |
| GroupLimit.GroupCounters.AddToWindow | backend/middleware/group_ratelimit.go:46-71 | the amount on top of the live count, or alone in a window that ends one window from now; no other counter changes |
| GroupLimit.GroupCounters.PeekWindow | backend/middleware/group_ratelimit.go:74-95 | the live count, zero for an ended window |
| GroupLimit.GroupCounters.GroupRateLimitMiddleware | backend/middleware/group_ratelimit.go:108-140 | admitted iff each limit set has room under its own key; the day counter rises always, the minute counter only once the day passes |
| GroupLimit.GroupCounters.RecordGroupTokens | backend/middleware/group_ratelimit.go:144-154 | raises the live token count by exactly the tokens, for limited groups and positive counts only |
| GroupLimit.DayKeysDistinct | backend/middleware/group_ratelimit.go:98-100 | day keys coincide iff group and UTC day do, whatever characters the group name has |
| GroupLimit.MinuteKeysDistinct | backend/middleware/group_ratelimit.go:102-104 | minute keys of different groups or purposes never coincide with each other or with a day key |
| GroupLimit.AtMostRpdPerDay | backend/middleware/group_ratelimit.go:26-140 | at most rpd admissions of a group in any UTC day, with the sweeper running |
| GroupLimit.AtMostTwiceRpmPerMinute | backend/middleware/group_ratelimit.go:46-140 | with one clock reading per call, at most 2·rpm - 1 admissions in any 60 seconds; the counter's separate readings allow the 2·rpm of ClockReadings.ServedPerStretch |
| GroupLimit.CounterIsRecorded | backend/middleware/group_ratelimit.go:46-154 | over every run from the empty table the token counter reads as the sum of the tokens recorded since its minute opened, and as zero after it |
| GroupLimit.SpentMinuteShutsOut | backend/middleware/group_ratelimit.go:74-154 | once the tokens recorded in an open minute reach tpm, nothing is admitted until it ends, whatever comes in between |
| GroupLimit.SpentWindowShutsOut | backend/middleware/group_ratelimit.go:74-154 | the same from any table whose counter has reached tpm |
| Bytes.XorWithKeyTwice | wasm/main.go:413-420 | whitening twice is the identity for keys of any length |
| Bytes.WhitenedBits | wasm/main.go:413-420 | each bit is flipped where the key, repeated along the data, has a one |
| Bytes.LeDigits | wasm/main.go:423-436 | the byte of weight 256 to the i is written at position i |
| Bytes.TwosComplement | wasm/main.go:430-432 | a negative time stamp is stored as itself plus two to the 64 |
| Bytes.LeRoundTrip | wasm/main.go:423-436 | little-endian fields read back the number written |
| CxBlock.InnerFields | wasm/main.go:423-450 | where each field of the inner block lies and what it reads back as |
| CxBlock.ParseOfInner | wasm/main.go:453-479 | the parser's verdict on every built block |
| CxBlock.ParseMeans | backend/service/cxsec/cipher.go:87-118 | the verdict on any block at all: 17 bytes, the expected counter, the stamp within the skew and a length with room for the padding byte, in that order |
| CxBlock.DecryptOfEncrypt | wasm/main.go:423-479 | decryption of an encryption is the parse of the inner block |
| CxBlock.DecryptInvertsEncrypt | backend/service/cxsec/cipher.go:29-118 | the payload comes back iff the stamp is in the window, the payload is shorter than 2^32 bytes and the counter is the expected one where one is expected, for every key, nonce and padding |
| CxBlock.WindowIsDistance | backend/service/cxsec/cipher.go:94-101 | away from the ends of int64 the window test is the distance of the two clocks |
| CxBlock.EncryptBlock | wasm/main.go:423-450 | filling the buffer field by field gives the specified block |
| CxBlock.DecryptBlock | wasm/main.go:453-479 | no slice is out of range on any authenticated block, and the checks come in the specified order |
| CxRatchet.Ratchet.RatchetIfNeeded | wasm/kdf.go:73-81 | the loop advances the epoch to the clock's and never back |
| CxRatchet.ScheduleIsIrrelevant | wasm/kdf.go:73-81 | after any schedule of calls the keys depend on the latest clock value only |
| CxRatchet.ReceiverHoldsSenderKey | backend/service/cxsec/session.go:102-119 | the receiver's two keys include the sender's whenever it is at the same epoch or one ahead |
| CxSession.UnpackOfPack | backend/middleware/cxsec.go:37-62 | unpacking a packed request or response gives its fields back |
| CxSession.UnpackMeans | backend/middleware/cxsec.go:37-62 | requests of 73 bytes and responses of 64 unpack, shorter ones do not, and the pieces are the body |
| CxSession.DeliveredMeans | backend/middleware/cxsec.go:31-121 | a delivered request is signed under the current or previous epoch key for this 30-second block or the one before, with a nonce not held live, which is then held for 120 seconds |
| CxSession.NonceIsUsedUp | backend/service/cxsec/session.go:129-160 | a signed request uses up its nonce whether or not it opens; a refusal leaves the counter |
| CxSession.DeliveredWithin | backend/middleware/cxsec.go:85-105 | what is delivered was opened under the server's counter within 45 seconds |
| CxSession.ReceivedMeans | wasm/main.go:260-330 | the same for the browser, within 60 seconds and whatever the counter field |
| CxSession.RequestArrives | backend/middleware/cxsec.go:31-121 | a prompt, fresh request is delivered byte for byte, and what it changes at both ends |
| CxSession.ReplyArrives | wasm/main.go:260-330 | a prompt reply is delivered byte for byte under the same counter |
| CxSession.ConversationDelivers | backend/middleware/cxsec.go:31-185 | any number of prompt exchanges delivers every request and reply in order |
| CxSession.ReplayIsRefused | backend/service/cxsec/session.go:129-147 | after a delivery, any request with the same nonce is refused for the nonce lifetime, whatever arrives in between |
| CxSession.VerifyLoop | backend/middleware/cxsec.go:71-94 | two epoch keys and two time blocks are tried in order; the first that verifies is used |
| CxSession.DropExpired | backend/service/cxsec/session.go:129-147 | exactly the unexpired nonces stay |
| CxSession.Session.JsEncrypt | wasm/main.go:203-258 | the bytes a client sends and its state afterwards |
| CxSession.Session.JsDecrypt | wasm/main.go:260-330 | what a client accepts, and that a refusal moves no counter |
| CxSession.Session.HandleRequest | backend/middleware/cxsec.go:31-121 | what the server accepts and the state it keeps |
| CxSession.Session.Flush | backend/middleware/cxsec.go:153-185 | the bytes the server answers with |
| Streaming.SplitStep | backend/controller/messages_sse.go:37-48 | one answer of the split function keeps the tokens of the whole stream, whatever bytes are still to come |
| Streaming.ScanAll | backend/controller/messages_convert.go:282-300 | for every chunking of the bytes the scanner yields the tokens of splitting the whole stream |
| Streaming.TokensSpec | backend/controller/messages_sse.go:37-48 | no token contains a blank line, and the tokens with blank lines between are the stream |
| Streaming.FirstBlankMeans | backend/controller/messages_sse.go:41-43 | the blank line a token ends at is the first one |
| Streaming.StreamOpenAI2Claude | backend/controller/messages_convert.go:270-381 | the loop emits the trace of the chunks decoded before `[DONE]` |
| Streaming.TraceObeysProtocol | backend/controller/messages_convert.go:270-381 | the trace is empty, or start, block start and deltas, closed once iff a finish reason arrived; the deltas concatenate to the upstream content |
| Streaming.FinishGiven | backend/controller/messages_convert.go:330-345 | a finish reason is remembered iff some chunk gave one |
| Streaming.ChunksMean | backend/controller/messages_convert.go:286-300 | the chunks are what the `data: ` lines before the first end marker decode to, each once and in order |
| Streaming.CarriersComplete | backend/controller/messages_convert.go:286-300 | no decodable line before the marker is left out |
| Streaming.DeltasMean | backend/controller/messages_convert.go:324-346 | one delta for each chunk whose first choice has content, with that content |
| Streaming.EndingMeans | backend/controller/messages_sse.go:24-35 | the last finish reason given closes the stream under its name: max_tokens for length, tool_use for tool_calls, end_turn otherwise |
| Streaming.RenderMeans | backend/controller/messages_sse.go:16-22 | an event line, a data line and a blank line, with the protocol's event names |
| Streaming.RenderedSplits | backend/controller/messages_sse.go:16-22 | a client splitting the rendered events on blank lines gets exactly those events |
| Subscriptions.Store.ActivateSubscription | backend/model/subscription.go:97-149 | a pending row becomes active from now, for 86400 seconds a day of the plan or for ever, with the plan's quota and the replaced group if the plan has them, and the user moves to the plan's group; anything else changes nothing |
| Subscriptions.ExpiresAfterItsDays | backend/model/subscription.go:79-123 | after anything else has run, a row activated at t and still active is expired by a sweep at n iff its plan has d > 0 days and n is at least t + 86400·d |
| Subscriptions.ActiveRowStays | backend/model/subscription.go:97-149 | while a subscription is active its row does not change |
| Subscriptions.Store.AdminBindSubscription | backend/controller/subscription.go:440-459 | binds and activates, or changes nothing when user or plan is missing |
| Subscriptions.Store.AdminInvalidateUserSubscription | backend/controller/subscription.go:515-544 | a subscription neither cancelled nor expired is cancelled, and its saved group, if its plan moves groups and it saved one, is restored; any other stays as it is |
| Subscriptions.Store.AdminDeleteUserSubscription | backend/controller/subscription.go:546-568 | deletes and restores the saved group only from an active group subscription |
| Subscriptions.Store.ExpireSubscriptions | backend/model/subscription.go:79-92 | exactly the active rows whose end has come are marked, each restoring the group of the row as it was read |
| Subscriptions.StatusOnlyAdvances | backend/model/subscription.go:79-149 | under every interleaving a status never returns to pending or to active, and a deleted row stays deleted |
| Subscriptions.ActivatedAtMostOnce | backend/model/subscription.go:97-149 | under every interleaving a subscription's activation effects happen at most once |
| Subscriptions.PushKeepsChain | backend/model/subscription.go:97-149 | activation pushes the group it replaces |
| Subscriptions.PopKeepsChain | backend/controller/subscription.go:515-568 | ending the latest subscription restores the group beneath it |
| Subscriptions.LatestFirstRestores | backend/controller/subscription.go:515-568 | in every run whose group subscriptions end latest first, the user is back in the initial group when all have ended |
| GroupReturn.LastEndedDecides | backend/controller/subscription.go:515-568 | for every run without a new group subscription the user ends in the group saved by the subscription ended last |
| GroupReturn.AnyOrderRestoresIff | backend/controller/subscription.go:515-568 | for every stack and every order of cancellation, deletion and expiry, the user is back iff the group below the one ended last is the initial one |
| GroupReturn.LastEndedIsStacked | backend/controller/subscription.go:515-568 | only a stacked subscription can be the one ended last, and while none ends the user stays in the top one's group |
| GroupReturn.UndisturbedIsAtomic | backend/model/subscription.go:79-92 | a sweep of any rows, interleaved with anything that neither begins nor ends a group subscription of a user, leaves that user as an uninterrupted sweep would |
| GroupReturn.UndisturbedSweepKeepsChain | backend/model/subscription.go:79-92 | an expiry of one row so undisturbed ends where it would at once and keeps the chain of saved groups |
| GroupReturn.RestoreKeepsChainIff | backend/model/subscription.go:87-91 | and it keeps the chain iff it writes the group the user is in |
| GroupReturn.StaleSweepTakesGroup | backend/model/subscription.go:79-92 | read, cancelled and replaced before the sweep writes: the user ends in the old row's saved group, from every state |

## Left out

- Ledger.Billing.PreConsumeQuota: quotas are unbounded integers; int64 wrap-around of balances is not modelled.
- Ledger.Billing.PostConsumeQuota: a failing database write is not modelled; the relay marks a request settled even then.
- Relay.Serve: the adapters, upstream exchange and response writing of an attempt are one arbitrary outcome; the loop's other duties (circuit breaker, content review, auto-disable) are not modelled.
- Settlement.RunConserves: rows are not created, deleted or overwritten during a run (administrative edits of tokens, users and quotas bypass the ledger), and each token's unlimited flag is fixed.
- Pricing.HoldCoversIffWorst: image and audio tokens are outside its bounds; the estimate uses reals; float64 rounding of the estimate, the surcharges and the penalty is not modelled.
- GroupLimit.AtMostTwiceRpmPerMinute: one clock reading per call; see its row.
- Selector.SelectChannel: the selection for one group is a parameter here; Routing.RequestIsRouted joins it with SelectForGroup. Channels come back in an arbitrary order, as from the database.
- WalletCheck.ChecksSufficeIff: the user's deductions are those in flight at the start; later arrivals are bounded by Overdraft.WalletFloor only. With a fallback and a subscription that never expires the condition is exact only in part (CoveredExposureIsSafe and AskedExposureIsNeeded), because which deductions the subscription pays depends on a choice of subset.
- Selector.GetUserUsableGroups: the variant that also grants a user's extra groups (backend/service/group.go:88-104) is not modelled.
- Abilities.Catalog.EditTagChannels: the LIKE filter is an arbitrary predicate on the tags column.
- Abilities.Catalog.AddChannel: column defaults applied by the database on insert are taken as already in the row; Abilities.Catalog.UpdateChannel likewise takes the decoded patch.
- Operations that never maintain the ability index (ToggleChannelStatus, the batch updates, CopyChannel, upstream model apply, automatic disabling).
- MultiKey.KeyStore.Set: the number of lines must fit an int; keys containing line feeds are stored as several keys, as StoredKeysReload says.
- MultiKey.KeyStore.DisableKey: columns with two spellings of one index, such as "1" and "+1", decode differently from run to run; the actions are stated for columns without them, which every save produces.
- MultiKey.KeyStore.GetKeyStatus: the preview is cut by characters, not bytes.
- The channel row is read before the multi-key lock is taken, so two overlapping requests can lose an update; each action is modelled as atomic.
- RateLimit.RateLimiter.CheckLimit: the Redis path and an orphaned counter, deleted between look-up and lock, are not modelled, and RateLimit.JanitorIsInvisible takes one clock reading per call; GroupLimit.GroupCounters.AddToWindow likewise.
- CxSession.ConversationDelivers: messages opened in a later 30-second block than they were sealed in are excluded, because keys are derived from the current block only.
- CxSession.Session.HandleRequest: session lookup, expiry of sessions, handshake and proof of work are not modelled; the primitives are uninterpreted, with only "open inverts seal" and a tag length assumed.
- Streaming.StreamOpenAI2Claude: the tail buffer, usage numbers and the scanner's buffer limit are not modelled.
- Subscriptions.LatestFirstRestores: plans are not edited during a run, and no group name is empty; service/subscription_reset.go, which writes status 3 without restoring a group, is not part of this model.
- claudeToOpenAIRequest and normalOpenAI2Claude: field-by-field conversions without a law to state.
- Payment, Redis, OAuth, audit, WebSocket and other HTTP plumbing.
