# Verified model of the analytics pipeline

The system ingests game events into two stores. Redis holds fast counters that may be
lost; Postgres holds what is true. Hot counters are seeded from the tables on a miss and
flushed back under a merge rule per kind of structure, sealed raw files are shipped to a
bucket, and a client library queues events on the player's device. The project models the
parts whose correctness spans several operations and proves it over every run: agreement of
the two stores under loss, retry and reordering; conservation of money and of session time;
codecs that return what they were given; and histories of the client's session tracker and
queue.

Run `dafny verify dfyconfig.toml` to check everything.

## How it is modelled

A Redis hash is a `map` from fields to integers, a table a `map` from primary keys to rows,
a Lua script or a database transaction one atomic step. Services that update fields or
hashes in place are classes; each method is proved against a specification function of the
old state, and the laws are lemmas about those functions and about runs of them. Where
workers interleave between commands (`Retention`, `BalanceLww`, `Shipment`,
`SessionTracker`, `EconomyRead`, `Transport`) a state machine lists every step, and a loss,
crash, kill or capture during a request is a step of its own.

Days are integer indices, instants integer milliseconds, money an integer number of 10^-6
units; rates are reals. Clocks, configuration, freshly minted ids, quota, serialized sizes,
server answers and what the bucket stores are inputs.

| area | modules |
|---|---|
| retention projections | `Spine`, `SpineRescan`, `Retention`, `SessionHooks` |
| session time and days | `LogicalDay`, `SessionTime` |
| monetization rollup | `Strings`, `DimCombo`, `MonKeys`, `PurchaseRollup`, `PurchaseLedger`, `PurchaseJoin`, `MonetizationFlush`, `MoneyPath` |
| purchases and currency | `PurchaseGate`, `Fx`, `Reconciliation` |
| economy | `EcoKeys`, `EconomyRead`, `BalanceLww` |
| cold storage | `ObjectRef`, `Shipment` |
| client library | `SessionTracker`, `OfflineQueue`, `Transport` |
| shared | `Basics`, `Sums` |

## Where the code and its comments differ

The model follows the code. These are stated as lemmas unless noted.

- `durOnDay` rebuilds the day from a probe that adds the offset: it lands in the named day
  only for offsets 0 to 719, while the configuration allows -720 to 840
  (`SessionTime.ProbeLands`, `SessionTime.DaySplitConservesIff`).
- The active set is marked without looking at the offset, so it holds users the bitmap does
  not: exactly those outside their cohort's span (`SessionHooks.ActMarkVersusBitmap`,
  `SessionHooks.BeyondHorizonHasNoBit`).
- A bitmap written under a shorter span makes a later offset fail the whole event
  (`SessionHooks.SessionDurableHook.SetActivityBit`).
- A rescan between the two steps of an event counts it twice (`Retention.RescanMidEventLeads`,
  `Retention.RescanSafeIff`).
- The move script writes `'-'` before the amount. Local prices are not checked for sign, so a
  negative one stops the script after the count has moved out of the old cell
  (`PurchaseLedger.MoveConservesIff`).
- The purchase validator accepts any non-empty currency, but one holding `#` does not survive
  the local field (`MonKeys.LocFieldRoundTripIff`, `MonetizationFlush.SeedThenFlushIff`).
- Staging a server row does not clear the staged companion fields, though a comment says so
  (`PurchaseRollup.AfterServerRow` keeps them).
- The purchase join compares strictly with the seal instant, the kernel does not
  (`LogicalDay.SealTestsAgree`).
- Transaction ids are a primary key on their own, so an id used in one game is a duplicate in
  every other (`PurchaseGate.AcceptedIffFirst`).
- The tie-break keys of a balance are not stored durably (`BalanceLww.LoserDisplacesIff`).
- Overlapping shipment runs are called harmless, but an upload that stores other bytes after
  another run has verified the object is not noticed (`Shipment.RetirementLosesIff`,
  `Shipment.OverlapLosesAFile`).
- A queued event is said to be removed on a 2xx or a drop, but one evicted at the cap while its
  request is awaited is both dropped and acked (`Transport.CountedTwiceIff`,
  `Transport.FirstRowCountsTwice`).
- The raw append comes before the seal check, so a late event can reach a file that is being
  shipped or already was (`Shipment.AppendSafeIff`, `Shipment.LateAppendIsLost`,
  `Shipment.RacingAppendIsLost`).
- The join takes companion and server row in both orders, but the cardinality registry remembers a value that
  a later companion of the same attempt replaced (`PurchaseJoin.JoinIsConfluentIff`).
- A recompute rebuilds the lifetime of flagged payers only, so a rate that supersedes the one a
  converted purchase used reaches the cells but not the payer
  (`Reconciliation.SupersededLifetimeStays`).
- The transport drops a batch on every status that is not 2xx, 401, 403, 429 or 5xx, so on a
  redirect too, although the comment names other 4xx (`Transport.RoundRemoves`).
- A web store that refuses even the empty queue counts rows as dropped that are still stored
  (`OfflineQueue.LocalDropsCountIff`).

## Model

| member | source | states |
|---|---|---|
| `Retention.ProjectionsNeverLead` | src/sessions/session-durable.hook.ts:136-164 | over every interleaving of events, floor reads, seeds, increments, flushes, losses, abandoned events and rescans, no durable and no hot counter exceeds the spine's own count |
| `Retention.StepKeeps` | src/sessions/session-hot.hook.ts:120-138 | every single Redis or table step keeps the invariant behind it: stored values plus increments still owed never exceed the spine |
| `Retention.RescanSafeIff` | src/sessions/spine-rescan.service.ts:54-114 | in every reachable state a rescan's read is safe if and only if no event in flight owes an increment: otherwise some continuation makes a table row or a hot counter lead the spine |
| `Retention.RescanMidEventLeads` | src/sessions/spine-rescan.service.ts:54-114 | a run with the configured 15-day span: a rescan between step 7 and step 8 of one event makes the hot cohort size 2 for one row |
| `Retention.RescanRepairsAnyRun` | src/sessions/spine-rescan.service.ts:86-114 | after any run with nothing owed, a rescan's read and its later write leave every table row between the spine's count at the read and its count at the write, equal when nothing came between |
| `Retention.LosslessHotIsExact` | src/common/redis-keys/rehydrate.ts:57-97 | without loss or abandoned events a hot counter lags by exactly the increments in flight, whatever seeds, flushes and rescans came between |
| `Retention.FlushStores` | src/sessions/session-flush-plans.ts:52-66 | a flush of a seeded hash stores a counter unless the table has more and touches nothing else; an unseeded hash is skipped |
| `Retention.FlushIsExact` | src/sessions/session-flush-plans.ts:129-165 | without losses and with nothing owed, one flush of a seeded day makes the table the spine's count |
| `Retention.SeedingEventSetsBit0` | src/sessions/session-durable.hook.ts:136-162 | an event that creates a row sets its bit 0 and owes both the cohort and the day-0 cell |
| `Retention.HotStepsAreOneBump` | src/sessions/session-hot.hook.ts:120-138 | read floor, check, seed if missing, increment, undisturbed, is one increment over the durable floor |
| `SessionHooks.SessionDurableHook.Write` | src/sessions/session-durable.hook.ts:86-165 | the whole spine, the negative-offset tally and the token: anchoring, seed, offset against the row's own cohort, set-once bit |
| `SessionHooks.SessionDurableHook.SeedFirstSeen` | src/sessions/spine.repository.ts:45-80 | insert if absent; reports creation and the row's standing cohort |
| `SessionHooks.SessionDurableHook.SetActivityBit` | src/sessions/spine.repository.ts:90-99 | sets a clear bit once; an offset beyond an older, narrower bitmap fails and changes nothing |
| `SessionHooks.WriteIsProtocolStep7` | src/sessions/session-durable.hook.ts:136-164 | the hook's outcome is the protocol's Begin and SetBit: same spine, and the token owes the same counters |
| `SessionHooks.SessionHotHook.Update` | src/sessions/session-hot.hook.ts:62-141 | the three hashes after one event: day shares, active set and the owed retention increments, in the hook's order |
| `SessionHooks.ActMarkVersusBitmap` | src/sessions/session-hot.hook.ts:104-118 | the active set takes every anchored session and keeps everyone it had; the bitmap has its day if and only if the day lies in the cohort's span or its bit was already set |
| `SessionHooks.BeyondHorizonHasNoBit` | src/sessions/session-durable.hook.ts:147-164 | from an empty spine, a user's session at or beyond the horizon of the first is active and never gets a bit |
| `SessionHooks.HandleSession` | src/workers/kernel/ingest-kernel.ts:224-230 | steps 7 and 8 for one record: the hot hashes take what the written token owes, and nothing when the spine write throws |
| `SessionHooks.OthersAreNotTracked` | src/sessions/session-durable.hook.ts:86-135 | a server session, or one without a user, reaches neither spine nor active set and owes nothing |
| `SessionHooks.EarlySessionIsTallied` | src/sessions/session-durable.hook.ts:145-155 | a session from before the cohort day changes nothing but the tally of its arrival day |
| `SessionHooks.SessionIsBooked` | src/sessions/session-hot.hook.ts:81-102 | the start day counts the session, both days it touches take their share, each from its own hash or on a miss its durable row, and no other day changes |
| `SessionHooks.RetIsProtocolStep8` | src/sessions/session-hot.hook.ts:120-138 | what step 8 does to the retention hashes is the protocol's hot steps, counter by counter |
| `SessionHooks.CellLandsOnItsDay` | src/sessions/session-hot.hook.ts:120-138 | the bit's increment goes to the hash of the event's own day, from its value or the durable one, and to no other |
| `Spine.SeedRaisesOneCohort` | src/sessions/spine.repository.ts:45-80 | creating a row raises its own cohort by one and no other counter |
| `Spine.BitRaisesOneCell` | src/sessions/spine.repository.ts:90-99 | a 0-to-1 transition raises its own cell by one and no other counter |
| `Spine.CellsWithinCohort` | src/sessions/spine-rescan.service.ts:116-148 | no cell exceeds its cohort; the day-0 cell equals it exactly when every row of the cohort has bit 0 |
| `SpineRescan.SpineRescanService.RescanGame` | src/sessions/spine-rescan.service.ts:54-114 | the tables after the nested bitmap loops and the GREATEST upserts are the old ones raised to the spine's cardinalities |
| `SpineRescan.SpineRescanService.VerifyD0Invariant` | src/sessions/spine-rescan.service.ts:116-148 | both violation counts: rows without bit 0, and cohorts whose size row differs from their day-0 row; ok exactly when neither occurs |
| `SpineRescan.RescanIsExact` | src/sessions/spine-rescan.service.ts:86-114 | from a lagging table a rescan equals the pure projection and a second one changes nothing |
| `SpineRescan.RescanExactIffLags` | src/sessions/spine-rescan.service.ts:86-114 | a rescan is exact if and only if no table row was already ahead |
| `SpineRescan.D0AfterRescan` | src/sessions/spine-rescan.service.ts:116-148 | after a rescan of a lagging table no cohort mismatches exactly when every spine row has bit 0 |
| `SpineRescan.CohortMismatchIff` | src/sessions/spine-rescan.service.ts:116-148 | and a cohort mismatches exactly when one of its own rows lacks bit 0 |
| `SpineRescan.MismatchedIff` | src/sessions/spine-rescan.service.ts:116-148 | in any table a cohort is counted exactly when its size is larger or smaller than its day-0 cell |
| `SpineRescan.MissingIff` | src/sessions/spine-rescan.service.ts:116-148 | and a user exactly when the bitmap is empty or starts with a clear bit |
| `SessionTime.CorrectionKeepsSpan` | src/sessions/session-time.ts:75-109 | for every clock offset both ends are at most server-received, no span grows, and an ordered interval keeps its span unless its end is a claim on the future |
| `SessionTime.CorrectionPlaces` | src/sessions/session-time.ts:75-109 | within a minute of skew an interval stays, beyond it keeps its distance from the message, and an end in the server's future moves back to receipt |
| `SessionTime.TrustedDurationFromRawSpan` | src/sessions/session-time.ts:112-152 | the duration is the corrected span, for a coherent session the raw span, cut at the cap and raised to the minimum; a trusted end after receipt comes from the minimum only |
| `SessionHooks.DeriveIsDerived` | src/sessions/session-time.ts:112-152 | whatever is derived, at any offset and knobs, meets what `SessionsConserved` asks of a session |
| `SessionTime.ProbeLands` | src/sessions/session-time.ts:161-175 | the day probe lands in the named day exactly for offsets 0..719, over the whole configured range |
| `SessionTime.DurOnDayIsOverlap` | src/sessions/session-time.ts:161-175 | the computed share is the true overlap with the day the probe lands in |
| `SessionTime.DaySplitConservesIff` | src/sessions/session-time.ts:131-175 | the split never books more than the duration, and all of it if and only if the session and the offset meet a stated guard |
| `SessionTime.ShortSessionSplits` | src/sessions/session-time.ts:131-152 | a session of at most 24 hours is conserved, and has a second day exactly when it reaches past its first |
| `SessionTime.WestOfUtcLosesDuration` | src/sessions/session-time.ts:161-175 | at offset -1 a ten-minute session books no duration |
| `SessionHooks.SessionsConserved` | src/sessions/session-hot.hook.ts:81-102 | over a loss-free run at any configured offset counts sum to the sessions, touching counts exceed them by the two-day sessions, and durations never exceed the trusted ones and reach them if and only if every session meets the guard |
| `LogicalDay.DayBoundsBracket` | src/common/kernel/logical-day.ts:82-96 | for every integer offset the bounds bracket the instant and exactly the instants of its day |
| `LogicalDay.SealClock` | src/common/kernel/seal.ts:43-57 | all instants of a day share one seal state, which only advances and never lags a later day; it is open exactly until the day is over and sealed exactly from a grace window later |
| `LogicalDay.SealTestsAgree` | src/cold-storage/nightly-shipment.service.ts:81-83 | shipment's probe lands in its own day and agrees with the kernel; the purchase join's test differs at the seal instant only |
| `DimCombo.SanitizeIsSinglePass` | src/monetization/dim-combo.ts:58-60 | the three sequential replaces equal one escaping pass |
| `Strings.Unsanitize` | src/monetization/dim-combo.ts:63-78 | the scanning loop drops one level of backslashes |
| `Strings.UnescapeEscape` | src/monetization/dim-combo.ts:58-78 | unescaping undoes escaping on every string |
| `Strings.LexLessAt` | src/monetization/dim-combo.ts:82-92 | the order of names and event ids is decided at the first difference, the end of a string coming first |
| `DimCombo.BuildDimCombo` | src/monetization/dim-combo.ts:82-92 | the builder's loop equals the sorted, escaped, joined specification |
| `DimCombo.SplitUnescaped` | src/monetization/dim-combo.ts:120-140 | the splitter's loop equals the specification that skips escaped separators |
| `DimCombo.ParseDimCombo` | src/monetization/dim-combo.ts:97-112 | the parser's loops equal the specification |
| `DimCombo.DimComboRoundTrip` | src/monetization/dim-combo.ts:82-112 | parsing a built combo returns exactly the resolved map, for all values, empty or missing becoming `unknown` |
| `DimCombo.DimComboInjective` | src/monetization/dim-combo.ts:82-92 | two combos over the same dimensions are equal exactly when they resolve the same |
| `DimCombo.DimComboOrderIndependent` | src/monetization/dim-combo.ts:82-92 | reordering the configured dimensions never re-keys a cell |
| `DimCombo.DimComboHasActive` | src/monetization/dim-combo.ts:115-117 | a combo has a dimension exactly when it was active |
| `DimCombo.TwoDimsFormat` | src/monetization/dim-combo.ts:82-92 | the written form of two dimensions, in name order whatever order they are configured in |
| `DimCombo.ValueFormat` | src/monetization/dim-combo.ts:58-60 | a delimiter or a backslash in a value is written with a backslash before it |
| `MonKeys.SanitizeProductIdIsSinglePass` | src/monetization/mon-keys.ts:77-79 | the two replaces equal one escaping pass |
| `MonKeys.ParseCellKey` | src/monetization/mon-keys.ts:101-116 | the scanning parser equals its specification |
| `MonKeys.CellKeyRoundTrip` | src/monetization/mon-keys.ts:96-116 | any product id and any combo come back from the key |
| `MonKeys.CellKeyInjective` | src/monetization/mon-keys.ts:96-98 | two cells share a field only if they are one cell, and no cell is the seeded marker |
| `MonKeys.LocFieldRoundTripIff` | src/monetization/mon-keys.ts:119-135 | the local field parses back if and only if the currency is non-empty and free of `#` |
| `MonKeys.KeyFormats` | src/monetization/mon-keys.ts:77-135 | the written forms of a cell key and of a local field |
| `MonKeys.HashFormat` | src/monetization/mon-keys.ts:77-79 | a `#` in a product id is written with a backslash |
| `PurchaseRollup.PurchaseHotHook.ResolveValue` | src/monetization/cardinality-guard.service.ts:33-72 | the whole registry and the answer of the admit-or-overflow script |
| `PurchaseRollup.AdmitLaws` | src/monetization/cardinality-guard.service.ts:33-49 | the registry never outgrows its cap, never forgets, and a repeated question gets the same answer |
| `PurchaseRollup.PurchaseHotHook.RollupServerRow` | src/monetization/purchase-hot.hook.ts:160-208 | the whole rollup, staging and registry after one accepted row, the day rehydrated from its floor on a miss |
| `PurchaseRollup.PurchaseHotHook.JoinCompanion` | src/monetization/purchase-hot.hook.ts:216-275 | the whole rollup, staging and registry after one companion: sealed, moved, unmoved or staged, the purchase's day rehydrated on a miss |
| `PurchaseJoin.RowIsCountedIn` | src/monetization/purchase-hot.hook.ts:160-208 | the one cell a row is counted in: server dimensions as derived, client ones as staged and guarded, `unknown` for want of either; count, revenue, local money, category and payer there, and nothing else |
| `PurchaseJoin.CompanionMovesTo` | src/monetization/purchase-hot.hook.ts:228-262 | a companion leaves the purchase in the cell with its guarded values and otherwise the counted ones, one row and its money out of the old cell and into the new |
| `PurchaseLedger.MoveConservesIff` | src/monetization/purchase-hot.hook.ts:105-124 | the move completes and keeps the day's row count exactly when neither amount is negative, and then keeps revenue |
| `PurchaseLedger.RunAgrees` | src/monetization/purchase-hot.hook.ts:160-262 | over every run, with days lost and faithfully rehydrated, every cell, total, day field and staged record agrees with a ledger of the accepted purchases |
| `PurchaseLedger.MoneyConserved` | src/monetization/purchase-hot.hook.ts:76-124 | per day, cell counts, revenue and local money equal what the accepted rows add up to, and equal the day's own total fields; a day is missing only if it was lost or nothing was accepted |
| `PurchaseLedger.CellIsItsPurchases` | src/monetization/purchase-hot.hook.ts:160-262 | each cell is the aggregate of the purchases now attributed to it, so it is never negative |
| `PurchaseLedger.EmptyFloorIsFaithful` | src/monetization/monetization-floor.provider.ts:28-129 | a day without purchases is rehydrated faithfully from no durable cell at all |
| `PurchaseJoin.JoinIsConfluentIff` | src/monetization/purchase-hot.hook.ts:216-343 | whatever companions of the attempt came before, server row then companion leaves the same rollup and registry as the other order if and only if no earlier companion gave another value of some dimension that the registry newly admits |
| `PurchaseJoin.JoinIsConfluent` | src/monetization/purchase-hot.hook.ts:216-343 | in particular for an attempt with nothing staged yet |
| `PurchaseJoin.EarlierCompanionDisplaces` | src/monetization/cardinality-guard.service.ts:33-49 | from an empty world, two companions that disagree on the region leave different registries in the two orders |
| `PurchaseJoin.MoveKeepsServerDims` | src/monetization/purchase-hot.hook.ts:318-343 | a move changes no server dimension of the combo it starts from |
| `PurchaseJoin.RecomputeIsStable` | src/monetization/purchase-hot.hook.ts:318-343 | recomputing from the moved combo finds the moved combo |
| `PurchaseJoin.CompanionIdempotent` | src/monetization/purchase-hot.hook.ts:216-275 | a second delivery of a companion changes nothing |
| `MonetizationFlush.ProjectMonetizationCell` | src/monetization/monetization-flush-plans.ts:107-191 | the scan of the four hashes yields one row per named cell with its four measures |
| `MonetizationFlush.LocFloor` | src/monetization/monetization-floor.provider.ts:48-59 | the floor holds exactly the fields some cell and currency were written for |
| `MonetizationFlush.SeedThenFlushIff` | src/monetization/monetization-floor.provider.ts:28-69 | seeding from any durable cells and flushing gives the cells back if and only if every currency is non-empty and free of `#` |
| `MoneyPath.CellsAgreeWithLedger` | src/monetization/monetization-flush-plans.ts:107-191 | the cells a flush of an agreeing day writes hold exactly the accepted revenue, and as local sums exactly those of the purchases |
| `MoneyPath.FlushedFloorIsFaithful` | src/monetization/monetization-floor.provider.ts:28-129 | the floor read back from the cells of a flushed day agrees with the ledger in every cell, total and day field |
| `MoneyPath.LossAfterFlushIsHarmless` | src/monetization/purchase-hot.hook.ts:484-494 | losing a day's hashes after a flush and rehydrating them at the next purchase continues the clean run, so no money is lost |
| `PurchaseGate.PurchaseDurableHook.Write` | src/monetization/purchase-durable.hook.ts:117-215 | all three tables and the token after one delivery: eligibility, tier read first, claim, writes |
| `PurchaseGate.PurchaseDurableHook.ClaimFull` | src/monetization/purchase-dedup-gate.service.ts:93-114 | insert-if-absent on the transaction id; `claimed` exactly when it was absent |
| `PurchaseGate.PurchaseDurableHook.ClaimTransaction` | src/monetization/purchase-dedup-gate.service.ts:70-83 | the kernel's check reports presence and inserts nothing |
| `PurchaseGate.ClaimsAreEligible` | src/monetization/purchase-durable.hook.ts:134-140 | the claimed ids are exactly those of the eligible deliveries |
| `PurchaseGate.AcceptedIffFirst` | src/monetization/purchase-durable.hook.ts:183-192 | a delivery is accepted exactly when it is the first eligible one of its transaction id, in whatever game |
| `PurchaseGate.MoneyExactlyOnce` | src/monetization/purchase-durable.hook.ts:161-260 | over every delivery sequence lifetime spend and the sum of period rows both equal the normalized sum over distinct claimed transactions |
| `PurchaseGate.PeriodRowIsSpend` | src/monetization/purchase-durable.hook.ts:246-260 | each period row is the payer's distinct-transaction spend of that period |
| `PurchaseGate.FirstDayIsWriteOnce` | src/monetization/purchase-durable.hook.ts:224-243 | the first purchase day stays that of the first accepted delivery, and the flag says whether any was parked |
| `PurchaseGate.TierIsPrePurchase` | src/monetization/purchase-durable.hook.ts:86-106 | exactly the first accepted purchase is tiered `first`; later tiers follow the distinct money before them, or abstain exactly after a parked one |
| `PurchaseGate.TokenIsAsOf` | src/monetization/purchase-durable.hook.ts:161-215 | step 8 is handed the delivery, its as-of amount, which lifetime and period row have just grown by, and whether it was parked |
| `PurchaseGate.OnlyServerMoneyCounts` | src/monetization/purchase-durable.hook.ts:117-140 | a token is accepted exactly for a verified production server row with an unclaimed id; every other delivery changes nothing and gets its own token |
| `PurchaseGate.DuplicatesAreNoOps` | src/monetization/purchase-durable.hook.ts:183-200 | redelivery at any lateness, and ineligible rows, change no table |
| `Fx.NormalizeIsAsOf` | src/monetization/fx.service.ts:72-124 | the rate used is that of the latest date not after the day; parked exactly when none is recent enough; the product is within half a unit |
| `Fx.LaterRatesIrrelevant` | src/monetization/fx.service.ts:99-124 | a rate dated after the purchase day never changes its conversion |
| `Fx.AddedRates` | src/monetization/fx.service.ts:72-124 | added rates never park a conversion, and change it if and only if one is dated after the rate it used and not after the day |
| `Fx.RoundTiesAway` | src/monetization/fx.service.ts:50-59 | a tie rounds away from zero, and negative amounts like positive ones |
| `Reconciliation.ReconciliationService.RecomputeOpenDay` | src/monetization/reconciliation.service.ts:90-136 | every cell, the generation used, the number of cells changed, the day total, the payer-day row and every payer after a recompute |
| `Reconciliation.ReconciliationService.ClearConvertedPayers` | src/monetization/reconciliation.service.ts:227-263 | a flagged payer whose every purchase converts at its own day loses the flag and gets the rebuilt lifetime; nobody else changes |
| `Reconciliation.ClearByUser` | src/monetization/reconciliation.service.ts:227-263 | user by user: flagged and without a parked purchase of their own means rebuilt from exactly their purchases, anyone else is unchanged |
| `Reconciliation.RecomputedByCell` | src/monetization/reconciliation.service.ts:90-120 | a recompute changes only a cell's revenue, to the sum of its converted local sums, and then lifts its generation above every cell's |
| `Reconciliation.ClearIsRight` | src/monetization/reconciliation.service.ts:221-263 | when rates have only been added, the flag afterwards says exactly whether some purchase is still parked; a cleared payer's lifetime is the converted sum, and so is an unflagged one's unless a conversion was superseded |
| `Reconciliation.SupersededIff` | src/monetization/reconciliation.service.ts:234-252 | a purchase converts otherwise than when it was accepted if and only if a rate was added between the one it used and its day |
| `Reconciliation.SupersededLifetimeStays` | src/monetization/reconciliation.service.ts:227-233 | a payer who was never flagged keeps a lifetime that such a rate has made wrong |
| `Reconciliation.ReconciliationService.ReconcileDay` | src/monetization/reconciliation.service.ts:148-178 | the delta, whether a repair was made, and the cells after it |
| `Reconciliation.ReconciliationService.BookDeltaToUnknown` | src/monetization/reconciliation.service.ts:181-219 | the correction lands in the all-unknown cell under a generation above every cell's |
| `Reconciliation.BookingIsExact` | src/monetization/reconciliation.service.ts:181-219 | a booking moves total revenue by exactly the delta and touches no count, no local sum and no other cell |
| `Reconciliation.ReconcileIsWithinTolerance` | src/monetization/reconciliation.service.ts:148-178 | afterwards revenue is within 10^-6 or a billionth of the derived sum, above or below; it changed exactly when it was not, and then to that sum |
| `Reconciliation.CorrectionCell` | src/monetization/reconciliation.service.ts:181-193 | the correction cell is product `unknown` with every active dimension `unknown` |
| `Reconciliation.ReconcileSettles` | src/monetization/reconciliation.service.ts:148-178 | after a reconcile a second one repairs nothing; after a repair revenue equals the derived sum |
| `Reconciliation.RecomputedDayDrift` | src/monetization/reconciliation.service.ts:90-120 | recomputed revenue is within half of 10^-6 per purchase and per local sum of purchase-by-purchase revenue |
| `MoneyPath.LocalSumsAreCells` | src/monetization/reconciliation.service.ts:103-113 | the local sums a recompute multiplies are those of the purchases attributed to each cell |
| `MoneyPath.UnchangedRatesNeedNoRepair` | src/monetization/reconciliation.service.ts:148-178 | over every clean run at unchanged rates the durable cells a flush leaves have exactly the derived revenue, so a reconcile repairs nothing |
| `MoneyPath.RecomputeThenReconcile` | src/monetization/reconciliation.service.ts:90-178 | at any rates, once those cells are recomputed a reconcile's delta is at most half a unit per purchase and per local sum |
| `BalanceLww.WinsTrichotomy` | src/economy/eco-keys.ts:224-232 | of two reports exactly one wins, unless they carry the same keys |
| `BalanceLww.WinsByKeys` | src/economy/eco-keys.ts:224-232 | the later balance wins, then the later receipt, then the larger event id |
| `BalanceLww.BalanceLwwService.GuardedUpsert` | src/economy/balance-lww.service.ts:58-101 | the hash, marker and dirty set after the script, and exactly when it applies |
| `BalanceLww.BalanceLwwService.Upsert` | src/economy/balance-lww.service.ts:117-154 | a missing entry is compared with the durable row, so a report older than it is rejected |
| `BalanceLww.BalanceLwwService.FlushBucket` | src/economy/economy-flush-plans.ts:188-213 | after a flush every user's row is the old one merged with the entry, and no other row changed |
| `BalanceLww.ArrivalOrderIsIrrelevant` | src/economy/balance-lww.service.ts:58-154 | loss-free runs that compared the same reports hold the same entry, whatever the order, duplicates, interleaved reads and flushes |
| `BalanceLww.RunHoldsMaxima` | src/economy/balance-lww.service.ts:58-101 | without loss the hash holds each user's maximum under the strict order |
| `BalanceLww.QuiescentFlushStoresMaximum` | src/economy/economy-flush-plans.ts:64-72 | one flush after a loss-free run stores the maximum's balance |
| `BalanceLww.DurableNeverOlder` | src/economy/economy-flush-plans.ts:64-72 | over every run with losses, stale seeds and delayed or repeated writes no durable balance is displaced by an older one |
| `BalanceLww.DurableWasReported` | src/economy/economy-flush-plans.ts:188-213 | a durable row's balance, time and provenance are those of one report |
| `BalanceLww.AcceptedAfterLossIff` | src/economy/economy-floor.provider.ts:91-111 | a report that lost to the winner is accepted after a loss exactly when it lost only by the tie-break keys and beats the neutral ones |
| `BalanceLww.LoserDisplacesIff` | src/economy/economy-flush-plans.ts:188-213 | from any state a loss, the loser's redelivery and a flush put the loser into the durable row under exactly that condition |
| `BalanceLww.TieBreakIsNotDurable` | src/economy/economy-floor.provider.ts:91-111 | a whole run from the start in which a report that lost a tie reaches the durable row |
| `EcoKeys.EcoFieldRoundTripIff` | src/economy/eco-keys.ts:76-110 | a field parses back if and only if no part but the reason holds the separator |
| `EcoKeys.ParseInverts` | src/economy/eco-keys.ts:101-110 | what a field parses to builds it back, so no two fields name one measure of one cell |
| `EcoKeys.FieldFormat` | src/economy/eco-keys.ts:75-83 | the written form of an amount field and of a count field |
| `EconomyRead.EconomyReadService.MergeLiveOverDurable` | src/economy/economy-read.service.ts:217-258 | totals, counts and per-reason sums are sums over cells of the per-cell maximum |
| `EconomyRead.MergedIsMaxima` | src/economy/economy-read.service.ts:217-258 | a merged cell is any durable or live one, with the larger amount and the larger count |
| `EconomyRead.CellAddsToView` | src/economy/economy-read.service.ts:121-196 | what one more cell adds to a view: to its own side and reason, if it has the currency and provenance asked for |
| `EconomyRead.EmptyViewIsZero` | src/economy/economy-read.service.ts:121-196 | the view of no cells is zero |
| `EconomyRead.EconomyReadService.EconomyDay` | src/economy/economy-read.service.ts:121-196 | an open day shows the merge, any other the durable cells; provisional exactly when a live field of the currency exists |
| `EconomyRead.EconomyReadService.FlushBucket` | src/economy/economy-flush-plans.ts:91-129 | projecting and upserting a hash leaves exactly the per-cell maxima |
| `EconomyRead.EconomyReadService.SeedBucket` | src/economy/economy-floor.provider.ts:43-56 | seeding adds the floor fields and overwrites no live value |
| `EconomyRead.FlushIsTransparent` | src/economy/economy-flush-plans.ts:37-46 | flushing what was read at any earlier moment, whole or in part, leaves every merged cell as it was |
| `EconomyRead.FlushedHashMayGo` | src/economy/economy-flush-plans.ts:37-46 | after a flush the live hash may be dropped, or flushed again, without changing a merged cell |
| `EconomyRead.SeedIsTransparent` | src/economy/economy-floor.provider.ts:43-56 | seeding the hash changes no merged cell |
| `EconomyRead.SeedThenFlushIsIdentity` | src/economy/economy-floor.provider.ts:43-56 | seeding an empty hash and flushing it into an empty table rebuilds every durable cell and no other |
| `EconomyRead.RunKeepsView` | src/economy/economy-read.service.ts:121-196 | between increments no interleaving of seeds, flush reads and delayed or repeated writes changes any view |
| `SessionTracker.SessionTracker.OnCapture` | packages/sdk-client/src/session.ts:137-160 | a capture's whole effect is its plan of steps; the id it returns is the persisted open session |
| `SessionTracker.SessionTracker.OnTimerFire` | packages/sdk-client/src/session.ts:170-181 | an expired session is ended at its last activity; an early fire re-arms |
| `SessionTracker.SessionTracker.EndSession` | packages/sdk-client/src/session.ts:188-207 | memory is cleared, the terminal event enqueued, then the record cleared, in that order |
| `SessionTracker.SessionTracker.Reconcile` | packages/sdk-client/src/session.ts:119-130 | a surviving record is closed with its persisted last activity |
| `SessionTracker.SameSessionIff` | packages/sdk-client/src/session.ts:137-181 | two successive captures with only timer fires between them belong to one session exactly when they are less than the timeout apart |
| `SessionTracker.CaptureContinuesIff` | packages/sdk-client/src/session.ts:137-160 | a capture within the timeout continues the live session and emits nothing; a later one ends it at its last activity and begins a fresh one |
| `SessionTracker.CaptureBegins` | packages/sdk-client/src/session.ts:137-160 | with no live session a capture begins a fresh one |
| `SessionTracker.TimerEndsIff` | packages/sdk-client/src/session.ts:170-181 | an early timer fire changes nothing; from the timeout on it ends the session |
| `SessionTracker.TimeoutIsLate` | packages/sdk-client/src/session.ts:137-207 | whatever is run or killed, a `timeout` event is emitted only for the latest session and at least the timeout after its last activity |
| `SessionTracker.CloseEndsSession` | packages/sdk-client/src/session.ts:210-213 | a close ends the live session now, and does nothing with none |
| `SessionTracker.ReinitComesFirst` | packages/sdk-client/src/session.ts:119-130 | after a kill nothing runs before the re-init, which closes a surviving record at its last activity |
| `SessionTracker.NextKeeps` | packages/sdk-client/src/session.ts:119-213 | every operation, completed or killed after any step, keeps the tracker's invariant |
| `SessionTracker.ExactlyOneTerminal` | packages/sdk-client/src/session.ts:188-207 | a registered session is the one open persisted session or has ended, with one terminal event plus one per kill between enqueue and clear |
| `SessionTracker.SessionsHaveNoIdleGap` | packages/sdk-client/src/session.ts:137-160 | no two successive activities of a session are a timeout apart, and terminal events carry the true first and last activity |
| `SessionTracker.SessionsDoNotOverlap` | packages/sdk-client/src/session.ts:137-207 | on a wall clock that never goes back session intervals do not overlap |
| `OfflineQueue.MemoryAdapter.Push` | packages/sdk-client/src/storage.ts:76-84 | the queue after an append at the cap, and how many rows were evicted |
| `OfflineQueue.MemoryAdapter.Remove` | packages/sdk-client/src/storage.ts:88-91 | exactly the rows with the given handles leave |
| `OfflineQueue.LocalStorageAdapter.Push` | packages/sdk-client/src/storage.ts:153-167 | what the web store holds after evicting until a write is accepted, and the drop count |
| `OfflineQueue.LongestFitIs` | packages/sdk-client/src/storage.ts:153-167 | the store keeps the longest suffix that fits |
| `OfflineQueue.LocalDropsCountIff` | packages/sdk-client/src/storage.ts:153-167 | the drop count is right if and only if some suffix fits or nothing was stored |
| `OfflineQueue.OfflineQueue.Enqueue` | packages/sdk-client/src/queue.ts:44-53 | an enqueue adds the evictions to the overflow counter |
| `OfflineQueue.PushKeepsCap` | packages/sdk-client/src/queue.ts:44-53 | the cap bounds the queue for good |
| `Transport.Transport.ApplyTtl` | packages/sdk-client/src/transport.ts:142-151 | the partition by age, money rows always unexpired |
| `Transport.Transport.TakeByteBounded` | packages/sdk-client/src/transport.ts:158-167 | the batch is the specified prefix |
| `Transport.Transport.Send` | packages/sdk-client/src/transport.ts:180-225 | what each class of answer does to the queue, the pause and the failure streak |
| `Transport.ExpiryTakesOldRows` | packages/sdk-client/src/transport.ts:142-151 | an expiry takes exactly the peeked rows that are not money and older than the ttl |
| `Transport.AnswerByStatus` | packages/sdk-client/src/transport.ts:204-225 | for every status code, what happens to the batch, the queue, the pause and the streak |
| `Transport.AnswerWithoutStatus` | packages/sdk-client/src/transport.ts:180-209 | without a fetch nothing changes; a network error only lengthens the streak |
| `Transport.PeekTakesFourBatches` | packages/sdk-client/src/transport.ts:105-112 | a peek takes up to four batches' worth of the oldest rows, unless paused |
| `Transport.DrainEmptiesQueue` | packages/sdk-client/src/transport.ts:105-139 | acked all the way and undisturbed, a drain leaves the queue empty |
| `Transport.Transport.Flush` | packages/sdk-client/src/transport.ts:105-139 | for every answer sequence, and whatever is captured at each await, the flush ends in the state the drain specification gives |
| `Transport.FlushIsARun` | packages/sdk-client/src/transport.ts:105-139 | a flush with captures at its awaits is a run of the interleaved protocol |
| `Transport.RoundPostsPrefix` | packages/sdk-client/src/transport.ts:105-167 | whatever is captured meanwhile, a round posts the greedy FIFO prefix of the unexpired peeked rows within both limits, and its answer sets pause and streak |
| `Transport.RoundRemoves` | packages/sdk-client/src/transport.ts:105-139 | with nothing captured meanwhile, exactly the expired rows and a prefix with a final answer leave the queue |
| `Transport.EveryRowIsAccountedFor` | packages/sdk-client/src/transport.ts:105-225 | over every interleaving of captures, peeks, expiries and answers each captured row is resident, acked, refused, expired or overflowed, once, or twice if evicted in flight; acks are in capture order; money is never expired |
| `Transport.OneFateIff` | packages/sdk-client/src/transport.ts:105-139 | every captured row has exactly one fate if and only if no row was evicted between its peek and its expiry or between its post and a final answer |
| `Transport.CountedTwiceIff` | packages/sdk-client/src/transport.ts:119-123 | for one request, some row of the batch is counted twice if and only if the answer is final and what is captured meanwhile does not fit |
| `Transport.FirstRowCountsTwice` | packages/sdk-client/src/transport.ts:119-123 | a run from the start, with a cap of one row, that counts its first row as overflowed and as acked |
| `ObjectRef.ObjectRefInjective` | src/cold-storage/object-ref.ts:23-28 | distinct game days get distinct keys |
| `ObjectRef.RefFormat` | src/cold-storage/object-ref.ts:23-28 | the written form of a key, and that exactly a slash or two dots in a row are refused |
| `ObjectRef.PrefixScopesGame` | src/cold-storage/nightly-shipment.service.ts:297-317 | a sweep's prefix matches the keys of its own game and no other |
| `Shipment.NightlyShipmentService.ShipFile` | src/cold-storage/nightly-shipment.service.ts:175-239 | bucket, rows and verdict after one file: missing, rejected, failed, mismatched or recorded |
| `Shipment.VerdictsMean` | src/cold-storage/nightly-shipment.service.ts:175-239 | a shipped file has equal bytes in the bucket and its row, a flagged one does not decode and is not touched, a failed one gets no row |
| `Shipment.TalliesAddUp` | src/cold-storage/nightly-shipment.service.ts:151-158 | the shipped counter is the number of new rows, and distinct files without a row meet one verdict each |
| `Shipment.NightlyShipmentService.SealFiles` | src/cold-storage/nightly-shipment.service.ts:133-150 | the files that go on are the sealed ones whose writer drained; each other sealed file counts as failed |
| `Shipment.NightlyShipmentService.RetentionPass` | src/cold-storage/nightly-shipment.service.ts:264-290 | exactly the due, recorded files of the game are deleted and stamped, each failure isolated; the count is of those completed |
| `Shipment.RetentionByFile` | src/cold-storage/nightly-shipment.service.ts:264-290 | file by file: before `uploadedAt` plus the local retention nothing changes; from then on an unstamped file of the game is removed and stamped |
| `Shipment.GoesOnlyWhenDue` | src/cold-storage/nightly-shipment.service.ts:264-290 | over every run, a file is removed or stamped only by a worker that found its row unstamped and that much later than the clock of the worker that recorded it |
| `Shipment.NightlyShipmentService.ExpireOlderThan` | src/cold-storage/s3-client.service.ts:181-205 | exactly the old objects under the prefix are deleted |
| `Shipment.NightlyShipmentService.RunGame` | src/cold-storage/nightly-shipment.service.ts:123-168 | the whole state and all six counters after a pass: seal, ship, retention, raw expiry |
| `Shipment.ShipIsARun` | src/cold-storage/nightly-shipment.service.ts:175-239 | an undisturbed shipment is a run of the interleaved protocol |
| `Shipment.RetirementsAreARun` | src/cold-storage/nightly-shipment.service.ts:264-290 | the retention pass, in any order and with any failures, is a run of the protocol |
| `Shipment.PassIsARun` | src/cold-storage/nightly-shipment.service.ts:123-168 | a whole pass, seal failures, ships, retention and sweep, is a run of the protocol |
| `Shipment.RecordedOnlyIfHeld` | src/cold-storage/nightly-shipment.service.ts:203-231 | over every run, whatever the bucket stores, a row exists only after the bucket held equal bytes under the file's reference |
| `Shipment.DeletedOnlyIfRecorded` | src/cold-storage/nightly-shipment.service.ts:264-290 | a local file disappears only by the retention step and only if its row exists |
| `Shipment.RejectedStaysLocal` | src/cold-storage/nightly-shipment.service.ts:189-201 | a file the gate rejects is never uploaded, recorded or deleted |
| `Shipment.NeverLost` | src/cold-storage/nightly-shipment.service.ts:123-317 | over runs that overlap, fail or crash anywhere and uploads that store anything until verify vouches for one, final content stays local or in the bucket until a raw-retention sweep |
| `Shipment.FinalFileIsDurable` | src/cold-storage/nightly-shipment.service.ts:133-158 | a file that is final, unrecorded and in no one's hands meets what `NeverLost` starts from |
| `Shipment.SweepIsScoped` | src/cold-storage/s3-client.service.ts:181-205 | a sweep removes only objects of its own game older than the retention |
| `Shipment.SweepIsExact` | src/cold-storage/nightly-shipment.service.ts:297-317 | and takes exactly those, and nothing else |
| `Shipment.AppendSafeIff` | src/workers/kernel/ingest-kernel.ts:194-203 | in every reachable state, no continuation loses a late append if and only if the row, the object and the jobs meet a stated guard at the append |
| `Shipment.AppendSafeBeforeDeletionIff` | src/workers/kernel/ingest-kernel.ts:194-203 | the plain guard, no row awaiting deletion and every job on the file still to read it, always suffices; for new content of a file not yet deleted locally it is also necessary |
| `Shipment.LateAppendIsLost` | src/cold-storage/nightly-shipment.service.ts:149-155 | bytes appended after a file was shipped are deleted with it and never shipped |
| `Shipment.RacingAppendIsLost` | src/cold-storage/nightly-shipment.service.ts:175-231 | from the start, bytes appended after a shipment has read the file and before it is recorded can be lost |
| `Shipment.LostIff` | src/cold-storage/nightly-shipment.service.ts:123-290 | over every unswept run content is lost if and only if the local copy is gone and the last upload to land stored something else |
| `Shipment.RetirementLosesIff` | src/cold-storage/nightly-shipment.service.ts:203-290 | a due recorded file loses its content to a later retirement if and only if the last of the remaining uploads to land stored something else |
| `Shipment.OverlapLosesAFile` | src/cold-storage/nightly-shipment.service.ts:175-290 | a run from the start, with two overlapping workers, in which that happens |

## Left out

- Gregorian dates, `Date.parse` and the calendar month of a spend period: days are indices and a period is an input.
- Binary floating point: amounts are fixed-point integers, rates are reals, and `toFixed(6)` is rounding half away from zero.
- Losing some hashes of a day and keeping others, or losing a day after purchases that were not flushed: a day is lost as a whole, and `PurchaseLedger.CleanRun` asks that its floor hold the day's last purchase; from an older floor the day simply goes on from the older sums. Progress of generation-guarded flushes after a recompute is not guaranteed by the code.
- Concurrent handling of one purchase attempt: server rows and companions are handled one at a time; the code does not guarantee more.
- PurchaseJoin.JoinIsConfluentIff: is stated for an attempt without a counted server row and an unsealed day, because a second server row of an attempt replaces what the companion would move, and a sealed day refuses the move by design.
- PurchaseLedger.MoneyConserved: is stated for rows without negative amounts, currencies the field grammar can carry and floors that hold the day's purchases, because `PurchaseLedger.MoveConservesIff` and `MonKeys.LocFieldRoundTripIff` show the code fails outside the first two, and `MoneyPath.FlushedFloorIsFaithful` shows a flush gives the third.
- Shipment.NeverLost: assumes that once the object is verified or recorded a later upload of the file stores what it is sent, and that the content is final; `Shipment.LostIff` and `Shipment.RetirementLosesIff` say exactly when the first costs the content, `Shipment.AppendSafeIff` when a later append does.
- BalanceLww.ArrivalOrderIsIrrelevant: assumes that event ids tell reports apart, as the ingest dedup provides; reports with equal keys and different balances keep whichever came first.
- Expiry times of staging hashes: expiry is a step that may come at any moment.
- Set union of the active-user hash beyond one event, payer membership flushes, segment hashes and the currency cap: the same patterns with fewer branches.
- Economy ratios, low-volume flags, top-N lists, money supply and percentiles: arithmetic over the totals proved here.
- The byte encoding of a balance entry in its hash field: entries are compared decoded; strings are compared by code units.
- SHA-256: a checksum is taken to identify its bytes.
- Paging of bucket listings, credentials and client caching: the bucket is one map.
- Storage failures of the session tracker's record, IndexedDB, gzip, `sendBeacon` and the unload flush: the memory adapter's behaviour stands for the key-value store.
- Reentrant operations of the session tracker while one awaits storage: they run to completion or are killed.
- Purchases accepted while a payer's lifetime is being rebuilt: clearing reads and writes a payer in one step.
- Raw expiry that fails partway through its listing, and failures of the configuration or table reads of a pass.
- Modules, controllers, guards, panels, queues, logging, validation of configuration, personal-data erasure and cryptography: plumbing without state properties of this kind.
