# LobsterRoll, verified

A Dafny model of the parts of LobsterRoll whose correctness lies in whole runs rather than
in one function: how the watcher turns chain logs into trades without losing or repeating
any, how the trader places each approved order at most once, how the watched wallets travel
from the leaderboard to the watcher, and how consensus is counted; with the small algorithms
they rest on. `dafny verify dfyconfig.toml` checks everything.

Each component is modelled in two layers. A function on values says what one operation does
(`ChainWatch.Batch`, `Caps.Reserve`, `Leaderboard.Broadcasted`, `Window.Record`); a class
with the source's fields, loops and order of effects is proved to compute exactly that
function; and the laws are proved about runs of the functions. Where several calls run
interleaved, the run is a state machine with one step per critical section, transaction or
external call.

## Components

- **Watcher** (`ChainWatch`, `ChainSafety`, `ChainBatching`, `ChainFlags`, `Engine`, `Dedup`). A run is any
  sequence of cycles with restarts in between. Every external write asks an oracle whether
  it takes effect and is reported, fails, or takes effect although reported as failed; so a
  crash between two writes is a failed next write followed by a restart. Assumed of the
  environment, and spelled out as `ChainOk`, `FeedOk` and `ScriptOk`: a fixed watchset, no
  reorgs, unique log identities, a transaction in one block, a complete `FilterLogs`, a
  subscription that activates no later than the higher head read and then delivers each
  later log once and in block order, and a quiet tick only when the last block is complete.
  That no log is committed twice needs more: head reads that never decrease, and a
  subscription that activates between the two of its cycle. The first scanned block is the
  first one ever persisted: the head of an earlier cycle that failed is not scanned. The
  cursor is not monotone: a live flush of a block inside the catch-up range moves it back,
  and the theorems hold all the same.
- **Decoding** (`Decode`, `Aggregation`, `Decimal`, `Transfers`), from an already decoded event on.
- **Trader** (`Trader`, `TraderHandler`, `PlacementLaws`, `Caps`, `Placements`). Handlers interleave freely,
  with redeliveries, halt flips, failed or ambiguous writes and crashes.
- **Watchset replication** (`Replication`, `Leaderboard`, `Feeder`, `Watchset`). The syncer's
  Replace and Broadcast, the server's bounded queues, the feeder's snapshot and stream,
  other subscribers, and crashes on both sides. What is under way to the watcher (wire,
  queue, committed but not yet broadcast) is one path; the invariant says what the path
  says of each wallet. A change whose broadcast is cut off by a crash, or never made because
  its commit seemed to fail, counts as broadcast at that time.
- **Consensus** (`Window`, `Consensus`, `WindowMeaning`, `GapFree`, `Aggregator`,
  `SignalMeaning`), the window against a specification that keeps the full history and against
  the deliveries themselves, and the signals that reach the bus.
- **Approval** (`Approval`, `ApprovalRuns`), with any number of calls in flight.
- **Sets and metrics** (`GenSet`, `TtlSet`, `Freshness`, `Stats`, `StatsLaws`,
  `StatsMeaning`).

`Seqs`, `Sorted` and `Arith` hold the general lemmas, and `Effects` how an external write ends.

Throughout: floats are reals; hashes, addresses and token ids are numbers, which order as
their fixed-width texts do; clocks are integers; elements that a Go sort or map iteration
may leave in any order are taken in any order, except that trades equal in (TxHash,
LogIndex) keep their order of first appearance.

## Where the code does less than its comments say

- Decisions are described as made at most once per proposal; a proposal delivered twice, or
  whose publish took effect though reported as failed, can be decided twice
  (`ApprovalRuns.OnceExactly`).
- The committed total is said never to exceed a cap under concurrency
  (services/trader/internal/caps/caps.go:4-6). For the open exposure and for the day's spend
  that is true only of limits that allow no trade (`Caps.ExposureCapExactly`,
  `Caps.DailyCapExactly`), which the service's configuration refuses
  (services/trader/internal/config/config.go:94-96): a sell makes room for buys and its
  release takes the room back, and a late release makes room that was never taken. The
  exposure cap holds when only buys are released, and for serial placements
  (`Caps.ExposureWithinCap`, `TraderHandler.SerialRunWithinCap`); the daily cap when releases
  are timely (`Caps.DaySpendExact`).
- A fill is described as the wallet's own view of the event; a wallet that trades with itself
  gets the taker's view twice (`Transfers.TransfersExactly`, `Transfers.SelfTradeCountedTwice`).
- A release is described as rolling back the day's spend; after midnight it takes from the
  new day (`Caps.ReleaseExactness`, `Caps.LateReleaseErasesSpend`).
- Reaping a fired row is described as dropping only dissipated cohorts; with a threshold
  below two the full history would not have reset it, and it fires again. The service's
  configuration refuses such thresholds (services/consensus/internal/config/config.go:34-38)
  (`Consensus.RefinesExactly`).
- Consensus is described as firing each time a cohort grows to a new maximum; a fire whose
  commit or publish is reported as failed has raised the high-water and is never repeated
  (`Aggregator.SkippedExactly`).
- A reconnect is described as a resync; a snapshot only adds, so a removal broadcast while
  the watcher was away is never applied (`Replication.EqualExactly`). And a Replace whose
  commit takes effect though it reports an error is never broadcast
  (`Replication.UnreportedCommit`, `Replication.InclusionFails`).
- The dedup window is described as deep enough for the overlap of catch-up and live feed;
  it is exactly up to a gap of reorgDepth + 1 blocks (`ChainSafety.SingleCommitExactGap`).

## Model

| member | source | states |
|---|---|---|
| `ChainSafety.NothingLost` | services/watcher/internal/chainwatch/chainwatch.go:124-166 | no loss: in every state of every run, heads that go back included, each decodable watched log from the first persisted block up to the persisted cursor was consumed by a batch whose aggregated trades all stand on the bus, in order |
| `ChainSafety.EveryFillPublished` | services/watcher/internal/chainwatch/chainwatch.go:281-335 | so every watched wallet's fill in such a log is covered by a published trade of the same transaction, wallet, token and side |
| `ChainSafety.CommittedOnce` | services/watcher/internal/chainwatch/chainwatch.go:137-165 | in every state, one process has committed no (transaction, log index) twice, despite pruning, cursor regressions and flushes without advance, when heads do not go back and each catch-up head is at most 129 blocks past its subscription's activation |
| `ChainSafety.SingleCommitExactGap` | services/watcher/internal/chainwatch/chainwatch.go:147-161 | that bound is exact: with heads in order, no run commits a (transaction, log index) twice if and only if catch-ups reach at most 129 blocks past the activation, reorgDepth + 1 |
| `ChainSafety.CommittedTwice` | services/watcher/internal/chainwatch/chainwatch.go:281-335 | for every larger gap and every chunk size, a concrete failure-free run whose only log is committed by the catch-up, pruned, and committed again live |
| `ChainSafety.BatchKeeps` | services/watcher/internal/chainwatch/chainwatch.go:281-301 | one batch, however it ends, keeps the invariant; success with advance means everything up to the new cursor is committed |
| `ChainSafety.BackfillKeeps` | services/watcher/internal/chainwatch/chainwatch.go:185-205 | a backfill that fails at any chunk keeps the invariant; one that succeeds leaves the cursor at its end with the range scanned |
| `ChainSafety.RunLiveKeeps` | services/watcher/internal/chainwatch/chainwatch.go:210-275 | the live loop keeps the invariant over every feed and however it ends, buffered partial blocks included |
| `ChainSafety.CycleKeeps` | services/watcher/internal/chainwatch/chainwatch.go:124-166 | one cycle keeps the invariant whatever fails: head, cursor read, chunk, subscription, catch-up, live flush |
| `ChainSafety.RunKeeps` | services/watcher/internal/chainwatch/chainwatch.go:102-122 | every state reached by any number of cycles and restarts satisfies the invariant |
| `ChainFlags.CycleFlags` | services/watcher/internal/chainwatch/chainwatch.go:124-166 | whatever fails in a cycle whose subscription delivers nothing at or below the head read first, every trade it publishes is a watched wallet's, lies in a block the cursor did not cover, and is flagged backfilled if and only if its block is at or below that head |
| `ChainFlags.RunFlags` | services/watcher/internal/chainwatch/chainwatch.go:281-325 | so over all runs each trade on the bus is flagged by the first head of one of its cycles |
| `ChainFlags.BatchOk` | services/watcher/internal/chainwatch/chainwatch.go:281-335 | a batch succeeds if and only if each of its publishes and its cursor write was reported done, and then the cursor stands exactly at its block, or where it was when the batch does not advance |
| `ChainFlags.BackfillOk` | services/watcher/internal/chainwatch/chainwatch.go:185-205 | a backfill succeeds if and only if each of its reads and writes did, and then the cursor stands exactly at the end of the range; a failed one leaves it where it was or inside the range |
| `ChainFlags.LiveCursor` | services/watcher/internal/chainwatch/chainwatch.go:210-275 | in an undisturbed live loop the cursor stands at the block of the last flush, however blocks and ticks interleave |
| `ChainFlags.RunLiveCommitsBlocks` | services/watcher/internal/chainwatch/chainwatch.go:221-262 | whatever the feed delivers and in whatever order, each flush commits logs of one block and never a removed one |
| `ChainBatching.BatchPublishes` | services/watcher/internal/chainwatch/chainwatch.go:281-301 | a failure-free batch adds to the bus exactly the trades of its unseen watched fills, and marks exactly their logs |
| `ChainBatching.BackfillPublishesOneShot` | services/watcher/internal/chainwatch/chainwatch.go:185-205 | a failure-free backfill terminates, covers its whole range, and publishes as a multiset what one aggregation over all unseen watched fills would, through every pruning on the way |
| `ChainBatching.ChunkSizeIrrelevant` | services/watcher/internal/chainwatch/chainwatch.go:182-205 | two chunk sizes publish the same multiset of trades |
| `ChainBatching.LivePublishesOneShot` | services/watcher/internal/chainwatch/chainwatch.go:210-275 | block-by-block live flushing publishes what one aggregation over everything delivered would |
| `ChainBatching.LiveMatchesBackfill` | services/watcher/internal/chainwatch/chainwatch.go:137-165 | flushing a range from the live feed, in whatever order it delivers a block's logs, and backfilling it publish the same multiset of trades |
| `ChainBatching.CyclePublishesOneShot` | services/watcher/internal/chainwatch/chainwatch.go:124-166 | a whole failure-free cycle, replay, catch-up and overlapping live feed within the gap, publishes the multiset of one aggregation over the scanned range and the logs delivered above it |
| `ChainWatch.Watcher.ProcessLogs` | services/watcher/internal/chainwatch/chainwatch.go:281-301 | publish all, then mark, then advance: the watcher's new state and answer are exactly one Batch of the model |
| `ChainWatch.Watcher.EmitTrades` | services/watcher/internal/chainwatch/chainwatch.go:288-293 | trades are published in order up to the first reported failure, one that did publish included |
| `ChainWatch.Watcher.AdvanceTo` | services/watcher/internal/chainwatch/chainwatch.go:327-335 | the cursor write, and pruning only after it succeeded |
| `ChainWatch.Watcher.BackfillRange` | services/watcher/internal/chainwatch/chainwatch.go:185-205 | the chunk loop computes Backfill, with the chunk end capped at the range's end |
| `ChainWatch.Watcher.LiveLoop` | services/watcher/internal/chainwatch/chainwatch.go:210-275 | the select loop over buf, pendingBlock and grew computes RunLive for every sequence of events |
| `ChainWatch.Watcher.RunCycle` | services/watcher/internal/chainwatch/chainwatch.go:124-179 | one cycle of calls computes Cycle, the step of the runs above |
| `ChainWatch.ChunkEnd` | services/watcher/internal/chainwatch/chainwatch.go:185-205 | a chunk is never empty, never passes the range's end, and the next one starts right behind it |
| `Engine.ProcessBatch` | services/watcher/internal/engine/engine.go:36-79 | consumed logs are exactly the decodable, watched and unseen ones in input order; the trades are the aggregation of their fills; the largest block is reported; nothing is marked |
| `Engine.UnseenMember` | services/watcher/internal/engine/engine.go:46-64 | which logs a batch consumes: those of the input that are relevant and not marked |
| `Engine.FillsOfMember` | services/watcher/internal/engine/engine.go:66-78 | which fills it aggregates: those of the watched sides of its logs |
| `Engine.BuysMatchSells` | services/watcher/internal/decode/decode.go:183-213 | when both parties of every log are watched, over any batch the shares bought are the shares sold and the money paid is the money received |
| `Transfers.TransfersExactly` | services/watcher/internal/decode/decode.go:183-213 | read from the event alone, who gives and gets money and tokens: the fills of a log are these transfers, for every watched wallet and token, if and only if no watched wallet trades with itself for a nonzero amount |
| `Transfers.SelfTradeCountedTwice` | services/watcher/internal/decode/decode.go:183-213 | such a log gives the taker's side twice the shares and the maker's none |
| `Transfers.BatchTransfers` | services/watcher/internal/engine/engine.go:36-79 | over every batch without such a log, a watched wallet's bought and sold shares and paid and received money per token are exactly its transfers |
| `Transfers.TradesAreTransfers` | services/watcher/internal/decode/decode.go:215-280 | and the published sizes of its buys and of its sells, read back, add up to the tokens it got and gave |
| `Transfers.BackfillTransfers` | services/watcher/internal/chainwatch/chainwatch.go:185-205 | over a whole failure-free backfill after a restart, in however many chunks, the sizes on the bus add up to the tokens each watched wallet got and gave in the range |
| `Dedup.Seen.Mark` | services/watcher/internal/dedup/dedup.go:40-49 | reports whether the pair was marked, and keeps the block of the first mark |
| `Dedup.Seen.PruneBelow` | services/watcher/internal/dedup/dedup.go:53-61 | the map keeps exactly the entries at or above the block |
| `Decode.AggregateByTx` | services/watcher/internal/decode/decode.go:238-280 | both loops and the sort compute the grouping defined on whole lists of fills, in increasing order of transaction and log index |
| `Decode.Accumulate` | services/watcher/internal/decode/decode.go:239-262 | after the loop each key's accumulators hold exactly the sums over its own fills, and the keys stand in order of first appearance |
| `Decode.SortTrades` | services/watcher/internal/decode/decode.go:273-279 | the result is ordered by (TxHash, LogIndex) and a permutation of the input |
| `Aggregation.EachFillInOneGroup` | services/watcher/internal/decode/decode.go:238-262 | each fill is in the group of its own (tx, wallet, token, side), as often as in the input, and in no other |
| `Aggregation.MergedFillsConserve` | services/watcher/internal/decode/decode.go:238-280 | total USDC and total shares are conserved |
| `Aggregation.PublishedSizesConserveShares` | services/watcher/internal/decode/decode.go:215-280 | reading the published size texts back adds up to exactly the filled shares |
| `Aggregation.PublishedSidesConserveShares` | services/watcher/internal/decode/decode.go:215-280 | and so they do for each wallet, token and side apart |
| `Aggregation.PublishedReports` | services/watcher/internal/decode/decode.go:215-280 | every published trade reports the fills of its own key: size text exactly their shares, price text within half of 10^-6 of money over shares, least log index, their block; and no two trades have one key |
| `Aggregation.AverageBetweenBounds` | services/watcher/internal/decode/decode.go:215-272 | a group's average price lies between any bounds on its fills' prices, so between the smallest and the largest |
| `Aggregation.AggregatePermutation` | services/watcher/internal/decode/decode.go:238-280 | permuting the fills leaves the published multiset unchanged, when a transaction lives in one block |
| `Aggregation.PublishedIdsDistinct` | services/watcher/internal/decode/decode.go:238-280 | published (TxHash, LogIndex, Wallet) are pairwise different when a log gives a wallet fills in one group only |
| `Aggregation.EveryFillCovered` | services/watcher/internal/decode/decode.go:238-280 | every fill has a published trade of its group with a log index no later than its own |
| `Aggregation.AggregateConcat` | services/watcher/internal/decode/decode.go:238-280 | batches that share no transaction can be aggregated apart |
| `Decimal.FixedStringRoundTrip` | services/watcher/internal/decode/decode.go:292-309 | for every n and number of decimals, reading back fixedString(n, decimals) gives exactly n / 10^decimals, and the text is canonical |
| `Decimal.FixedStringParts` | services/watcher/internal/decode/decode.go:292-300 | the text before the dot reads n / 10^decimals, and a dot is printed exactly when n % 10^decimals is not zero |
| `Decimal.FixedStringInjective` | services/watcher/internal/decode/decode.go:292-309 | different amounts never print alike |
| `Decimal.TrimDecimalPreservesValue` | services/watcher/internal/decode/decode.go:303-309 | trimming keeps the value of every digits-dot-digits text and leaves nothing to trim |
| `Decimal.PriceStringNearest` | services/watcher/internal/decode/decode.go:283-289 | the printed price is within half of 10^-6 of usdc / shares, ties rounding up, in canonical text |
| `Decimal.RoundedIsNearest` | services/watcher/internal/decode/decode.go:283-289 | what FloatString rounds to is the nearest integer, the upper one in a tie |
| `Trader.AtMostOnce` | services/trader/internal/handler/handler.go:84-147 | over all interleavings of handlers, redeliveries, halt flips, failed or ambiguous writes and crash-restarts, at most one exchange call per proposal id |
| `Trader.OrdersFollowHaltCheck` | services/trader/internal/handler/handler.go:112-125 | each such call follows, in the same handler, a read of halted = false made after signing |
| `Trader.LiveOrdersReserved` | services/trader/internal/handler/handler.go:99-147 | in every state, the unreleased reservations are exactly those of handlers between reservation and release and those of orders the running process sent and the exchange did not reject, one each, of the proposal's size and side |
| `Trader.ExposureIsReservations` | services/trader/internal/handler/handler.go:99-147 | the open exposure is the loaded value plus the signed sum of those reservations |
| `Trader.BuysStayWithinCap` | services/trader/internal/caps/caps.go:77-116 | when all proposals are buys, no interleaving takes the open exposure over its cap |
| `Trader.ClaimKeeps` | services/trader/internal/store/store.go:59-72 | whatever the INSERT reports, including an error after it took effect, no two handlers hold one proposal |
| `Trader.UnclaimKeeps` | services/trader/internal/store/store.go:76-83 | unclaiming never frees a proposal whose order was sent |
| `Trader.OrdersWithinPerTrade` | services/trader/internal/handler/handler.go:99-128 | in every interleaving each exchange call is for its own handler's proposal, of a size within the per-trade cap |
| `Trader.KillSwitchHolds` | services/trader/internal/handler/handler.go:84-125 | while the kill switch stays on, with nobody between a check and what it clears, no interleaving claims a proposal or calls the exchange |
| `TraderHandler.PlaceIsARun` | services/trader/internal/handler/handler.go:84-147 | the sequential place refines the interleaved machine: its effect on store, ledger and kill switch and the exchange calls it makes, from any reachable state, are those of a run in which only this handler steps |
| `TraderHandler.SerialAtMostOnce` | services/trader/internal/handler/handler.go:84-147 | any serial run of placements, redeliveries and failing writes included, sends each proposal at most once |
| `TraderHandler.SerialRunWithinCap` | services/trader/internal/handler/handler.go:99-137 | so does every serial run of placements with arbitrary outcomes and sides |
| `PlacementLaws.PlaceReports` | services/trader/internal/handler/handler.go:84-171 | one call: a redelivery of a claimed proposal does nothing; any other reports exactly once, an accepted order with its own id and status and filled if and only if the status is matched, everything else as an unfilled failure; while halted nothing but the report happens |
| `PlacementLaws.SerialRunReports` | services/trader/internal/handler/handler.go:122-147 | over any serial run the results without error are, in order, the reports of the accepted orders, all others are failures without an order, and each rejected or ambiguous order has one |
| `PlacementLaws.SerialTableExact` | services/trader/internal/handler/handler.go:89-147 | over any serial run whose writes work, the table holds exactly the proposals sent, each with what the exchange answered, and still claimed those a cap stopped: every other proposal can be tried again |
| `PlacementLaws.PolicyExactly` | pkg/config/execmode.go:62-71 | a run of proposal events is the run of placements of the exempt ones: none under approval, all under auto, those below the ceiling under auto_below |
| `TraderHandler.Handler.PlaceOrder` | services/trader/internal/handler/handler.go:84-147 | the sequence of effects with its rollback paths computes Place: store, ledger, saved row, kill switch, exchange calls and reported results |
| `TraderHandler.Handler.OnApproved` | services/trader/internal/handler/handler.go:67-72 | only approved decisions place |
| `TraderHandler.Handler.OnProposed` | services/trader/internal/handler/handler.go:77-82 | only proposals the policy lets through without approval place |
| `Caps.ExposureConserved` | services/trader/internal/caps/caps.go:77-116 | from any exact state and under any interleaving of reserve, release, restart and failed saves, open exposure is the loaded value plus the signed sum of the unreleased reservations |
| `Caps.ReserveExactly` | services/trader/internal/caps/caps.go:66-96 | a reservation is granted if and only if the size is within the per-trade cap, the rolled spend with it within the daily cap and, for a buy, the exposure with it within its cap; it then counts in full, and otherwise not at all |
| `Caps.HoldsWithinPerTrade` | services/trader/internal/caps/caps.go:77-96 | under any interleaving every unreleased reservation is within the per-trade cap |
| `Caps.DaySpendExact` | services/trader/internal/caps/caps.go:66-109 | from any state whose spend is exact and within maxPerDay, when each release comes before the day rolls past its reservation, the day's spend stays exactly the open window's unreleased total and at most maxPerDay |
| `Caps.SpendExactFromRow` | services/trader/internal/caps/caps.go:47-109 | so a process that loads any row within the daily cap, or fails to, keeps its spend exact and within the cap as long as releases are timely |
| `Caps.ClampNeverFires` | services/trader/internal/caps/caps.go:100-109 | under that condition the clamp at zero never fires |
| `Caps.ReleaseExactness` | services/trader/internal/caps/caps.go:100-109 | the exact condition: a release leaves the spend exact if and only if it is timely or the spend is already zero |
| `Caps.LateReleaseErasesSpend` | services/trader/internal/caps/caps.go:100-109 | the concrete run in which a release after midnight erases the new day's spend |
| `Caps.RestartReloads` | services/trader/internal/caps/caps.go:47-62 | from any state whose row is current, with working saves a restart reloads the same exposure and, from the ledger's day on, the same spend |
| `Caps.ExposureWithinCap` | services/trader/internal/caps/caps.go:77-116 | from any state within cap, in any concurrent run in which only buys are released, open exposure never exceeds its cap |
| `Caps.ExposureCapExactly` | services/trader/internal/caps/caps.go:77-116 | the exact condition over runs: no interleaving of positive reservations and releases exceeds the exposure cap if and only if the cap is not negative and the limits allow no trade at all; and the same when every release is timely |
| `Caps.DailyCapExactly` | services/trader/internal/caps/caps.go:77-109 | likewise, what is committed in the open day window stays within maxPerDay in every run if and only if it is not negative and the limits allow no trade: a late release makes room for more |
| `Caps.SellReleaseExceedsCap` | services/trader/internal/caps/caps.go:77-116 | the concrete run, sell-reserve, buy-reserve, sell-release, that exceeds the cap |
| `Caps.CapsGuard.TryReserve` | services/trader/internal/caps/caps.go:77-96 | granted if and only if the three caps allow it; decision, new ledger and saved row are those of one Reserve of the model, for every limit and clock |
| `Caps.CapsGuard.GiveBack` | services/trader/internal/caps/caps.go:100-109 | the ledger and the saved row after a Release of the model |
| `Caps.CapsGuard.RollDay` | services/trader/internal/caps/caps.go:66-72 | only a later day resets the spend |
| `Placements.Store.TryClaim` | services/trader/internal/store/store.go:59-72 | the row is inserted once; the caller learns whether this call inserted it, or gets an error that leaves both possible |
| `Placements.Store.Drop` | services/trader/internal/store/store.go:76-83 | only a row still in status claimed is deleted |
| `Placements.Store.Mark` | services/trader/internal/store/store.go:111-119 | an existing row is updated, a missing one is not created |
| `Consensus.RecordRefines` | services/consensus/internal/window/window.go:87-201 | one Record answers, wallets, combined USD and fire flag, as the never-pruned, never-reaped history does, and stays its image |
| `Consensus.RunRelated` | services/consensus/internal/window/window.go:87-201 | so does every run with a nondecreasing clock and a threshold of at least two |
| `Consensus.RefinesExactly` | services/consensus/internal/window/window.go:103-127 | exact condition: pruning and reaping are unobservable if and only if minWallets >= 2 |
| `Consensus.ReapingObservable` | services/consensus/internal/window/window.go:115-127 | for every smaller threshold, a concrete run in which a reaped key fires again |
| `Consensus.BackwardClockObservable` | services/consensus/internal/window/window.go:103-113 | a concrete run in which a clock stepping back loses a row the full history still counts |
| `WindowMeaning.CohortExactly` | services/consensus/internal/window/window.go:87-164 | with a nondecreasing clock and for every window and threshold, the answer's wallets are exactly those of the inputs of its key whose second is no earlier than that of now - window, each once and in order, and the combined USD is the sum of their size times price; no table or cutoff in the statement |
| `WindowMeaning.FiresExactly` | services/consensus/internal/window/window.go:167-201 | a record fires if and only if its count reaches the threshold and exceeds every count its key has had since it was last below |
| `GapFree.FiresWithoutGaps` | services/consensus/internal/window/window.go:103-201 | from a fresh store, for any clock, the counts fired for a (token, side) since its row was last absent are, for minWallets >= 1, minWallets, minWallets + 1, … without repeat or skip |
| `GapFree.GapStep` | services/consensus/internal/window/window.go:167-201 | whenever a record fires, its count is the threshold or one more than the last |
| `Aggregator.SkippedExactly` | services/consensus/internal/aggregator/aggregator.go:58-90 | of the counts fired for a (token, side) since its row was last absent, those that reach the bus are increasing, none twice, and are exactly the ones whose own commit was reported and whose publish got through; every other count is skipped |
| `Aggregator.AfterIsRun` | services/consensus/internal/aggregator/aggregator.go:58-69 | tables and fired counts are those of the transactions that took effect, reported or not, backfilled trades excluded |
| `SignalMeaning.SignalsMean` | services/consensus/internal/aggregator/aggregator.go:58-90 | with a nondecreasing clock, every signal on the bus was made by one real-time, reported delivery and names at least minWallets wallets, exactly those that traded its key in the window before it, with the dollars they traded for |
| `SignalMeaning.ReplayInvisible` | services/consensus/internal/aggregator/aggregator.go:58-64 | leaving out the backfilled deliveries changes nothing in the tables or on the bus |
| `Aggregator.Aggregator.Handle` | services/consensus/internal/aggregator/aggregator.go:58-90 | one delivery's effect on the store and the bus: nothing for a replay, nothing on the bus for an unreported commit or a failed publish |
| `Window.Store.RecordTrade` | services/consensus/internal/window/window.go:87-164 | a transaction that takes effect computes Record, whether or not its commit is reported; a failed one changes nothing |
| `Window.Store.ReadCohort` | services/consensus/internal/window/window.go:129-153 | the grouped query's lines give each wallet once and the summed value of the rows in the window |
| `Window.Store.DecideFire` | services/consensus/internal/window/window.go:167-201 | the fired table and the answer of the high-water policy |
| `Replication.Replicated` | services/leaderboard/internal/server/server.go:112-198 | whenever the stream is open, not evicted, everything queued is consumed and no Replace awaits its Broadcast, the watcher's set is exactly the table, less what unannounced commits added, plus the wallets it held on subscribing whose last removal was broadcast before that and those that unannounced commits removed |
| `Replication.SupersetWhenReported` | services/leaderboard/internal/server/server.go:112-198 | when no commit takes effect but reports an error, the table is a subset of the watcher's set and every extra wallet's last removal was broadcast before this subscription registered |
| `Replication.EqualExactly` | services/watcher/internal/feeder/feeder.go:29-51 | the table is a subset of the watcher's set if and only if no unannounced commit added a wallet that nothing gave to the watcher, and the other way round if and only if nothing stale is held |
| `Replication.FeederFollows` | services/watcher/internal/feeder/feeder.go:59-92 | in every run the watcher's set is what the feeder's Run makes of the snapshots and messages that reached it, in their turns |
| `Replication.EqualityFails` | services/watcher/internal/feeder/feeder.go:29-36 | a concrete run that settles with a removed wallet still watched, because a snapshot only adds |
| `Replication.InclusionFails` | services/leaderboard/internal/store/store.go:158-165 | a concrete run that settles with a wallet of the table not watched, because the commit that added it seemed to fail |
| `Replication.RegisteredOrTold` | services/leaderboard/internal/server/server.go:149-198 | an open stream is registered if and only if it has not been told that it fell behind |
| `Replication.StepKeeps` | services/leaderboard/internal/server/server.go:112-198 | every step of either side, of other subscribers, of a crash, keeps the replication invariant |
| `Replication.RunKeeps` | services/leaderboard/internal/syncer/stats.go:301-308 | every state of every run, with Replace and Broadcast called in turn by the one syncer and commits that may take effect though reported as failed, satisfies it |
| `Replication.BroadcastKeeps` | services/leaderboard/internal/server/server.go:149-171 | a broadcast moves the committed change into the queue without changing what the path says of any wallet |
| `Replication.SendListKeeps` | services/leaderboard/internal/server/server.go:120-127 | listing after subscribing leaves no gap, whatever was queued in between |
| `Leaderboard.Server.Broadcast` | services/leaderboard/internal/server/server.go:149-171 | each registered subscriber with room gets the change, each without is removed and told; others are untouched; an empty change does nothing |
| `Leaderboard.Server.Subscribe` | services/leaderboard/internal/server/server.go:182-192 | a fresh, empty, registered channel under a new id |
| `Leaderboard.Server.Unsubscribe` | services/leaderboard/internal/server/server.go:194-198 | only the registration goes |
| `Leaderboard.Subscriber.Offer` | services/leaderboard/internal/server/server.go:161-169 | the non-blocking send: appended below 16, else the lost signal is closed |
| `Leaderboard.SlowSubscriber` | services/leaderboard/internal/server/server.go:149-171 | a subscriber that takes nothing keeps the first sixteen changes, and is evicted and told by exactly the seventeenth |
| `Leaderboard.Store.Replace` | services/leaderboard/internal/store/store.go:130-166 | the table becomes exactly the wallets given and the diff is returned; empty input, no change and a failed transaction leave it alone; a commit reported as failed may still have taken effect |
| `Leaderboard.Diff` | services/leaderboard/internal/store/store.go:29-53 | added and removed are the two set differences, each sorted and without repetition, whatever the inputs' order and repetitions |
| `Leaderboard.Store.List` | services/leaderboard/internal/store/store.go:120-122 | the table in increasing order |
| `Feeder.Feeder.Run` | services/watcher/internal/feeder/feeder.go:59-92 | after any turns the set is what all good snapshots and streamed changes make of it in order; ready is signalled exactly when a snapshot was good; the backoff attempt counts the turns since the last good snapshot |
| `Feeder.Feeder.Stream` | services/watcher/internal/feeder/feeder.go:39-51 | every message received is applied in order |
| `Feeder.Feeder.Snapshot` | services/watcher/internal/feeder/feeder.go:29-36 | a good snapshot only adds |
| `Watchset.Set.Apply` | services/watcher/internal/watchset/watchset.go:27-40 | adds, then removes, ignoring invalid addresses |
| `ApprovalRuns.DecisionsConserved` | services/notifier/internal/approval/approval.go:72-147 | for every non-empty proposal id, decisions on the bus plus the live entry plus claimed taps plus unregistered calls never exceed the OnProposal calls for it plus its publishes that took effect though reported as failed, over all interleavings, key collisions, failures and restarts |
| `ApprovalRuns.BoundReached` | services/notifier/internal/approval/approval.go:72-147 | and n calls can lead to n decisions, for every n |
| `ApprovalRuns.BudgetReached` | services/notifier/internal/approval/approval.go:72-147 | for every c of at least one and every u, there is a run with c calls, u publishes that took effect though reported as failed, and c + u decisions: the bound is reached |
| `ApprovalRuns.OnceExactly` | services/notifier/internal/approval/approval.go:1-5 | so at most one decision holds in every run with c calls and u such publishes if and only if c + u is at most one |
| `ApprovalRuns.DecisionsAsTapped` | services/notifier/internal/approval/approval.go:111-147 | in every run each decision on the bus approves, or rejects, only as a tap on that very button under its proposal's key asked for |
| `ApprovalRuns.OneButtonOneVerdict` | services/notifier/internal/approval/approval.go:111-147 | so a proposal whose approve button was never tapped is never approved, nor rejected without a tap on reject |
| `ApprovalRuns.HaltedPostsNothing` | services/notifier/internal/approval/approval.go:72-103 | while the kill switch stays on nothing is posted: whatever is undecided was so before |
| `ApprovalRuns.RestoreKeeps` | services/notifier/internal/approval/approval.go:139-147 | restoring after a failed publish never lets a tap count twice |
| `ApprovalRuns.ProposalIsARun` | services/notifier/internal/approval/approval.go:72-103 | an undisturbed OnProposal is the run of its own steps, as an undisturbed tap is (`TapIsARun`), so the interleaved machine and the manager's methods agree |
| `Approval.Manager.OnProposal` | services/notifier/internal/approval/approval.go:72-103 | the pending map after an undisturbed call: nothing while halted or after a failed send, else the proposal with its message id |
| `Approval.Manager.HandleCallback` | services/notifier/internal/approval/approval.go:111-156 | a second tap finds nothing; a publish reported as failed leaves the map as it was, whether or not the decision reached the bus |
| `Approval.Manager.WriteBack` | services/notifier/internal/approval/approval.go:97-101 | writing the message id back may recreate an entry with an empty proposal |
| `Approval.Manager.HandleCommand` | services/notifier/internal/approval/approval.go:159-183 | only the operator's /halt and /resume change the flag, and are published |
| `Approval.CallbackRoundTrip` | services/notifier/internal/approval/approval.go:193-199 | the texts put on the buttons, and no others, parse to their action and key |
| `Approval.TapExactly` | services/notifier/internal/approval/approval.go:106-156 | the operator's tap on a pending proposal's approve or reject button decides it that way and only a publish reported done takes it away; every other tap, unauthorized or unknown, changes nothing |
| `GenSet.SuffixTracked` | pkg/dedup/genset.go:22-53 | after any run the tracked keys are exactly a suffix of the accepted keys, pairwise distinct, of length at least min(accepted, max) and below 2 * max |
| `GenSet.NoRecentRepeat` | pkg/dedup/genset.go:31-46 | between two acceptances of one key lie at least max other acceptances |
| `GenSet.Set.Add` | pkg/dedup/genset.go:31-46 | new if and only if untracked, and then the latest accepted key; the generations are those of one Add, rotation included |
| `GenSet.Set.Len` | pkg/dedup/genset.go:49-53 | all the keys accepted so far while they are fewer than max, and then at least max and fewer than 2 * max of the latest ones |
| `TtlSet.AddMatchesHistory` | pkg/dedup/ttlset.go:32-69 | with a nondecreasing clock, Add answers true if and only if the whole history has no accepted, unremoved Add of the key less than ttl ago: the sweep is unobservable |
| `TtlSet.BackwardClockForgets` | pkg/dedup/ttlset.go:59-69 | a concrete run in which a clock stepping back makes a swept key new again within its ttl, right after the 512th add and not before |
| `TtlSet.Set.Add` | pkg/dedup/ttlset.go:32-42 | map, counter and answer of one Add, sweep included |
| `TtlSet.Set.Sweep` | pkg/dedup/ttlset.go:59-69 | every 512th call leaves exactly the unexpired keys |
| `TtlSet.Set.Remove` | pkg/dedup/ttlset.go:45-49 | only the key goes |
| `Freshness.CusumIsLargestSuffix` | services/leaderboard/internal/skill/freshness.go:38-48 | the running sum is the largest sum of (-z - 1/2) over a suffix of the clamped scores, or zero |
| `Freshness.NotFreshMeans` | services/leaderboard/internal/skill/freshness.go:8-50 | a not-fresh verdict forces a recent stretch with at least two returns more than half a deviation below the mean, for every series and deviation |
| `Freshness.FreshExactly` | services/leaderboard/internal/skill/freshness.go:29-50 | not fresh if and only if there are at least 20 returns, their deviation is at least 10^-9, and from some point on the scores, each clamped to 4, fall short of -1/2 by more than 5 in sum |
| `Freshness.ConstantIsFresh` | services/leaderboard/internal/skill/freshness.go:34-36 | a constant series is fresh |
| `Freshness.Fresh` | services/leaderboard/internal/skill/freshness.go:29-50 | the loops compute the verdict defined on the whole series |
| `Freshness.MeanVariance` | services/leaderboard/internal/skill/freshness.go:52-66 | both loops compute the mean and the population variance |
| `Freshness.Moments` | services/leaderboard/internal/skill/freshness.go:52-66 | mean and variance from the sum of the returns and the sum of their squares |
| `Stats.Compute` | services/leaderboard/internal/stats/stats.go:77-152 | the metrics are those of the resolved markets, each once and oldest first, with each market's accumulators equal to sums over its own rows |
| `Stats.Group` | services/leaderboard/internal/stats/stats.go:78-111 | after the loop the map has exactly the condition ids seen, each with the totals of its own rows |
| `Stats.Accumulate` | services/leaderboard/internal/stats/stats.go:85-110 | one row changes its market's totals as appending it to the rows would |
| `Stats.ResolvedOldestFirst` | services/leaderboard/internal/stats/stats.go:117-125 | exactly the resolved markets, each once, ordered by latest activity |
| `Stats.Summarize` | services/leaderboard/internal/stats/stats.go:127-151 | the summing loop computes counts, sums over markets with a cost basis, and ratios that are zero when undefined |
| `StatsLaws.StatsPermuted` | services/leaderboard/internal/stats/stats.go:77-152 | permuting the activity changes no scalar metric, and the returns only in the order of ties |
| `StatsLaws.ProfitIsCostTimesReturn` | services/leaderboard/internal/stats/stats.go:137-141 | RealizedPnL is the sum of cost times return |
| `StatsLaws.RoiBetweenReturns` | services/leaderboard/internal/stats/stats.go:137-150 | with deployed capital, which there is exactly when there are returns, ROI lies between any bounds on the returns |
| `StatsLaws.WinRateIsAShare` | services/leaderboard/internal/stats/stats.go:143-145 | the win rate is between 0 and 1 |
| `StatsMeaning.MarketByKind` | services/leaderboard/internal/stats/stats.go:69-110 | a market's net cash is what SELL, REDEEM and MERGE brought less what BUY and SPLIT took, its cost what BUY and SPLIT took, and it is resolved if and only if redeemed, or bought and sold again up to a thousandth |
| `StatsMeaning.StatsExactly` | services/leaderboard/internal/stats/stats.go:77-152 | all metrics from the activity alone: the closed markets count, the win rate is the share of them with positive net cash, profit, capital, ROI and returns are over those with money put in, oldest first |

## Left out

- Reorgs: a removed log is skipped, as in the source; nothing is said about trades already published from an orphaned block.
- ABI decoding, topic hashes, EIP-712, signatures and HMAC: a log carries its decoded event or none.
- SQL, NATS, gRPC, Telegram and HTTP themselves: only whether a call takes effect and what it reports.
- The text normalization of addresses, sides and tokens, and the parsing of size and price texts: values arrive normalized, unparsable numbers as None.
- Rat.FloatString: modelled from its documented rounding, nearest with halves away from zero.
- Results published by the trader that fail to publish: they are only logged there, so the model records them as reported.
- Caps.RestartReloads: rolling to a new day alone is not saved, so the reloaded day may lag behind until the next roll, as in the source.
- Replication.RegisteredOrTold: says nothing about when a client notices; streams and connections may linger as other subscribers.
- Freshness.Fresh: the square root is a parameter; the laws about the verdict hold for whatever it returns.
- Stats.Compute: the activity's JSON, its paging and the order of markets that tie in time are open.
- The time between a write and its effect, goroutine scheduling inside one critical section, float rounding.
- Log messages, metrics, alert texts, configuration loading and the gRPC statistics query.
- Sizing, exits, order-book reading, closing-line value, selection and shrinkage, backoff delays and enrichment caches: functions whose claims follow from reading one branch.
