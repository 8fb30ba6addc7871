# Matching engine and settlement: a verified model

This project models the two halves of a spot exchange and proves what holds of them together.

**The matching engine** keeps one book per market: bids and asks ordered by price, time and id.
An incoming order is inserted, taken out again and matched by a loop that re-scans the opposite
side after every fill, skipping orders of the same user. `ApplyMatchFill` is a second route to a
book state, used when recorded fills are replayed. Around the books the engine keeps an event
counter, a bounded sorted event buffer and the ids already applied, and it places orders in four
ways that differ in when ids are taken, rows are journalled, events are published and the book is
committed. The journal, the publisher, the snapshot and the recovery order make up a crash
protocol.

**Settlement** turns each match event into four balance updates, four hash-chained ledger rows,
one trade and two order updates, in one transaction per event, with decimals rounded toward zero.
A worker picks events one by one, retries, fails and halts; operators reset events, rebuild or
repair the ledger and close gaps in the balance ledger.

## How it is modelled

| module | what it holds |
|---|---|
| `Types`, `PriceTime`, `Matching`, `SweepPrices`, `Replay`, `BookRuns`, `ReusedIds`, `Priority` | orders, the key orders, the one-pass reference match, its prices, replay of fills, runs of a book, placements under used ids, and who stands and trades before whom |
| `OrderBooks`, `Engine`, `Wal` | the classes whose fields the source updates in place, each method proved against a function on values |
| `EventBuffer`, `EngineFacts`, `EngineRuns`, `RecoveryRuns`, `Persistence` | the event buffer and its poller, runs of the engine across markets, recovery of one placement and of a run, snapshots |
| `PossibleFills`, `CrashProtocol`, `CrashRestarts`, `PlainPlacements` | the fills one placement can have, the crash protocol as a step relation over all four ways of placing, the exact conditions on restarts, the order of plain placements' ids |
| `OrderAccounts`, `OrderLimits`, `Agreement`, `AgreementRuns`, `EngineFeeds` | per-order conservation and limits over runs, the agreement of engine and settlement, event by event and over runs of the worker, and a worker fed by engines |
| `Rounding`, `SettlementLines`, `Settlement`, `SettlementFacts` | decimal rounding, the lines of an event's digest, settling one event, what it conserves |
| `SettlementWorker`, `SettlementRuns`, `SettlementReplay`, `SettlementHealth`, `SettlementOutcomes` | the worker class, every run of it, settling again, conservation and termination, and what becomes of each event, said on balances and order rows |
| `LedgerChain`, `Rebuild`, `BalanceLedger`, `Backfill` | the hash chain and the four maintenance scripts |

Conventions:

- A decimal is an integer number of 10^-18; a market's precision is a positive integer `unit` and
  the values on its grid are the multiples of it. `price * qty` is computed exactly and then
  rounded.
- Ids and users are naturals with their usual order; SHA-256 and the textual forms of ids and
  amounts are functions passed in as a `Codec`, assumed one-to-one only in the two lemmas that say
  so (`Sound`), and never empty where the chain check is shown to pass (`NeverEmpty`).
- Clocks, the network and the outcome of file and stream operations are parameters or actions:
  an append is durable, or fails after some prefix of its lines; a publish is acknowledged or not.
- Trade value is price times quantity and the fees are 0.001 and 0.0005 of it, as
  `apps/backend/src/services/settlement/decimal-utils.ts` has them.
- Tables are maps and sequences in id order; a transaction is atomic, and a rollback restores what
  it had changed.

What the code does where its comments or a reader might expect something else:

- The journal scan drops a row that is acknowledged *anywhere* in the file, not only later; its
  comment says "later" (`matching-engine/src/wal.rs:126-175`). The model follows the code.
- Compaction keeps only the compacting engine's rows, so a shared file loses every other engine's
  unacknowledged rows (`Wal.CompactErasesOthers`).
- Recovery does not raise the event counter. Crash safety holds after a restart if and only if the
  restored counter exceeds every id that reached the journal or the stream
  (`CrashRestarts.CounterCondition`).
- A market's book need not take ids in increasing order across a restart: a row that was
  journalled, given up and never acknowledged is applied after later ids that the snapshot already
  holds (`CrashRestarts.OutOfOrderRestart`). `CrashRestarts.RestartOrder` says exactly when.
- A fill that was committed, published and acknowledged after the last snapshot is in no journal
  row that recovery reads, so the restarted book does not have it and its makers rest again
  (`CrashRestarts.ForgottenFill`). `CrashRestarts.RestoredIff` says exactly which fills a restarted
  book holds.
- Plain placement takes its ids after it has let the book go, so two placements of a market can be
  numbered against the order in which the book took them (`PlainPlacements.PlainDisorder`). They
  stay in order when each waits for the one before (`PlainPlacements.PlainIdsInOrder`), and
  whenever one does not wait they can be overtaken (`PlainPlacements.PlainMayOvertake`). A crash
  also loses the fills of plain placements that nothing has published yet.
- A crash, a publish that is given up or a failed acknowledgement loses no journalled event, and the
  publisher alone can work off what a restart finds (`CrashRestarts.RecoveryDrains`).
- The journal records fills, not insertions: replay succeeds only where the restored book already
  holds the taker (`EngineFacts.RecoveryNeedsTaker`).
- A snapshot reads orders and applied ids at different moments, and a commit stores the book before
  it notes the ids. Depending on where the two reads fall, recovery loses the fills or stops at a
  missing order (`Persistence.TornSnapshot`); `Persistence.SnapshotDuringPlacement` says exactly
  which snapshots recover.
- Order ids should not be in use when an order is placed: a reused id can make the engine match a
  different order and leave a crossed book (`BookRuns.ReusedIdCrossesBook`). Which order is taken
  out is settled by `BookRuns.InsertThenRemove`, and which reuses are harmless by
  `ReusedIds.ReusedIdUncrossed`.
- A market taker's execution prices may improve during a sweep, because an unpriced maker trades at
  zero behind the priced ones; `SweepPrices.MarketTakerImproves` says exactly when.
- A poller misses an event whose insertion is overtaken by a poll of a higher id
  (`EventBuffer.OvertakenInsertIsMissed`) and one that has the buffer's capacity of higher ids above
  it when the next poll comes. `EventBuffer.PollerSees` shows that these are all it misses.
- The in-transaction ledger check passes if and only if ledger and balances agreed on the four
  accounts beforehand (`SettlementFacts.LedgerCheckIff`). So from an empty ledger that agrees with
  the balances nothing can ever be traded (`SettlementHealth.ClosedRunHoldsNothing`): the ledger
  needs opening rows.
- In a market of an asset against itself each user's quote update overwrites the base update, so
  the ledger check refuses every fill of a non-zero quantity (`SettlementFacts.PostOutcome`).
- An event that is settled again does not always get its hash back. The first settlement sorts the
  ledger lines before formatting them and a later one after, so a market like USD against USDT,
  where one symbol begins the other, gets another digest (`SettlementReplay.UsdUsdtChangesHash`);
  `SettlementReplay.ResettlingKeepsHash` gives the exact condition.
- A rebuild drops opening rows from the sums (`Rebuild.RebuildKeepsSums`), and with maker
  rebates switched on it credits makers of buys twice their fee on top (`Rebuild.RebatesDrift`).
- The reset script leaves pending rows stuck if its threshold is above the worker's
  (`SettlementRuns.ResetReachesAll`).
- The reconcile script rolls back if an account has several balance rows and the ledger does not
  already agree with each (`BalanceLedger.ReconcileCommits`).

## Model

| member | source | states |
|---|---|---|
| `PriceTime.BeforeIsTotalOrder` | matching-engine/src/orderbook.rs:26-102 | Bid and ask keys are strict total orders: irreflexive, asymmetric, transitive, and any two different keys compare. |
| `Priority.BeforeIsAhead` | matching-engine/src/orderbook.rs:40-54 | A key comes first exactly when its order has the better price, any price being better than none, or at equal price the earlier time, or at equal price and time the lower id; on both sides. |
| `PriceTime.PutSorted` | matching-engine/src/orderbook.rs:127-140 | Inserting keeps a side sorted and holds exactly the new order and the old ones under other keys. |
| `Matching.RescanStep` | matching-engine/src/orderbook.rs:193-240 | Filling the first eligible maker and re-scanning from the front equals going on from that maker in a single pass. |
| `Matching.RescanStuck` | matching-engine/src/orderbook.rs:193-202 | When the loop stops, the single pass has nothing more to do either. |
| `Matching.GreedyPriority` | matching-engine/src/orderbook.rs:185-299 | The fills are with a prefix of the eligible makers in price-time order, all but the last filled completely; the eligible queue loses exactly that much from its front; same-user and non-crossing orders stay as they were. |
| `Matching.SweepConserves` | matching-engine/src/orderbook.rs:206-239 | Event quantities add up to what the taker lost and to what the makers lost together. |
| `Matching.EventsComeFromMakers` | matching-engine/src/orderbook.rs:203-231 | Every event is a fill of the taker with an eligible maker; no event has one user on both sides. |
| `Matching.SweepWithinLimit` | matching-engine/src/orderbook.rs:167-181 | No execution price is worse for a limit taker than its limit. |
| `Matching.SweepPricesMonotone` | matching-engine/src/orderbook.rs:193-290 | Execution prices only get worse for the taker as the sweep goes on, if the taker has a limit or all makers are priced. |
| `Priority.SweepServesInPriority` | matching-engine/src/orderbook.rs:193-240 | If a sweep trades with one maker, every maker of another user whose price meets the taker's and that has a better price, or the same and an earlier time, or the same and a lower id, is used up by it. |
| `Priority.SweepEventsTell` | matching-engine/src/orderbook.rs:206-231 | Every event of a sweep names the taker and a maker that could trade with it, their users and sides, at the maker's price, else the taker's, else zero, and takes no more than the maker has. |
| `SweepPrices.MarketTakerImproves` | matching-engine/src/orderbook.rs:203-231 | For a taker without a limit the prices get better at some point of the sweep if and only if the priced eligible makers cannot fill it, an unpriced one stands behind them, and the last priced one asks more than zero or bids less than zero. |
| `SweepPrices.MarketTakerMayImprove` | matching-engine/src/orderbook.rs:211-215 | A concrete market taker whose second price is better than its first. |
| `SweepPrices.SweepTradesIff` | matching-engine/src/orderbook.rs:167-202 | A sweep has events if and only if the taker has something remaining and some maker of another user has no price, or the taker has none, or the buyer's price is at least the seller's. |
| `OrderBooks.OrderBook.constructor` | matching-engine/src/orderbook.rs:119-124 | A new book is empty and ordered. |
| `OrderBooks.OrderBook.CloneOf` | matching-engine/src/engine.rs:184-190 | A trial book starts as a copy of the live one. |
| `OrderBooks.OrderBook.Insert` | matching-engine/src/orderbook.rs:127-140 | The order is on its side under its key; the other side is unchanged and both stay sorted. |
| `OrderBooks.OrderBook.RemoveOrderById` | matching-engine/src/orderbook.rs:149-157 | Bids are searched before asks and the first hit is taken out; nothing else changes. |
| `OrderBooks.OrderBook.MatchBuy` | matching-engine/src/orderbook.rs:192-241 | The re-scanning loop over asks ends with the taker, asks and events of the one-pass sweep, and terminates. |
| `OrderBooks.OrderBook.MatchSell` | matching-engine/src/orderbook.rs:242-292 | The same for bids. |
| `OrderBooks.OrderBook.MatchOrders` | matching-engine/src/orderbook.rs:185-299 | Taking an order out, sweeping and putting the rest back gives the book and events of `MatchOrder`. |
| `OrderBooks.OrderBook.Cancel` | matching-engine/src/orderbook.rs:302-305 | Exactly the entries with that id are gone from both sides. |
| `OrderBooks.OrderBook.ApplyMatchFill` | matching-engine/src/orderbook.rs:309-374 | Both orders are reduced by the event's quantity, or the error the source gives is returned and the book is as it was. |
| `Replay.ReplayEquivalence` | matching-engine/src/orderbook.rs:309-374 | For every well-formed book of positive orders, applying the events of a match one by one succeeds at every step and ends in exactly the book the match leaves. |
| `OrderAccounts.FillOutcome` | matching-engine/src/orderbook.rs:309-374 | What one replayed fill does, order by order: which error in which order of checks, or exactly the two orders reduced, gone when nothing is left, and all others unchanged. |
| `BookRuns.InsertThenRemove` | matching-engine/src/orderbook.rs:149-157 | Looking up an order's id right after inserting it finds that order and leaves the old book if and only if no older entry shadows it. |
| `BookRuns.ApplyFillKeeps` | matching-engine/src/orderbook.rs:309-374 | A replayed fill that succeeds keeps the book well formed and positive, and every order is an old one with less remaining. |
| `BookRuns.PlaceKeeps` | matching-engine/src/orderbook.rs:185-299 | Placing a fresh order keeps a book well formed, positive and uncrossed; an order with nothing remaining changes nothing. |
| `BookRuns.CancelKeeps` | matching-engine/src/orderbook.rs:302-305 | Cancelling keeps all of that and frees the id. |
| `BookRuns.RestingTakerIsBlocked` | matching-engine/src/orderbook.rs:193-240 | If a taker has something left, no eligible maker is left. |
| `BookRuns.ReachableBooks` | matching-engine/src/orderbook.rs:185-374 | In every state reachable from an empty book by fresh placements, cancellations and replayed fills, a bid and an ask of different users are both priced with the bid lower, and every resting order has something remaining. |
| `Priority.ReachableInPriority` | matching-engine/src/orderbook.rs:26-140 | In every reachable book both sides stand in order of price, then time, then id. |
| `Priority.PlacementsServeInPriority` | matching-engine/src/orderbook.rs:185-299 | The next placement in any reachable book trades exactly when some maker's price meets it, at the makers' prices, passes over nobody and trades no more than it has. |
| `BookRuns.ReusedIdCrossesBook` | matching-engine/src/orderbook.rs:149-157 | Placing an ask under the id of a resting bid leaves a crossed book. |
| `BookRuns.ReusedIdTakesBid` | matching-engine/src/orderbook.rs:149-157 | There the engine matches the resting bid instead of the new ask. |
| `ReusedIds.ReusedIdUncrossed` | matching-engine/src/orderbook.rs:149-299 | Placing an order with something to trade under any id leaves an uncrossed book uncrossed if and only if nobody is found before it, or whoever is uses it up, or it could trade with nobody else. |
| `EventBuffer.BinarySearch` | matching-engine/src/engine.rs:66-72 | The search finds the number of entries with a smaller id: where the id is, or belongs. |
| `EventBuffer.InsertKeepsTop` | matching-engine/src/engine.rs:66-80 | An insertion keeps the buffer equal to the highest ids ever inserted with their first payload. |
| `EventBuffer.BufferIsTopOfHistory` | matching-engine/src/engine.rs:66-80 | Under any insertion order, with repeats, the buffer is the `cap` highest ids ever inserted, strictly sorted, each with its first payload. |
| `EventBuffer.TopUnique` | matching-engine/src/engine.rs:66-80 | Only one buffer fits that description. |
| `EventBuffer.NewerIs` | matching-engine/src/engine.rs:291-300 | A poll returns, in order, exactly the buffered events above the cursor. |
| `EventBuffer.DroppedIff` | matching-engine/src/engine.rs:66-80 | The buffer has dropped an inserted id if and only if at least `cap` higher ids were inserted. |
| `EventBuffer.PollerSees` | matching-engine/src/engine.rs:291-300 | In every run of insertions and polls, after a poll the poller has seen every event exactly once and with its first payload, except precisely those first inserted at or below its cursor and those with at least `cap` higher ids at the first poll after their insertion. |
| `EventBuffer.LosesIff` | matching-engine/src/engine.rs:73-80 | A poll loses something to overflow if and only if more than `cap` ids above the cursor wait for it. |
| `EventBuffer.NothingLostIff` | matching-engine/src/engine.rs:73-80 | A run loses nothing to overflow if and only if none of its polls finds more than `cap` waiting. |
| `EventBuffer.SerialisedPollerSeesAll` | matching-engine/src/engine.rs:66-80 | With insertions in id order it has seen all but the overflowed ones, and all of them if and only if no poll finds more than `cap` events waiting. |
| `EventBuffer.OvertakenInsertIsMissed` | matching-engine/src/engine.rs:66-80 | Two insertions out of id order with a poll in between: the lower id is never seen. |
| `Wal.ScanAnswers` | matching-engine/src/wal.rs:128-175 | The scan is sorted by id and gives, for every id, the last row this engine wrote for it unless the id is acknowledged. |
| `Wal.CompactKeepsScan` | matching-engine/src/wal.rs:179-219 | Compaction keeps the compacting engine's scan, and compacting twice is compacting once. |
| `Wal.CompactErasesOthers` | matching-engine/src/wal.rs:179-219 | After compaction any other engine scans nothing. |
| `Wal.CompactThenAppend` | matching-engine/src/wal.rs:128-219 | For any later lines, scanning the compacted file with them equals scanning the full file with them if and only if no new row revives an acknowledged id unacknowledged. |
| `Wal.MatchWal.Open` | matching-engine/src/wal.rs:58-69 | Opening keeps the lines there are. |
| `Wal.MatchWal.AppendEventsBatch` | matching-engine/src/wal.rs:76-104 | One `evt` line per row, in order, all of them when it succeeds and a prefix when it fails. |
| `Wal.MatchWal.AppendAck` | matching-engine/src/wal.rs:107-124 | One `ack` line when it succeeds, at most that when it fails. |
| `Wal.MatchWal.ScanUnacked` | matching-engine/src/wal.rs:128-175 | The one-pass scan loop computes `Scan`. |
| `Wal.MatchWal.CompactKeepUnackedOnly` | matching-engine/src/wal.rs:179-219 | The file becomes exactly the rows the scan returns. |
| `Engine.Engine.constructor` | matching-engine/src/engine.rs:24-31 | No books, no events, counter at one, nothing applied. |
| `Engine.Engine.InsertMatchEventSorted` | matching-engine/src/engine.rs:66-80 | The buffer after one insertion, capped at `MAX_EVENTS`. |
| `Engine.Engine.InsertMatchEvents` | matching-engine/src/engine.rs:243-247 | All pairs enter the buffer, in order. |
| `Engine.Engine.RecordBookApplied` | matching-engine/src/engine.rs:56-63 | The ids of the pairs become applied, and no others. |
| `Engine.Engine.PlaceOrder` | matching-engine/src/engine.rs:143-171 | Book, consecutive ids, buffer and applied ids are those of `Placed`. |
| `Engine.Engine.Trial` | matching-engine/src/engine.rs:184-203 | A trial match returns the book and numbered events of a placement while the live books keep their contents; only the counter moves. |
| `Engine.Engine.Commit` | matching-engine/src/engine.rs:204-211 | Book, then buffer, then applied ids: the state a placement leaves. |
| `Engine.Engine.PlaceOrderCommitAfterPublish` | matching-engine/src/engine.rs:177-213 | On success the state and pairs are those of plain placement; on failure the books are unchanged. |
| `Engine.Engine.PlaceOrderWalThenCommitBook` | matching-engine/src/engine.rs:217-250 | The same, and every committed fill has its journal row before the commit. |
| `Engine.Engine.PlaceOrderWalPublishCommitBook` | matching-engine/src/engine.rs:253-288 | The same when both the append and the publish must succeed. |
| `Engine.Engine.ApplyReplayEvent` | matching-engine/src/engine.rs:124-139 | An applied id is skipped; otherwise the fill is applied, recorded and marked; an error leaves everything but an empty book entry. |
| `Engine.Engine.GetMatchEventsAfter` | matching-engine/src/engine.rs:291-300 | The buffered events above the cursor and the highest id. |
| `Engine.Engine.CancelOrder` | matching-engine/src/engine.rs:303-309 | The order leaves every market's book, one book at a time; nothing else changes. |
| `EngineRuns.MarketsAreTheirOwn` | matching-engine/src/engine.rs:124-309 | After any calls about any markets, with any callbacks failing, each market's book is what its own placements, cancellations and new replayed fills make of it; a refused placement with fills leaves no trace. |
| `EngineRuns.IdsAreConsecutive` | matching-engine/src/engine.rs:155-203 | Every fill, committed or refused, takes the next id, in order, over the whole run. |
| `EngineRuns.AppliedAreInBooks` | matching-engine/src/engine.rs:56-63 | The ids noted as applied are exactly those whose fills the run put into a book. |
| `EngineRuns.BufferHoldsTheNewest` | matching-engine/src/engine.rs:66-80 | After any run the buffer holds, in order, the five million highest ids among the fills committed or newly replayed, each with its first payload. |
| `Engine.Engine.LoadOrders` | matching-engine/src/engine.rs:91-97 | Each order is inserted in its market's book. |
| `Engine.Engine.RestoreFromPersistenceSnapshot` | matching-engine/src/engine.rs:83-101 | Books from the orders, empty buffer, the saved counter (at least one) and applied ids. |
| `Engine.Engine.RestoreOrderbook` | matching-engine/src/engine.rs:104-118 | Books from the orders, counter one past the given id, nothing applied. |
| `EngineFacts.ReplayIdempotent` | matching-engine/src/engine.rs:124-139 | Replaying an event again changes nothing and gives the same result. |
| `EngineFacts.CommittedRowsAreSkipped` | matching-engine/src/main.rs:504-530 | After a committed placement, replaying its own journal rows is a no-op. |
| `EngineFacts.ReplayAllIsApplyFills` | matching-engine/src/main.rs:504-530 | Replaying numbered rows of one market is the fold of the fills over its book, and records them all. |
| `EngineFacts.RecoveryCatchesUp` | matching-engine/src/main.rs:504-530 | Restored with the taker in its book and none of the ids applied, replay ends with the books, buffer and applied ids the placement itself would have left; the counter does not move. |
| `EngineFacts.RecoveryNeedsTaker` | matching-engine/src/orderbook.rs:326-337 | Without the taker in the book replay succeeds if and only if the order had nothing remaining or no eligible maker, and otherwise reports the missing order. |
| `RecoveryRuns.FillCommutes` | matching-engine/src/orderbook.rs:309-374 | Applying a fill and inserting an unrelated order can be done in either order. |
| `RecoveryRuns.RunRecovers` | matching-engine/src/main.rs:504-530 | With every order of a run of placements inserted in a restored engine, replaying all of the run's rows, across markets, ends with exactly the books, buffer and applied ids the run left. |
| `Persistence.CollectAllOrders` | matching-engine/src/engine.rs:38-47 | Exactly the resting orders of all books are listed. |
| `Persistence.BooksRoundTrip` | matching-engine/src/persistence.rs:24-65 | Saving the orders in any order and loading them gives the same books. |
| `Persistence.QuiescentRoundTrip` | matching-engine/src/persistence.rs:24-65 | Save and restore is the identity on books, counter and applied ids, and afterwards every sequence of placements, cancellations and replays is answered as before, fill for fill and under the same ids. |
| `Persistence.ChangesNothingIff` | matching-engine/src/orderbook.rs:185-299 | A placement leaves the book as it was if and only if its order has nothing remaining. |
| `Persistence.SnapshotDuringPlacement` | matching-engine/src/persistence.rs:24-36 | Whichever moments of a placement the two reads fall into, startup reaches the live book if and only if the order has nothing remaining, or the orders were read after the book was stored and either the ids after they were noted or no eligible maker was there. |
| `Persistence.TornSnapshot` | matching-engine/src/main.rs:516-523 | For an order that can trade: with the ids but not the fills, replay skips them and the makers' side is stale; with the fills but not the ids, replay stops at a missing order. |
| `CrashProtocol.CrashSafety` | matching-engine/src/engine.rs:143-288 | In every run of placements of all four kinds, with appends, publishes, commits, queueing, acknowledgements, failures, snapshots, crashes, compaction and recovery, with fresh counters: every fill that one of the three locked kinds committed is on the stream or comes back from the scan, each id is on the stream once, and no id stands for two events: not in the journal or on the stream, not in a market's log or in two, not between placements under way, and not for plain placements, published or not. |
| `CrashProtocol.ActionKeeps` | matching-engine/src/publish_pipeline.rs:173-245 | Every single step keeps the protocol's invariant. |
| `CrashProtocol.PublishFirstKeeps` | matching-engine/src/engine.rs:177-213 | So does publishing one event of a placement without a journal. |
| `CrashProtocol.NumberKeepsPlain` | matching-engine/src/engine.rs:155-160 | A plain placement that takes its ids takes none that any other placement has or had. |
| `CrashProtocol.RecoverKeeps` | matching-engine/src/main.rs:504-551 | Recovery by scan, replay onto the snapshot and republish keeps it when the restored counter is beyond all ids used; a replay that fails ends the process and changes nothing. |
| `CrashProtocol.CompactKeeps` | matching-engine/src/main.rs:405-416 | Compacting before start keeps it. |
| `PossibleFills.SeriesIsPossible` | matching-engine/src/orderbook.rs:185-299 | A single placement can have any number of fills of any positive size. |
| `CrashRestarts.RestartOrder` | matching-engine/src/main.rs:504-530 | A restart keeps each market's ids in the order its book takes them if and only if every scanned row the restored books do not hold comes after all those its market's book holds. |
| `CrashRestarts.IdsInOrder` | matching-engine/src/engine.rs:177-288 | In every run whose restarts meet that condition each market's book takes the ids of all three trial-and-commit kinds of placement in increasing order. |
| `CrashRestarts.OutOfOrderRestart` | matching-engine/src/engine.rs:235-243 | A run with fresh counters in which a book takes id 1 after id 2. |
| `CrashRestarts.CounterCondition` | matching-engine/src/engine.rs:83-139 | After a restart every later run is safe if and only if the restored counter exceeds every id that reached the journal or the stream; the unsafe runs use only fills that a placement can have. |
| `CrashRestarts.RestoredIff` | matching-engine/src/main.rs:504-530 | After a restart a market's book holds the fill of an id if and only if the snapshot had it or the journal scan returns its row. |
| `CrashRestarts.ForgottenFill` | matching-engine/src/engine.rs:253-288 | A run with fresh counters after which the running book lacks a fill it had committed, published and acknowledged. |
| `CrashRestarts.RecoveryDrains` | matching-engine/src/main.rs:532-551 | After a restart with a fresh counter the publisher alone can reach a state in which the scan is empty and every fill ever committed is on the stream. |
| `CrashRestarts.FailedPublishIsKept` | matching-engine/src/publish_pipeline.rs:232-238 | A publish that is given up leaves its event on the stream or in what the next scan returns. |
| `CrashRestarts.FailedAckIsHarmless` | matching-engine/src/publish_pipeline.rs:221-230 | An acknowledgement that fails leaves the event on the stream, where publishing it again changes nothing. |
| `CrashRestarts.CompactionLeavesScan` | matching-engine/src/wal.rs:179-219 | Compaction leaves exactly one line per row of the scan, in its order, and no acknowledgements. |
| `PlainPlacements.PlainIdsInOrder` | matching-engine/src/engine.rs:143-171 | In every run in which no plain placement stores its book while another of its market waits for its ids, their ids rise in the order the book took their fills. |
| `PlainPlacements.PlainMayOvertake` | matching-engine/src/engine.rs:143-160 | From every state in which one waits and the market is unlocked, another can store its book and take a lower id. |
| `PlainPlacements.PlainDisorder` | matching-engine/src/engine.rs:143-160 | The run of two plain placements whose ids go against the order of the book. |
| `OrderAccounts.SweepOnGrid` | matching-engine/src/orderbook.rs:206-218 | A sweep over orders on the market's grid trades on the grid and leaves orders on it. |
| `OrderAccounts.FillTracks` | matching-engine/src/orderbook.rs:309-374 | A fill takes its quantity from exactly its two orders. |
| `OrderAccounts.OrdersAreConserved` | matching-engine/src/orderbook.rs:185-305 | Over every run: a resting order has what it was placed with less what the events took; none is filled beyond that; one that is gone uncancelled is filled exactly; all events lie on the grid. |
| `OrderLimits.RunsStayWithinLimits` | matching-engine/src/orderbook.rs:167-231 | Over every run each event names a taker and a maker of different users with their ids and sides, is at the maker's price, else the taker's, else zero, and respects both limits. |
| `OrderLimits.LimitBuyOverRuns` | docs/settlement-worker-FULL.ts:163 | All the fills a limit buy ever gets, at whatever prices others set, are settled for no more than the limit times what was filled, and for less than one quote unit per fill below the exact total. |
| `Agreement.RoundingIsIdentity` | docs/settlement-worker-FULL.ts:161-162 | Settlement's rounding of an engine event's price and quantity changes nothing on the market's grid. |
| `Agreement.SettledInAnyOrder` | docs/settlement-worker-FULL.ts:459-477 | Any of the engine's events, each at most once and in any order, can all be settled, and each order row then stands at what it was placed with less those events. |
| `Agreement.EngineAndSettlementAgree` | docs/settlement-worker-FULL.ts:459-477 | Once every event is settled exactly once, in any order, the row of every resting order holds what the engine has left of it and the row of every used-up order has nothing left and is marked filled. |
| `Agreement.WorkerNeverFindsOrderShort` | docs/settlement-worker-FULL.ts:466-477 | Whatever was settled before, the worker never reports an order invariant violation for an engine event still to be settled. |
| `AgreementRuns.OrdersFollowCommits` | docs/settlement-worker-FULL.ts:459-477 | At every moment of every run of the worker the order table is what the commits so far made of it, in commit order. |
| `AgreementRuns.CommitsAreSettled` | docs/settlement-worker-FULL.ts:504-571 | The events processed after a run are those processed before and those it committed, each once. |
| `AgreementRuns.WorkerAgreesWithEngine` | docs/settlement-worker-FULL.ts:459-571 | However the worker is run, with failures, crashes, resets, deletes and any events of other orders and markets: once the processed events that touch an engine's orders are exactly the engine's, the order table agrees with the engine on every resting and every used-up order. |
| `AgreementRuns.FillLogTouching` | docs/settlement-worker-FULL.ts:459-477 | The rows of some orders depend only on the settled events that touch them. |
| `EngineFeeds.EngineEventFits` | docs/settlement-worker-FULL.ts:459-477 | At every moment of every run, both order rows have room for any engine event still to be settled, whatever else was settled in between. |
| `EngineFeeds.FedWorkerNeverHalts` | apps/backend/src/services/settlement/settlement-circuit.ts:19-33 | A worker on a healthy database that is offered only the events of its markets' engines, at non-negative prices, in markets of two assets, in any order and each at most once, never halts, whatever fails, crashes or is reset on the way. |
| `Rounding.RoundDownBounds` | docs/settlement-worker-FULL.ts:160-165 | Rounding moves a value toward zero by less than one unit, onto the grid. |
| `Rounding.RoundDownIdentity` | docs/settlement-worker-FULL.ts:160-165 | Rounding changes nothing if and only if the value is on the grid. |
| `Rounding.NetCreditIsExact` | docs/settlement-worker-FULL.ts:253-254 | Value less fee, and value plus fee, are already on the grid, so rounding them again is exact. |
| `Rounding.AmountsAreRounded` | docs/settlement-worker-FULL.ts:160-165 | Quantities, trade values and fees are the exact quotients rounded toward zero to the grid, said without division; `Rounding.RoundedIsUnique` shows there is only one such value. |
| `Rounding.TradeValueBounds` | docs/settlement-worker-FULL.ts:163 | A trade is worth at most its exact value and less than one quote unit less. |
| `Rounding.FeeBounds` | docs/settlement-worker-FULL.ts:164-169 | A fee of one part in `parts` is not negative and `parts` of it do not exceed the value. |
| `Rounding.LimitBuyRounding` | docs/settlement-worker-FULL.ts:163-165 | The fills of one sweep of a limit buy are worth no more than the limit times the filled quantity, and less than one unit per fill below the exact total, for any makers with something remaining. |
| `LedgerChain.AppendKeepsLinked` | docs/settlement-worker-FULL.ts:341-362 | Serial appends keep the whole table one chain from genesis. |
| `LedgerChain.AppendAdds` | docs/settlement-worker-FULL.ts:346-362 | An append adds one row of the event per delta, in order, after the old rows. |
| `LedgerChain.RepairLinks` | apps/backend/scripts/repair-settlement-ledger-chain.ts:49-60 | Repair yields a linked chain with the same events and deltas. |
| `LedgerChain.RepairFixpoint` | apps/backend/scripts/repair-settlement-ledger-chain.ts:49-60 | Repair leaves a table alone if and only if it is linked, and repairing twice is repairing once. |
| `LedgerChain.Repair` | apps/backend/scripts/repair-settlement-ledger-chain.ts:49-60 | The in-place pass over the table computes the repaired chain. |
| `LedgerChain.EntryHashInjective` | docs/settlement-worker-FULL.ts:348-350 | With a collision-free hash and separator-free fields, equal entry hashes mean equal entries. |
| `LedgerChain.EntryText` | docs/settlement-worker-FULL.ts:348-350 | The hash is of the domain tag, the previous hash or nothing, event, user, asset and amount, between bars, in that order. |
| `LedgerChain.SameHeadSameChain` | docs/settlement-worker-FULL.ts:341-376 | Under the same assumptions two chains from genesis with the same last hash are the same, row for row. |
| `SettlementFacts.AcceptedAmounts` | docs/settlement-worker-FULL.ts:156-177 | An event that passes the checks has non-negative quantity, value and fees, whatever its price, and exact net credits. |
| `SettlementOutcomes.WorthIs` | docs/settlement-worker-FULL.ts:160-165 | Quantity, value and the fees of 0.1% and 0.05% of the rounded value are exactly the roundings toward zero of the payload's decimals. |
| `SettlementOutcomes.AcceptedIff` | docs/settlement-worker-FULL.ts:156-251 | An event passes the checks if and only if its quantity and value are not negative, its users differ, the buyer has the value locked and the fee available, and the seller has the quantity locked and with the value can pay the fee. |
| `SettlementFacts.BalancesFollowDeltas` | docs/settlement-worker-FULL.ts:253-335 | Every account's available plus locked moves by exactly the sum of its ledger deltas, less the base line that is overwritten where base and quote are one asset. |
| `SettlementOutcomes.CommitMovesFunds` | docs/settlement-worker-FULL.ts:256-392 | After a commit, for every account: the locked part falls by the value at the buyer's quote and the quantity at the seller's base and nowhere else; the available part moves by the event's ledger rows plus what was unlocked, less what is overwritten where base and quote are one asset. |
| `SettlementOutcomes.CommitFillsOrders` | docs/settlement-worker-FULL.ts:459-477 | Both order rows had room and move by the quantity, filled exactly when nothing remains; no other row changes. |
| `SettlementOutcomes.CommitRecords` | docs/settlement-worker-FULL.ts:341-457 | One trade with the event's orders, users, rounded price and amounts and four ledger rows with buyer's and seller's lines, taker first, are added behind what was there. |
| `SettlementFacts.SettleKeepsNonNegative` | docs/settlement-worker-FULL.ts:379-384 | From balances without negatives an accepted event makes none, so the late check never fires. |
| `SettlementFacts.LedgerCheckIff` | docs/settlement-worker-FULL.ts:394-413 | The ledger check passes if and only if ledger and balances agreed on the four accounts before, but for what the event overwrites; that is nothing where base and quote differ. |
| `SettlementFacts.ChainCheckPasses` | docs/settlement-worker-FULL.ts:364-376 | The rows a settlement inserts always pass the chain check. |
| `SettlementFacts.ChainCheckIff` | docs/settlement-worker-FULL.ts:364-376 | The chain check of a settlement passes if and only if none of the new hashes is empty. |
| `SettlementFacts.ChainCheckDetects` | docs/settlement-worker-FULL.ts:364-376 | Changing one row of a checked chain passes unnoticed if and only if its previous hash is kept, its own hash is not empty and is kept wherever a row follows. |
| `SettlementFacts.PostOutcome` | docs/settlement-worker-FULL.ts:341-482 | In a healthy database an accepted event commits and leaves it healthy, unless an order row cannot take the fill; a market of an asset against itself refuses every non-empty fill. |
| `SettlementOutcomes.SettlesIff` | docs/settlement-worker-FULL.ts:105-483 | In a healthy database a new event commits if and only if it passes the checks, its market has two assets or its quantity is zero, and both order rows have room. |
| `SettlementFacts.TradeMatchesLedger` | docs/settlement-worker-FULL.ts:442-457 | The trade row and the four ledger rows say the same: base lines are its quantity, each quote line its value with that side's fee. |
| `SettlementFacts.SettleConserves` | docs/settlement-worker-FULL.ts:219-335 | Settlement conserves the base asset, takes exactly the two fees out of the quote asset, and moves nothing of any other, in every market. |
| `SettlementWorker.NextRow` | docs/settlement-worker-FULL.ts:493-502 | The selected row is pending with retries left and none before it is. |
| `SettlementWorker.Worker.InsertLedger` | docs/settlement-worker-FULL.ts:341-362 | The two loops append the event's deltas as chained rows. |
| `SettlementWorker.Worker.VerifyChain` | docs/settlement-worker-FULL.ts:364-376 | The loop accepts if and only if each row of the event continues the one before and has a hash. |
| `SettlementWorker.Worker.WriteBalances` | docs/settlement-worker-FULL.ts:379-392 | All balances are written, or the first negative one is refused. |
| `SettlementWorker.Worker.CheckTotals` | docs/settlement-worker-FULL.ts:394-413 | The loop accepts if and only if ledger sum and balance agree on every account touched. |
| `SettlementWorker.Worker.ProcessEvent` | docs/settlement-worker-FULL.ts:105-483 | The tables and hash are those of `Process`, or its error is returned. |
| `SettlementWorker.Worker.RunOnce` | docs/settlement-worker-FULL.ts:485-571 | One tick is `Tick`: commit, or roll back after an error of the event or of the database, record a fatal failure, a retry or the last retry, cut short or not, and halt on an alarm. |
| `SettlementOutcomes.UnreadableRetries` | docs/settlement-worker-FULL.ts:531-561 | A database error, an unknown market or currency or a bad decimal: the row stays pending with one more retry, and fails at the tenth; nothing else changes. |
| `SettlementOutcomes.UntradableRetries` | docs/settlement-worker-FULL.ts:531-561 | The same for a negative quantity and for one user on both sides. |
| `SettlementOutcomes.OverdrawnRetries` | docs/settlement-worker-FULL.ts:379-384 | The same where a balance part the funds checks do not look at is negative and stays so. |
| `SettlementOutcomes.UncoveredFails` | docs/settlement-worker-FULL.ts:510-530 | An event whose funds are missing fails at once with its retries as they were, and the worker goes on. |
| `SettlementOutcomes.NegativeValueHalts` | docs/settlement-worker-FULL.ts:166-169 | A negative value fails the event and halts the worker. |
| `SettlementOutcomes.NoRoomHalts` | docs/settlement-worker-FULL.ts:466-477 | So does an order row without room, or a market of an asset against itself, in a healthy database. |
| `SettlementOutcomes.DisagreementHalts` | docs/settlement-worker-FULL.ts:394-413 | So does a disagreement of ledger and balance on one of the four accounts. |
| `SettlementOutcomes.OtherHashHalts` | docs/settlement-worker-FULL.ts:433-440 | So does a row that carries another hash. |
| `SettlementOutcomes.EmptyHashHalts` | docs/settlement-worker-FULL.ts:364-376 | So does a digest that comes out empty. |
| `SettlementOutcomes.SettleableSettles` | docs/settlement-worker-FULL.ts:504-506 | A settleable event in a healthy database is settled and marked with its hash, its retries as they were. |
| `SettlementRuns.ResetOutcome` | apps/backend/scripts/reset-failed-settlement-events.ts:22-51 | After the script no row is failed, pending rows are below the threshold, at zero or gone as asked, settled rows are all there unchanged, no other row became settled, and exactly-once settlement still holds. |
| `SettlementRuns.ResetReachesAll` | apps/backend/scripts/reset-failed-settlement-events.ts:26-40 | In retry mode the script makes every unsettled row selectable if and only if no pending row has used up the worker's retries without reaching the script's threshold. |
| `SettlementReplay.ResettlingOverRuns` | docs/settlement-worker-FULL.ts:106-150 | At any point of any run, settling a settled event again changes no table, and gives it back its hash if and only if its ledger lines come out in the same order sorted before and after formatting; the digest need only tell apart lists of lines without line breaks. |
| `SettlementLines.SameLinesIff` | docs/settlement-worker-FULL.ts:123-126 | For users with ids of one form and plain symbols, the two orders of the four lines agree if and only if neither symbol begins the other. |
| `SettlementReplay.ResettlingKeepsHash` | docs/settlement-worker-FULL.ts:415-431 | So the hash is kept if and only if neither symbol begins the other. |
| `SettlementReplay.UsdUsdtChangesHash` | docs/settlement-worker-FULL.ts:123-126 | A settled fill of USD against USDT, settled again, gets another hash. |
| `SettlementRuns.CommitKeepsOnce` | docs/settlement-worker-FULL.ts:504-506 | A commit gives its event its four rows and touches no other event's. |
| `SettlementRuns.ExactlyOnce` | docs/settlement-worker-FULL.ts:491-571 | Over every run of ticks, database errors, rollbacks, crashes between the failure updates, arrivals, resets and deletes: a processed event has exactly its four rows, any other none, and no row is orphaned. |
| `SettlementOutcomes.RowsStay` | docs/settlement-worker-FULL.ts:493-502 | A settled row stays for good, and a failed one exactly as it is until the failed rows are reset or deleted, whatever the worker does. |
| `SettlementHealth.HealthyOutcome` | docs/settlement-worker-FULL.ts:105-483 | In a healthy database settling keeps it healthy; the chain, hash and negative-balance checks never fire, and the circuit opens only for an order that cannot take its fill, a negative price, or a market of an asset against itself. |
| `SettlementHealth.RunsStaySane` | docs/settlement-worker-FULL.ts:379-413 | Over every run ledger and balances agree on every account, nothing is negative and the whole ledger is one chain. |
| `SettlementHealth.RunConserves` | docs/settlement-worker-FULL.ts:219-335 | Over every run, an asset's balances plus the fees in the trade table never change. |
| `SettlementOutcomes.LockedNeverRises` | docs/settlement-worker-FULL.ts:256-335 | No run of the worker ever raises the locked part of any account. |
| `SettlementHealth.NothingToSettle` | docs/settlement-worker-FULL.ts:219-251 | Where nobody holds anything, only events of zero amounts settle. |
| `SettlementHealth.ClosedRunHoldsNothing` | docs/settlement-worker-FULL.ts:394-413 | From an empty ledger that agrees with the balances, no run ever puts anything on the books. |
| `SettlementHealth.HaltHasCause` | apps/backend/src/services/settlement/settlement-circuit.ts:19-33 | In every run that ends with a halted worker there was a moment at which it had an event to try that fails for one of those reasons. |
| `SettlementHealth.HaltFreezes` | docs/settlement-worker-FULL.ts:485-489 | Until the circuit is closed again no table but the event list changes, whatever ticks, resets and arrivals happen. |
| `SettlementHealth.TickSpends` | docs/settlement-worker-FULL.ts:491-571 | Every live tick uses up part of the retries left. |
| `SettlementHealth.WorkRunsOut` | docs/settlement-worker-FULL.ts:491-571 | Without arrivals, ten ticks per pending event leave nothing selectable or a halted worker, whatever fails, in the event or in the database. |
| `Rebuild.RebuildLedger` | apps/backend/scripts/rebuild-settlement-ledger-from-events.ts:29-72 | The nested loops compute `Rebuilt`, or the table is left as it was. |
| `Rebuild.RebuiltIsLinked` | apps/backend/scripts/rebuild-settlement-ledger-from-events.ts:39-72 | The rebuilt table is one chain. |
| `Rebuild.RebuildKeepsSums` | apps/backend/scripts/rebuild-settlement-ledger-from-events.ts:39-72 | After any exactly-once history the rebuild succeeds and every account keeps its sum, less what opening rows had put in. |
| `Rebuild.RebuildKeepsHealthy` | apps/backend/scripts/rebuild-settlement-ledger-from-events.ts:29-72 | A rebuild keeps ledger and balances in agreement if and only if the opening rows it drops add up to nothing on every account. |
| `Rebuild.RebatesDrift` | apps/backend/src/services/settlement/settlement-ledger-deltas.ts:27-60 | With rebates on, each maker's quote sum is higher by twice the maker fees of the fills sold to buying takers, and no other sum differs. |
| `Rebuild.RebuildKeepsOnce` | apps/backend/scripts/rebuild-settlement-ledger-from-events.ts:29-72 | The rebuilt ledger is exactly-once with no orphans at all. |
| `BalanceLedger.Mismatches` | apps/backend/scripts/reconcile-balance-ledger-trading.ts:27-55 | The query is empty if and only if every bucket agrees, and adjusting only its rows is adjusting all. |
| `BalanceLedger.ReconcileBalanceLedger` | apps/backend/scripts/reconcile-balance-ledger-trading.ts:57-130 | The script commits if and only if accounts with several balance rows already agree; then every bucket's ledger sum equals its balance, and otherwise nothing changes. |
| `BalanceLedger.ReconcileCommits` | apps/backend/scripts/reconcile-balance-ledger-trading.ts:101-130 | The verify query passes exactly under that condition, always when accounts are distinct. |
| `BalanceLedger.ReconcileTwice` | apps/backend/scripts/reconcile-balance-ledger-trading.ts:57-130 | A second run inserts nothing. |
| `BalanceLedger.MetMeansAgrees` | apps/backend/scripts/reconcile-balance-ledger-trading.ts:101-118 | What the script checks is that for every balance row both bucket sums equal its two columns. |
| `BalanceLedger.AdjustmentsAreProper` | apps/backend/scripts/reconcile-balance-ledger-trading.ts:60-98 | The script only appends, and only adjustments that move a bucket from its old sum to a row's balance by a debit or a credit, never both. |
| `Backfill.FindOpening` | apps/backend/scripts/backfill-opening-balance-ledger.ts:151-155 | The lookup finds an opening row of the bucket if and only if there is one. |
| `Backfill.ConsiderBucket` | apps/backend/scripts/backfill-opening-balance-ledger.ts:140-203 | The loop body: skip, report a negative gap, skip a zero credit or an existing row, plan or insert. |
| `Backfill.BackfillOpeningBalances` | apps/backend/scripts/backfill-opening-balance-ledger.ts:125-203 | The nested loops compute the report of `Filled`. |
| `Backfill.OneOpeningEver` | apps/backend/scripts/backfill-opening-balance-ledger.ts:150-158 | However often the scripts run and whatever else is posted in between, no bucket ever has two opening rows. |
| `Backfill.FilledOutcome` | apps/backend/scripts/backfill-opening-balance-ledger.ts:126-203 | A run leaves a bucket alone or gives it exactly one credit for a row that speaks for it. |
| `Backfill.BackfillClosesGap` | apps/backend/scripts/backfill-opening-balance-ledger.ts:126-203 | A bucket never overshoots its balance, a negative gap is left alone, and without an earlier opening row the rest is less than 10^-8. |
| `Backfill.BackfillTwice` | apps/backend/scripts/backfill-opening-balance-ledger.ts:126-203 | A second run with the same balances inserts nothing. |
| `Backfill.OpeningsAreProper` | apps/backend/scripts/backfill-opening-balance-ledger.ts:147-190 | Every row inserted or planned is an opening credit of the gap, with sum and balance, each cut to eight places. |
| `Backfill.ErrorsAre` | apps/backend/scripts/backfill-opening-balance-ledger.ts:141-146 | The errors are exactly the buckets whose ledger is ahead of a balance by more than 10^-12. |
| `Backfill.DryRunPlans` | apps/backend/scripts/backfill-opening-balance-ledger.ts:163-172 | With distinct accounts a dry run plans exactly the rows that applying would insert. |

## Left out

- CrashSafety: a half-written journal line counts as not written, the stream's duplicate window is taken as unlimited, and a snapshot of the protocol is one consistent with itself; inconsistent ones are `Persistence.SnapshotDuringPlacement`.
- CrashSafety: the fills of plain placements are covered for their ids, not for durability, which `place_order` does not promise; a crash loses those not yet published. Their publishing is one step that may or may not happen, without the queue in between, and they are not part of the snapshot's log.
- CrashSafety: a restart restores the last snapshot or nothing; rebuilding the books from the backend instead is not modelled.
- SnapshotDuringPlacement: one placement at a time around the two reads.
- RunRecovers: the run consists of placements; cancellations are not in the journal.
- ReusedIdUncrossed: for orders with something to trade. One with nothing to trade under a fresh id is `BookRuns.PlaceKeeps`; under a used id it can stay in the book with nothing remaining, which the books of this model never hold.
- EngineAndSettlementAgree: is about one market, several are `AgreementRuns.WorkerAgreesWithEngine`; order rows of cancelled orders are not compared, because cancelling them in the database is not part of the code modelled.
- ExactlyOnce: one worker at a time; `SKIP LOCKED` and two workers interleaving inside transactions are not modelled, nor is the unlocked read of the chain head.
- RebuildKeepsSums: the normalisation of payloads before a rebuild is not part of this model.
- SameHeadSameChain: needs a hash without collisions, which a real digest only approximates; so do the two directions of ResettlingKeepsHash.
- ResettlingKeepsHash: locale comparison is an arbitrary order that agrees with code units on the two user ids and the two symbols at hand.
- The matching engine's timestamps on events, its HTTP handlers, authentication, rate limits and snapshot file format.
- `partition_for_market` and message encoding: publishing is a step that succeeds or fails.
- Overflow of the event counter, and the limited precision of the decimal library: arithmetic is exact.
- The order of rows inside `collect_all_orders`: only which orders it lists.
- String forms of user ids that differ only in case or dashes, and several assets sharing one currency id.
- The canonical form of the payload inside an event's digest: the digest is a function of payload, amounts and ledger lines.
- Creating missing balance rows before they are locked: a missing row reads as zero.
- Balance columns that keep eight decimal places: sums and adjustments are exact.
- Market data, wallets, deposits, the admin panel and everything else in the backend: no part of matching or settlement.
