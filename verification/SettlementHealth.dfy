/** What runs of the settlement worker conserve, and when they stop. */
module SettlementHealth {
  import opened Types
  import opened Rounding
  import opened LedgerChain
  import opened Settlement
  import opened SettlementFacts
  import opened SettlementWorker
  import opened SettlementRuns

  /** A commit that is not a mere re-marking settled an accepted event. */
  lemma CommitIsSettled(h: Hashes, db: Db, row: EventRow)
    requires Process(h, db, row).Ok? && RowsOf(db.ledger, row.id) == []
    ensures Resolve(db, row.payload).Ok?
    ensures var (m, a) := Resolve(db, row.payload).value;
            var db' := Process(h, db, row).value.0;
            Ready(db, row.payload, m, a) && db' == Settled(h, db, row, m, a, db'.orders)
  {
    hide Append, ApplyUpdates, TotalsAgree, ChainHolds, AnyNegative, FillOrders, Deltas, Updates, RowsOf, AmountsOf;
  }

  lemma NonNegativeValue(p: Payload, m: MarketRow, a: Amounts)
    requires p.price.Some? && p.qty.Some? && a == AmountsOf(p.price.value, p.qty.value, m)
    requires p.price.value >= 0 && p.qty.value >= 0
    ensures a.takerFee + a.makerFee <= a.value
  {
    TradeValueBounds(p.price.value, p.qty.value, m.quoteUnit);
    hide TradeValue, FeeOf;
    FeeBounds(a.value, TAKER_FEE_PARTS, m.quoteUnit);
    FeeBounds(a.value, MAKER_FEE_PARTS, m.quoteUnit);
  }

  /** Why a healthy database may halt the worker: an order row that cannot take the fill, a
      negative price, or a market of an asset against itself. */
  ghost predicate RealAlarm(db: Db, p: Payload, e: Error) {
    && Resolve(db, p).Ok?
    && var (m, a) := Resolve(db, p).value;
    || (e == OrderInvariantViolation && FillOrders(db.orders, p.takerOrder, p.makerOrder, a.qty) == None)
    || (e == FeeInvariantViolation && p.price.Some? && p.price.value < 0)
    || (e == GlobalLedgerInvariantViolation && m.base == m.quote && a.qty != 0)
  }

  /** Settling in a healthy database keeps it healthy, and the circuit opens for a real
      alarm only: the chain, ledger, hash and negative-balance checks never fire. */
  lemma HealthyOutcome(h: Hashes, db: Db, row: EventRow)
    requires Healthy(db) && NeverEmpty(h.codec)
    requires RowsOf(db.ledger, row.id) == [] && row.hash == None
    ensures match Process(h, db, row)
            case Ok((db', _)) => Healthy(db')
            case Err(e) => e != NegativeBalance && (OpensCircuit(e) ==> RealAlarm(db, row.payload, e))
  {
    hide Post, RowsOf, Settled, FillOrders, TradeValue, FeeOf, RoundDown;
    var p := row.payload;
    var resolved := Resolve(db, p);
    if resolved.Ok? {
      var (m, a) := resolved.value;
      var refusal := Refusal(db, p, m, a);
      if refusal == None {
        PostOutcome(h, db, row, m, a);
        hide Healthy;
      } else {
        if p.price.value >= 0 && p.qty.value >= 0 {
          NonNegativeValue(p, m, a);
        }
        hide AmountsOf, Healthy, BalanceOf;
      }
    }
  }

  /** The worker's tick either leaves the tables alone or commits one event. */
  lemma TickCommits(h: Hashes, w: WorkerState, fault: Fault) returns (i: nat)
    ensures i <= |w.events|
    ensures Tick(h, w, fault).db == w.db
            || (i < |w.events| && Selectable(w.events[i])
                && Process(h, w.db, w.events[i]).Ok? && Tick(h, w, fault).db == Process(h, w.db, w.events[i]).value.0)
    ensures !w.halted && Tick(h, w, fault).halted ==>
              i < |w.events| && Process(h, w.db, w.events[i]).Err? && OpensCircuit(Process(h, w.db, w.events[i]).error)
    ensures i < |w.events| ==> Selectable(w.events[i])
  {
    hide Process;
    i := NextRow(w.events);
  }

  lemma SelectableHasNoRows(s: State, opening: nat, i: nat)
    requires Once(s, opening) && i < |s.worker.events| && Selectable(s.worker.events[i])
    ensures RowsOf(s.worker.db.ledger, s.worker.events[i].id) == [] && s.worker.events[i].hash == None
  {
    assert RowsMatch(s.worker.db, s.worker.events[i]);
  }

  lemma SettledMarkets(h: Hashes, db: Db, row: EventRow)
    requires Process(h, db, row).Ok?
    ensures Process(h, db, row).value.0.markets == db.markets
  {
    CommitAppends(h, db, row);
  }

  // ----- over every run

  ghost predicate Sane(h: Hashes, s: State, opening: nat) {
    Once(s, opening) && Healthy(s.worker.db) && Linked(h.codec, s.worker.db.ledger)
  }

  /** An event that the worker would try fails with a real alarm. */
  ghost predicate Alarmed(h: Hashes, w: WorkerState) {
    exists row :: row in w.events && Selectable(row) && Alarming(h, w.db, row)
  }

  ghost predicate Alarming(h: Hashes, db: Db, row: EventRow) {
    var r := Process(h, db, row);
    r.Err? && OpensCircuit(r.error) && RealAlarm(db, row.payload, r.error)
  }

  lemma ActionKeepsSane(h: Hashes, s: State, a: Action, opening: nat)
    requires Sane(h, s, opening) && NeverEmpty(h.codec)
    ensures Sane(h, Do(h, s, a), opening)
    ensures !s.worker.halted && Do(h, s, a).worker.halted ==> Alarmed(h, s.worker)
  {
    ActionKeepsOnce(h, s, a, opening);
    hide Once, Linked, Healthy;
    if a.Work? {
      var w := s.worker;
      var i := TickCommits(h, w, a.fault);
      hide Tick;
      if i < |w.events| {
        var row := w.events[i];
        SelectableHasNoRows(s, opening, i);
        HealthyOutcome(h, w.db, row);
        if Process(h, w.db, row).Ok? {
          CommitAppends(h, w.db, row);
          hide Process, Deltas;
          var (m, x) := Resolve(w.db, row.payload).value;
          AppendKeepsLinked(h.codec, w.db.ledger, row.id, Deltas(row.payload, m, x, false));
        } else {
          hide Process, RealAlarm;
          assert row in w.events;
        }
      }
    }
  }

  /** In every run from a sane state: ledger and balances agree on every account, nothing is
      negative, and the whole ledger stays one chain. */
  lemma {:induction false} RunsStaySane(h: Hashes, s: State, actions: seq<Action>, opening: nat)
    requires Sane(h, s, opening) && NeverEmpty(h.codec)
    ensures Sane(h, Run(h, s, actions), opening)
  {
    if actions != [] {
      var n := |actions| - 1;
      RunsStaySane(h, s, actions[..n], opening);
      hide Sane;
      ActionKeepsSane(h, Run(h, s, actions[..n]), actions[n], opening);
    }
  }

  // ----- conservation

  /** All of an asset on the books. */
  ghost function Supply(balances: map<Account, Balance>, asset: string): int {
    SupplyIn(balances.Keys, balances, asset)
  }

  lemma {:induction false} SupplyOfMore(accounts: set<Account>, balances: map<Account, Balance>, asset: string)
    requires balances.Keys <= accounts
    ensures SupplyIn(accounts, balances, asset) == Supply(balances, asset)
    decreases |accounts|
  {
    if x :| x in accounts && x !in balances {
      SupplyWithout(accounts, balances, asset, x);
      SupplyOfMore(accounts - {x}, balances, asset);
    } else {
      assert accounts == balances.Keys;
    }
  }

  function FeesIn(markets: map<string, MarketRow>, t: Trade, asset: string): int {
    if t.symbol in markets && markets[t.symbol].quote == asset then t.takerFee + t.makerFee else 0
  }

  /** The fees recorded in the trade table, for one asset. */
  function Collected(markets: map<string, MarketRow>, trades: seq<Trade>, asset: string): int {
    if trades == [] then 0
    else
      var n := |trades| - 1;
      Collected(markets, trades[..n], asset) + FeesIn(markets, trades[n], asset)
  }

  lemma UpdatedKeys(db: Db, p: Payload, m: MarketRow, a: Amounts)
    ensures ApplyUpdates(db.balances, Updates(db, p, m, a)).Keys
            == db.balances.Keys + {(p.takerUser, m.base), (p.takerUser, m.quote), (p.makerUser, m.base), (p.makerUser, m.quote)}
  {
    UpdatesInOrder(db.balances, Updates(db, p, m, a));
    hide ApplyUpdates, RoundDown;
  }

  ghost function Reserves(db: Db, asset: string): int {
    Supply(db.balances, asset) + Collected(db.markets, db.trades, asset)
  }

  lemma CommitConserves(h: Hashes, db: Db, row: EventRow, asset: string)
    requires Process(h, db, row).Ok?
    ensures Reserves(Process(h, db, row).value.0, asset) == Reserves(db, asset)
  {
    if RowsOf(db.ledger, row.id) != [] {
      ResettlingChangesNothing(h, db, row);
    } else {
      CommitIsSettled(h, db, row);
      var db' := Process(h, db, row).value.0;
      var p := row.payload;
      var (m, a) := Resolve(db, p).value;
      UpdatedKeys(db, p, m, a);
      SettleConserves(db, p, m, a, db'.balances.Keys, asset);
      SupplyOfMore(db'.balances.Keys, db.balances, asset);
      assert db'.trades[..|db.trades|] == db.trades;
      hide Process, SupplyIn, Updates, ApplyUpdates, Deltas, Ready, Append;
    }
  }

  /** In every run, what is on the books of an asset plus the fees in the trade table never
      changes. */
  lemma {:induction false} RunConserves(h: Hashes, s: State, actions: seq<Action>, asset: string)
    ensures Reserves(Run(h, s, actions).worker.db, asset) == Reserves(s.worker.db, asset)
  {
    if actions != [] {
      var n := |actions| - 1;
      RunConserves(h, s, actions[..n], asset);
      var before := Run(h, s, actions[..n]);
      var a := actions[n];
      hide Reserves;
      if a.Work? {
        var i := TickCommits(h, before.worker, a.fault);
        hide Tick;
        if i < |before.worker.events| && Process(h, before.worker.db, before.worker.events[i]).Ok? {
          hide Process;
          CommitConserves(h, before.worker.db, before.worker.events[i], asset);
          SettledMarkets(h, before.worker.db, before.worker.events[i]);
        }
      }
    }
  }

  // ----- a ledger that starts empty

  ghost predicate NoFunds(balances: map<Account, Balance>) {
    forall x :: BalanceOf(balances, x) == Balance(0, 0)
  }

  lemma NothingToTake(db: Db, p: Payload, m: MarketRow, a: Amounts)
    requires NoFunds(db.balances) && Ready(db, p, m, a)
    ensures a == Amounts(0, 0, 0, 0)
  {
    AcceptedAmounts(db, p, m, a);
    hide AmountsOf, RoundDown;
    var tb, tq := (p.takerUser, m.base), (p.takerUser, m.quote);
    var mb, mq := (p.makerUser, m.base), (p.makerUser, m.quote);
    assert BalanceOf(db.balances, tb) == BalanceOf(db.balances, tq) == Balance(0, 0);
    assert BalanceOf(db.balances, mb) == BalanceOf(db.balances, mq) == Balance(0, 0);
  }

  lemma ZeroUpdates(db: Db, p: Payload, m: MarketRow)
    requires NoFunds(db.balances)
    ensures NoFunds(ApplyUpdates(db.balances, Updates(db, p, m, Amounts(0, 0, 0, 0))))
  {
    var us := Updates(db, p, m, Amounts(0, 0, 0, 0));
    assert RoundDown(0, m.quoteUnit) == 0;
    assert us[0].balance == us[1].balance == us[2].balance == us[3].balance == Balance(0, 0);
    UpdatesInOrder(db.balances, us);
    var b := ApplyUpdates(db.balances, us);
    hide ApplyUpdates, Updates, RoundDown;
    forall x ensures BalanceOf(b, x) == Balance(0, 0) {
      assert BalanceOf(db.balances, x) == Balance(0, 0);
    }
  }

  /** Where nobody holds anything, only events of zero amounts can be settled. */
  lemma NothingToSettle(h: Hashes, db: Db, row: EventRow)
    requires NoFunds(db.balances) && Process(h, db, row).Ok? && RowsOf(db.ledger, row.id) == []
    ensures Resolve(db, row.payload).Ok? && Resolve(db, row.payload).value.1 == Amounts(0, 0, 0, 0)
    ensures NoFunds(Process(h, db, row).value.0.balances)
  {
    CommitIsSettled(h, db, row);
    hide Process, ApplyUpdates, Updates, Append, Deltas, Ready;
    var (m, a) := Resolve(db, row.payload).value;
    NothingToTake(db, row.payload, m, a);
    ZeroUpdates(db, row.payload, m);
  }

  lemma EmptyLedgerMeansNoFunds(db: Db)
    requires Healthy(db) && db.ledger == []
    ensures NoFunds(db.balances)
  {
    forall x ensures BalanceOf(db.balances, x) == Balance(0, 0) {
      assert AgreesAt(db, x);
    }
  }

  lemma NoFundsStep(h: Hashes, s: State, a: Action)
    requires Sane(h, s, 0) && NoFunds(s.worker.db.balances)
    ensures NoFunds(Do(h, s, a).worker.db.balances)
  {
    hide NoFunds, Once, Healthy, Linked;
    if a.Work? {
      var i := TickCommits(h, s.worker, a.fault);
      hide Tick, Process;
      if i < |s.worker.events| && Process(h, s.worker.db, s.worker.events[i]).Ok? {
        SelectableHasNoRows(s, 0, i);
        NothingToSettle(h, s.worker.db, s.worker.events[i]);
      }
    }
  }

  /** If the ledger agrees with the balances and starts empty, there is nothing on the books
      and no run ever puts anything there: trading needs opening rows in the ledger. */
  lemma {:induction false} ClosedRunHoldsNothing(h: Hashes, s: State, actions: seq<Action>)
    requires Sane(h, s, 0) && NeverEmpty(h.codec) && s.worker.db.ledger == []
    ensures NoFunds(Run(h, s, actions).worker.db.balances)
  {
    if actions == [] {
      EmptyLedgerMeansNoFunds(s.worker.db);
    } else {
      hide Sane, NoFunds, Do;
      var n := |actions| - 1;
      ClosedRunHoldsNothing(h, s, actions[..n]);
      RunsStaySane(h, s, actions[..n], 0);
      NoFundsStep(h, Run(h, s, actions[..n]), actions[n]);
    }
  }

  // ----- the circuit

  /** A worker that has halted halted for a reason: at some moment of the run it had an event
      to try that fails with a real alarm. */
  lemma {:induction false} HaltHasCause(h: Hashes, s: State, actions: seq<Action>, opening: nat)
    requires Sane(h, s, opening) && NeverEmpty(h.codec) && !s.worker.halted && Run(h, s, actions).worker.halted
    ensures exists n :: 0 <= n < |actions| && Alarmed(h, Run(h, s, actions[..n]).worker)
  {
    hide Sane, Alarmed, Do;
    var n := |actions| - 1;
    if Run(h, s, actions[..n]).worker.halted {
      HaltHasCause(h, s, actions[..n], opening);
      var k :| 0 <= k < n && Alarmed(h, Run(h, s, actions[..n][..k]).worker);
      assert actions[..n][..k] == actions[..k];
    } else {
      RunsStaySane(h, s, actions[..n], opening);
      ActionKeepsSane(h, Run(h, s, actions[..n]), actions[n], opening);
    }
  }

  /** Until the circuit is closed again, nothing settles, whatever else happens. */
  lemma {:induction false} HaltFreezes(h: Hashes, s: State, actions: seq<Action>)
    requires s.worker.halted && CloseCircuit !in actions
    ensures Run(h, s, actions).worker.halted && Run(h, s, actions).worker.db == s.worker.db
  {
    if actions != [] {
      var n := |actions| - 1;
      assert actions == actions[..n] + [actions[n]];
      HaltFreezes(h, s, actions[..n]);
      hide Process;
    }
  }

  // ----- work runs out

  /** The ticks a row can still cost. */
  function TicksLeft(row: EventRow): nat {
    if Selectable(row) then MAX_RETRIES - row.retries else 0
  }

  function Budget(events: seq<EventRow>): nat {
    if events == [] then 0
    else Budget(events[..|events| - 1]) + TicksLeft(events[|events| - 1])
  }

  function PendingCount(events: seq<EventRow>): nat {
    if events == [] then 0
    else PendingCount(events[..|events| - 1]) + if events[|events| - 1].status == Pending then 1 else 0
  }

  lemma {:induction false} BudgetUpdate(events: seq<EventRow>, i: nat, row: EventRow)
    requires i < |events|
    ensures Budget(events[i := row]) == Budget(events) - TicksLeft(events[i]) + TicksLeft(row)
  {
    var n := |events| - 1;
    if i == n {
      assert events[i := row][..n] == events[..n];
    } else {
      assert events[i := row][..n] == events[..n][i := row];
      BudgetUpdate(events[..n], i, row);
    }
  }

  lemma {:induction false} BudgetBound(events: seq<EventRow>)
    ensures Budget(events) <= MAX_RETRIES * PendingCount(events)
  {
    if events != [] {
      BudgetBound(events[..|events| - 1]);
    }
  }

  /** Nothing left for the worker to do. */
  predicate Idle(w: WorkerState) {
    w.halted || NextRow(w.events) == |w.events|
  }

  lemma TickSpends(h: Hashes, w: WorkerState, fault: Fault)
    requires !Idle(w)
    ensures Budget(Tick(h, w, fault).events) < Budget(w.events)
  {
    var i := NextRow(w.events);
    var r := Attempt(h, w.db, w.events[i], fault.broken);
    hide Process;
    BudgetUpdate(w.events, i, if r.Ok? then MarkProcessed(w.events[i], r.value.1) else Recorded(w.events[i], r.error, fault.cut));
  }

  function Ticks(h: Hashes, w: WorkerState, faults: seq<Fault>): WorkerState
    decreases |faults|
  {
    if faults == [] then w else Ticks(h, Tick(h, w, faults[0]), faults[1..])
  }

  lemma {:induction false} IdleStays(h: Hashes, w: WorkerState, faults: seq<Fault>)
    requires Idle(w)
    ensures Ticks(h, w, faults) == w
    decreases |faults|
  {
    if faults != [] {
      assert Tick(h, w, faults[0]) == w;
      IdleStays(h, w, faults[1..]);
    }
  }

  lemma {:induction false} TicksExhaust(h: Hashes, w: WorkerState, faults: seq<Fault>)
    requires |faults| >= Budget(w.events)
    ensures Idle(Ticks(h, w, faults))
    decreases |faults|
  {
    if Idle(w) {
      IdleStays(h, w, faults);
    } else {
      TickSpends(h, w, Fault(false, false));
      TickSpends(h, w, faults[0]);
      TicksExhaust(h, Tick(h, w, faults[0]), faults[1..]);
    }
  }

  /** With no arrivals, ten ticks per pending event leave nothing selectable, or a halted
      worker, whatever fails, in the event or in the database, and wherever the failure updates are
      cut short. */
  lemma WorkRunsOut(h: Hashes, w: WorkerState, faults: seq<Fault>)
    requires |faults| >= MAX_RETRIES * PendingCount(w.events)
    ensures Idle(Ticks(h, w, faults))
  {
    BudgetBound(w.events);
    hide *;
    TicksExhaust(h, w, faults);
  }
}
