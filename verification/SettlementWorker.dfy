/** The settlement worker: one event per tick, each in its own transaction. */
module SettlementWorker {
  import opened Types
  import opened LedgerChain
  import opened Settlement

  const MAX_RETRIES: nat := 10

  /** Errors that open the settlement circuit and halt the worker. */
  predicate OpensCircuit(e: Error) {
    e in {GlobalLedgerInvariantViolation, SettlementHashMismatch, LedgerChainViolation, OrderInvariantViolation,
          FeeInvariantViolation}
  }

  /** `events` is listed in id order. */
  datatype WorkerState = WorkerState(db: Db, events: seq<EventRow>, halted: bool)

  predicate Selectable(row: EventRow) {
    row.status == Pending && row.retries < MAX_RETRIES
  }

  /** The pending row with the lowest id that has retries left, or the length. */
  function NextRow(events: seq<EventRow>): (i: nat)
    ensures i <= |events|
    ensures i < |events| ==> Selectable(events[i])
    ensures forall j :: 0 <= j < i ==> !Selectable(events[j])
  {
    if events == [] || Selectable(events[0]) then 0
    else
      var j := NextRow(events[1..]);
      assert forall n :: 0 < n < 1 + j ==> events[n] == events[1..][n - 1];
      1 + j
  }

  function MarkProcessed(row: EventRow, hash: string): EventRow {
    row.(status := Processed, hash := Some(hash))
  }

  function CountRetry(row: EventRow): EventRow {
    row.(retries := row.retries + 1)
  }

  /** How a failure is recorded.  `cut` is a crash between the two updates of a retry that
      was the last one. */
  function Recorded(row: EventRow, e: Error, cut: bool): EventRow {
    if Fatal(e) then row.(status := Failed)
    else if CountRetry(row).retries >= MAX_RETRIES && !cut then CountRetry(row).(status := Failed)
    else CountRetry(row)
  }

  /** What goes wrong in a tick that the event has no part in: an exception from the database
      while it is settled or committed, and a crash that cuts the failure's record short. */
  datatype Fault = Fault(broken: bool, cut: bool)

  function Attempt(h: Hashes, db: Db, row: EventRow, broken: bool): Result<(Db, string), Error> {
    if broken then Err(DatabaseError) else Process(h, db, row)
  }

  function Tick(h: Hashes, s: WorkerState, fault: Fault): WorkerState {
    var i := NextRow(s.events);
    if s.halted || i == |s.events| then s
    else
      match Attempt(h, s.db, s.events[i], fault.broken)
      case Ok((db, hash)) => s.(db := db, events := s.events[i := MarkProcessed(s.events[i], hash)])
      case Err(e) => s.(events := s.events[i := Recorded(s.events[i], e, fault.cut)], halted := OpensCircuit(e))
  }

  // ----- the operator's statements

  function Without(events: seq<EventRow>, status: Status): seq<EventRow> {
    if events == [] then []
    else
      var n := |events| - 1;
      Without(events[..n], status) + if events[n].status == status then [] else [events[n]]
  }

  function Retried(row: EventRow): EventRow {
    if row.status == Failed then row.(status := Pending, retries := 0) else row
  }

  function Unstuck(row: EventRow, max: nat): EventRow {
    if row.status == Pending && row.retries >= max then row.(retries := 0) else row
  }

  function RetryAll(events: seq<EventRow>): seq<EventRow> {
    seq(|events|, i requires 0 <= i < |events| => Retried(events[i]))
  }

  function UnstickAbove(events: seq<EventRow>, max: nat): seq<EventRow> {
    seq(|events|, i requires 0 <= i < |events| => Unstuck(events[i], max))
  }

  /** The reset script: delete or retry the failed rows, unstick the exhausted ones, and on
      request unstick or delete everything pending. */
  function ResetScript(events: seq<EventRow>, delete: bool, max: nat, unstickAll: bool, deletePending: bool): seq<EventRow> {
    var a := if delete then Without(events, Failed) else RetryAll(events);
    var b := UnstickAbove(a, max);
    var c := if unstickAll then UnstickAbove(b, 0) else b;
    if deletePending then Without(c, Pending) else c
  }

  class Worker {
    const h: Hashes
    const markets: map<string, MarketRow>
    var ledger: seq<LedgerRow>
    var balances: map<Account, Balance>
    var orders: map<nat, OrderRow>
    var trades: seq<Trade>
    var events: seq<EventRow>
    var halted: bool

    function Tables(): Db
      reads this
    {
      Db(markets, ledger, balances, orders, trades)
    }

    function State(): WorkerState
      reads this
    {
      WorkerState(Tables(), events, halted)
    }

    constructor (h: Hashes, s: WorkerState)
      ensures this.h == h && State() == s
    {
      this.h, markets := h, s.db.markets;
      ledger, balances, orders, trades := s.db.ledger, s.db.balances, s.db.orders, s.db.trades;
      events, halted := s.events, s.halted;
    }

    /** Build the chained entries, then insert them. */
    method InsertLedger(event: nat, ds: seq<Delta>)
      modifies this`ledger
      ensures ledger == Append(h.codec, old(ledger), event, ds)
    {
      var prev := Head(ledger);
      var chain: seq<LedgerRow> := [];
      var i := 0;
      while i < |ds|
        invariant 0 <= i <= |ds| && |chain| == i
        invariant ledger + chain == Append(h.codec, ledger, event, ds[..i])
        invariant prev == Head(ledger + chain)
      {
        assert ds[..i + 1][..i] == ds[..i];
        var entry := Entry(h.codec, prev, event, ds[i]);
        assert ledger + (chain + [entry]) == (ledger + chain) + [entry];
        chain := chain + [entry];
        prev := entry.hash;
        i := i + 1;
      }
      assert ds[..i] == ds;
      i := 0;
      while i < |chain|
        invariant 0 <= i <= |chain| && ledger == old(ledger) + chain[..i]
      {
        ledger := ledger + [chain[i]];
        i := i + 1;
      }
      assert chain[..i] == chain;
    }

    /** Re-read the event's rows and check that each continues the one before. */
    method VerifyChain(event: nat, first: Option<string>) returns (ok: bool)
      ensures ok <==> ChainHolds(first, RowsOf(ledger, event))
    {
      var rows := RowsOf(ledger, event);
      var i := 0;
      while i < |rows|
        invariant 0 <= i <= |rows|
        invariant forall j :: 0 <= j < i ==> Continues(first, rows, j)
      {
        if !Continues(first, rows, i) {
          return false;
        }
        i := i + 1;
      }
      ok := true;
    }

    /** Write the balances one by one, refusing the first that would be negative. */
    method WriteBalances(us: seq<Update>) returns (ok: bool)
      modifies this`balances
      ensures ok <==> !AnyNegative(us)
      ensures ok ==> balances == ApplyUpdates(old(balances), us)
    {
      var i := 0;
      while i < |us|
        invariant 0 <= i <= |us| && balances == ApplyUpdates(old(balances), us[..i])
        invariant forall j :: 0 <= j < i ==> us[j].balance.available >= 0 && us[j].balance.locked >= 0
      {
        assert us[..i + 1][..i] == us[..i];
        if us[i].balance.available < 0 || us[i].balance.locked < 0 {
          return false;
        }
        balances := balances[us[i].account := us[i].balance];
        i := i + 1;
      }
      assert us[..i] == us;
      ok := true;
    }

    method CheckTotals(ds: seq<Delta>) returns (ok: bool)
      ensures ok <==> TotalsAgree(ledger, balances, ds)
    {
      var i := 0;
      while i < |ds|
        invariant 0 <= i <= |ds|
        invariant forall j :: 0 <= j < i ==>
                    LedgerSum(ledger, (ds[j].user, ds[j].asset)) == Total(balances, (ds[j].user, ds[j].asset))
      {
        if LedgerSum(ledger, (ds[i].user, ds[i].asset)) != Total(balances, (ds[i].user, ds[i].asset)) {
          return false;
        }
        i := i + 1;
      }
      ok := true;
    }

    /** Settle the event in row `i`.  After an error the tables are left as they were when it
        was found; the caller rolls back. */
    method ProcessEvent(i: nat) returns (r: Result<string, Error>)
      requires i < |events|
      modifies this`ledger, this`balances, this`orders, this`trades
      ensures match Process(h, old(Tables()), events[i])
              case Ok((db, hash)) => r == Ok(hash) && Tables() == db
              case Err(e) => r == Err(e)
    {
      hide Append, ApplyUpdates, TotalsAgree, ChainHolds, AnyNegative, FillOrder, Refusal, Deltas, Updates;
      var row := events[i];
      var p := row.payload;
      var resolved := Resolve(Tables(), p);
      if resolved.Err? {
        return Err(resolved.error);
      }
      var (m, a) := resolved.value;
      var existing := RowsOf(ledger, row.id);
      if existing != [] {
        return Ok(LaterHash(h, p, a, DeltasOf(existing)));
      }
      var refusal := Refusal(Tables(), p, m, a);
      if refusal.Some? {
        return Err(refusal.value);
      }
      var ds, us := Deltas(p, m, a, false), Updates(Tables(), p, m, a);
      var first := Head(ledger);
      InsertLedger(row.id, ds);
      var ok := VerifyChain(row.id, first);
      if !ok {
        return Err(LedgerChainViolation);
      }
      ok := WriteBalances(us);
      if !ok {
        return Err(NegativeBalance);
      }
      ok := CheckTotals(ds);
      if !ok {
        return Err(GlobalLedgerInvariantViolation);
      }
      var hash := FirstHash(h, p, a, ds);
      if row.hash.Some? && row.hash != Some(hash) {
        return Err(SettlementHashMismatch);
      }
      trades := trades + [TradeOf(p, m, a)];
      var filled := FillOrder(orders, p.takerOrder, a.qty);
      if filled.None? {
        return Err(OrderInvariantViolation);
      }
      orders := filled.value;
      filled := FillOrder(orders, p.makerOrder, a.qty);
      if filled.None? {
        return Err(OrderInvariantViolation);
      }
      orders := filled.value;
      return Ok(hash);
    }

    /** One tick.  A broken one is rolled back however far the settlement got; a cut one stops
        between the two updates of an exhausted retry. */
    method RunOnce(fault: Fault)
      modifies this
      ensures State() == Tick(h, old(State()), fault)
    {
      hide Process;
      if halted {
        return;
      }
      var i := NextRow(events);
      if i == |events| {
        return;
      }
      var ledger0, balances0, orders0, trades0 := ledger, balances, orders, trades;
      var row := events[i];
      var r := ProcessEvent(i);
      if fault.broken {
        r := Err(DatabaseError);
      }
      if r.Ok? {
        events := events[i := MarkProcessed(row, r.value)];
        return;
      }
      ledger, balances, orders, trades := ledger0, balances0, orders0, trades0;
      halted := OpensCircuit(r.error);
      if Fatal(r.error) {
        events := events[i := row.(status := Failed)];
      } else {
        events := events[i := CountRetry(row)];
        if events[i].retries >= MAX_RETRIES && !fault.cut {
          events := events[i := events[i].(status := Failed)];
        }
      }
    }

    /** The operator's reset script, statement by statement. */
    method ResetFailedEvents(delete: bool, max: nat, unstickAll: bool, deletePending: bool)
      modifies this`events
      ensures events == ResetScript(old(events), delete, max, unstickAll, deletePending)
    {
      if delete {
        events := Without(events, Failed);
      } else {
        events := RetryAll(events);
      }
      events := UnstickAbove(events, max);
      if unstickAll {
        events := UnstickAbove(events, 0);
      }
      if deletePending {
        events := Without(events, Pending);
      }
    }
  }
}
