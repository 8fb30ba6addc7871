/** Every run of the settlement worker, its crashes and the operator's resets. */
module SettlementRuns {
  import opened Types
  import opened LedgerChain
  import opened Settlement
  import opened SettlementFacts
  import opened SettlementWorker

  // ----- the operator's statements

  lemma {:induction false} WithoutIs(events: seq<EventRow>, status: Status, row: EventRow)
    ensures row in Without(events, status) <==> row in events && row.status != status
  {
    if events != [] {
      var n := |events| - 1;
      WithoutIs(events[..n], status, row);
      assert events == events[..n] + [events[n]];
    }
  }

  /** The script in retry mode leaves every unsettled row selectable exactly when no pending
      row has used up the worker's retries without reaching the script's own threshold. */
  lemma ResetReachesAll(events: seq<EventRow>, max: nat)
    ensures var after := ResetScript(events, false, max, false, false);
            (forall i :: 0 <= i < |after| ==> after[i].status == Processed || Selectable(after[i]))
            <==> (forall i :: 0 <= i < |events| ==> !(events[i].status == Pending && MAX_RETRIES <= events[i].retries < max))
  {
    var after := ResetScript(events, false, max, false, false);
    forall i | 0 <= i < |events|
      ensures (after[i].status == Processed || Selectable(after[i]))
              <==> !(events[i].status == Pending && MAX_RETRIES <= events[i].retries < max)
    {
      assert after[i] == Unstuck(Retried(events[i]), max);
    }
  }

  // ----- runs

  datatype State = State(worker: WorkerState, nextId: nat)

  /** `Stall` is a tick that dies, or is rolled back, before it has written anything. */
  datatype Action =
    | Work(fault: Fault)
    | Stall
    | Arrive(payload: Payload)
    | RetryFailed
    | DeleteFailed
    | Unstick(max: nat)
    | DeletePending
    | CloseCircuit

  function OnEvents(s: State, events: seq<EventRow>): State {
    s.(worker := s.worker.(events := events))
  }

  function Do(h: Hashes, s: State, a: Action): State {
    var events := s.worker.events;
    match a
    case Work(fault) => s.(worker := Tick(h, s.worker, fault))
    case Stall => s
    case Arrive(p) => OnEvents(s, events + [EventRow(s.nextId, p, Pending, 0, None)]).(nextId := s.nextId + 1)
    case RetryFailed => OnEvents(s, RetryAll(events))
    case DeleteFailed => OnEvents(s, Without(events, Failed))
    case Unstick(max) => OnEvents(s, UnstickAbove(events, max))
    case DeletePending => OnEvents(s, Without(events, Pending))
    case CloseCircuit => s.(worker := s.worker.(halted := false))
  }

  function Run(h: Hashes, s: State, actions: seq<Action>): State {
    if actions == [] then s
    else
      var n := |actions| - 1;
      Do(h, Run(h, s, actions[..n]), actions[n])
  }

  // ----- exactly once

  ghost predicate Ascending(events: seq<EventRow>, bound: nat) {
    && (forall i, j :: 0 <= i < j < |events| ==> events[i].id < events[j].id)
    && (forall e :: e in events ==> e.id < bound)
  }

  /** The ledger holds exactly the event's four deltas, in order. */
  ghost predicate Posted(db: Db, e: EventRow) {
    && Resolve(db, e.payload).Ok?
    && var (m, a) := Resolve(db, e.payload).value;
    DeltasOf(RowsOf(db.ledger, e.id)) == Deltas(e.payload, m, a, false)
  }

  /** Rows match the event's status: four when processed, none otherwise. */
  ghost predicate RowsMatch(db: Db, e: EventRow) {
    if e.status == Processed then Posted(db, e) else RowsOf(db.ledger, e.id) == [] && e.hash == None
  }

  ghost predicate Owned(events: seq<EventRow>, id: nat) {
    exists e :: e in events && e.id == id && e.status == Processed
  }

  ghost predicate Absent(events: seq<EventRow>, id: nat) {
    forall e :: e in events ==> e.id != id
  }

  /** The ledger's first `opening` rows were there before the worker: their ids are spent and
      belong to no event.  Every later row belongs to a processed event. */
  ghost predicate NoOrphans(db: Db, events: seq<EventRow>, opening: nat, bound: nat) {
    && opening <= |db.ledger|
    && (forall i :: 0 <= i < |db.ledger| ==>
          if i < opening then db.ledger[i].event < bound && Absent(events, db.ledger[i].event)
          else Owned(events, db.ledger[i].event))
  }

  ghost predicate Once(s: State, opening: nat) {
    && Ascending(s.worker.events, s.nextId)
    && (forall e :: e in s.worker.events ==> RowsMatch(s.worker.db, e))
    && NoOrphans(s.worker.db, s.worker.events, opening, s.nextId)
  }

  /** A change of the event table that settles nothing: rows may go or change their retries,
      but no row becomes processed and no processed row changes. */
  ghost predicate Reworks(before: seq<EventRow>, after: seq<EventRow>) {
    && (forall e :: e in after ==> Kin(before, e))
    && (forall e :: e in before && e.status == Processed ==> e in after)
  }

  ghost predicate Kin(before: seq<EventRow>, e: EventRow) {
    exists b :: b in before && b.id == e.id && if b.status == Processed then e == b else e.status != Processed && e.hash == b.hash
  }

  lemma ReworkKeeps(s: State, events: seq<EventRow>, opening: nat)
    requires Once(s, opening) && Reworks(s.worker.events, events) && Ascending(events, s.nextId)
    ensures Once(OnEvents(s, events), opening)
  {
    var db, old' := s.worker.db, s.worker.events;
    forall e | e in events ensures RowsMatch(db, e) {
      assert Kin(old', e);
      var b :| b in old' && b.id == e.id && if b.status == Processed then e == b else e.status != Processed && e.hash == b.hash;
      assert RowsMatch(db, b);
    }
    forall i | 0 <= i < |db.ledger|
      ensures if i < opening then db.ledger[i].event < s.nextId && Absent(events, db.ledger[i].event)
              else Owned(events, db.ledger[i].event)
    {
      hide RowsMatch;
      if i < opening {
        forall e | e in events ensures e.id != db.ledger[i].event {
          assert Kin(old', e);
        }
      } else {
        assert Owned(old', db.ledger[i].event);
      }
    }
  }

  lemma {:induction false} WithoutReworks(events: seq<EventRow>, status: Status, bound: nat)
    requires Ascending(events, bound) && status != Processed
    ensures Reworks(events, Without(events, status)) && Ascending(Without(events, status), bound)
  {
    forall e ensures e in Without(events, status) <==> e in events && e.status != status {
      WithoutIs(events, status, e);
    }
    forall e | e in Without(events, status) ensures Kin(events, e) {
      assert e in events;
    }
    WithoutAscending(events, status, bound);
  }

  lemma {:induction false} WithoutAscending(events: seq<EventRow>, status: Status, bound: nat)
    requires Ascending(events, bound)
    ensures Ascending(Without(events, status), bound)
  {
    if events != [] {
      var n := |events| - 1;
      assert events == events[..n] + [events[n]];
      WithoutAscending(events[..n], status, bound);
      forall e | e in Without(events[..n], status) ensures e.id < events[n].id {
        WithoutIs(events[..n], status, e);
      }
    }
  }

  lemma MapReworks(events: seq<EventRow>, after: seq<EventRow>, bound: nat)
    requires Ascending(events, bound) && |after| == |events|
    requires forall i :: 0 <= i < |events| ==>
               && after[i].id == events[i].id && after[i].hash == events[i].hash
               && (if events[i].status == Processed then after[i] == events[i] else after[i].status != Processed)
    ensures Reworks(events, after) && Ascending(after, bound)
  {
    forall e | e in after ensures Kin(events, e) && e.id < bound {
      var i :| 0 <= i < |after| && after[i] == e;
      assert events[i] in events;
    }
    forall e | e in events && e.status == Processed ensures e in after {
      var i :| 0 <= i < |events| && events[i] == e;
      assert after[i] in after;
    }
  }

  // ----- the reset script as a whole

  lemma {:induction false} ReworksTransitive(a: seq<EventRow>, b: seq<EventRow>, c: seq<EventRow>)
    requires Reworks(a, b) && Reworks(b, c)
    ensures Reworks(a, c)
  {
    forall e | e in c ensures Kin(a, e) {
      assert Kin(b, e);
      var f :| f in b && f.id == e.id && if f.status == Processed then e == f else e.status != Processed && e.hash == f.hash;
      assert Kin(a, f);
    }
  }

  lemma UnstickReworks(events: seq<EventRow>, max: nat, bound: nat)
    requires Ascending(events, bound)
    ensures Reworks(events, UnstickAbove(events, max)) && Ascending(UnstickAbove(events, max), bound)
  {
    MapReworks(events, UnstickAbove(events, max), bound);
  }

  lemma ResetReworks(events: seq<EventRow>, delete: bool, max: nat, unstickAll: bool, deletePending: bool, bound: nat)
    requires Ascending(events, bound)
    ensures var after := ResetScript(events, delete, max, unstickAll, deletePending);
            Reworks(events, after) && Ascending(after, bound)
  {
    var a := if delete then Without(events, Failed) else RetryAll(events);
    if delete {
      WithoutReworks(events, Failed, bound);
    } else {
      MapReworks(events, RetryAll(events), bound);
    }
    hide Reworks, Ascending;
    UnstickReworks(a, max, bound);
    var b := UnstickAbove(a, max);
    ReworksTransitive(events, a, b);
    UnstickReworks(b, 0, bound);
    var c := if unstickAll then UnstickAbove(b, 0) else b;
    if unstickAll {
      ReworksTransitive(events, b, c);
    }
    WithoutReworks(c, Pending, bound);
    if deletePending {
      ReworksTransitive(events, c, Without(c, Pending));
    }
  }

  /** What the script leaves of a row. */
  ghost predicate Reset(e: EventRow, max: nat, unstickAll: bool, deletePending: bool) {
    && e.status != Failed
    && (e.status == Pending ==> !deletePending && (max > 0 ==> e.retries < max) && (unstickAll ==> e.retries == 0))
  }

  lemma ResetRows(events: seq<EventRow>, delete: bool, max: nat, unstickAll: bool, deletePending: bool)
    ensures forall e :: e in ResetScript(events, delete, max, unstickAll, deletePending) ==> Reset(e, max, unstickAll, deletePending)
  {
    var a := if delete then Without(events, Failed) else RetryAll(events);
    var b := UnstickAbove(a, max);
    var c := if unstickAll then UnstickAbove(b, 0) else b;
    forall e | e in a ensures e.status != Failed {
      WithoutIs(events, Failed, e);
      if !delete {
        var i :| 0 <= i < |a| && a[i] == e;
      }
    }
    forall e | e in b ensures Reset(e, max, false, false) {
      var i :| 0 <= i < |b| && b[i] == e;
      assert a[i] in a && e == Unstuck(a[i], max);
    }
    forall e | e in c ensures Reset(e, max, unstickAll, false) {
      var i :| 0 <= i < |c| && c[i] == e;
      assert b[i] in b && (unstickAll ==> e == Unstuck(b[i], 0));
    }
    forall e | e in Without(c, Pending) ensures Reset(e, max, unstickAll, true) {
      WithoutIs(c, Pending, e);
    }
  }

  /** Resetting is safe and does what it is for.  No failed row is left, pending rows are below
      the threshold or gone as asked, settled rows are all still there unchanged and no other
      row became settled, and exactly-once settlement still holds. */
  lemma ResetOutcome(s: State, opening: nat, delete: bool, max: nat, unstickAll: bool, deletePending: bool)
    requires Once(s, opening)
    ensures var after := ResetScript(s.worker.events, delete, max, unstickAll, deletePending);
            && (forall e :: e in after ==> Reset(e, max, unstickAll, deletePending))
            && Reworks(s.worker.events, after)
            && Once(OnEvents(s, after), opening)
  {
    ResetRows(s.worker.events, delete, max, unstickAll, deletePending);
    OnceAscends(s, opening);
    hide Once, ResetScript, Reset, Reworks, Ascending;
    ResetReworks(s.worker.events, delete, max, unstickAll, deletePending, s.nextId);
    ReworkKeeps(s, ResetScript(s.worker.events, delete, max, unstickAll, deletePending), opening);
  }

  // ----- a committed tick

  /** What a settlement that commits did to the ledger. */
  lemma CommitAppends(h: Hashes, db: Db, row: EventRow)
    requires Process(h, db, row).Ok?
    ensures Resolve(db, row.payload).Ok?
    ensures var (m, a) := Resolve(db, row.payload).value;
            var db' := Process(h, db, row).value.0;
            && db'.markets == db.markets
            && db'.ledger == if RowsOf(db.ledger, row.id) != [] then db.ledger
                             else Append(h.codec, db.ledger, row.id, Deltas(row.payload, m, a, false))
  {
    hide Append, ApplyUpdates, TotalsAgree, ChainHolds, AnyNegative, FillOrders, Refusal, Deltas, Updates, RowsOf;
  }

  /** Settling again an event that already has rows changes no table. */
  lemma ResettlingChangesNothing(h: Hashes, db: Db, row: EventRow)
    requires RowsOf(db.ledger, row.id) != []
    ensures match Process(h, db, row)
            case Ok((db', _)) => db' == db
            case Err(e) => Resolve(db, row.payload) == Err(e)
  {
    hide RowsOf, Post, Refusal;
  }

  lemma AppendedDeltas(k: Codec, ledger: seq<LedgerRow>, id: nat, ds: seq<Delta>)
    requires RowsOf(ledger, id) == []
    ensures DeltasOf(RowsOf(Append(k, ledger, id, ds), id)) == ds
  {
    RowsOfAppend(k, ledger, id, ds);
    AppendAdds(k, ledger, id, ds);
    hide Append, RowsOf;
  }

  lemma OthersStillMatch(k: Codec, db: Db, db': Db, id: nat, ds: seq<Delta>, e: EventRow)
    requires RowsMatch(db, e) && e.id != id
    requires db'.markets == db.markets && db'.ledger == Append(k, db.ledger, id, ds)
    ensures RowsMatch(db', e)
  {
    OtherRowsOfAppend(k, db.ledger, id, ds, e.id);
    hide Append, RowsOf, Deltas, DeltasOf;
  }

  lemma CommitKeepsRows(k: Codec, db: Db, db': Db, events: seq<EventRow>, i: nat, m: MarketRow, a: Amounts, hash: string, bound: nat)
    requires i < |events| && Ascending(events, bound) && (forall e :: e in events ==> RowsMatch(db, e))
    requires events[i].status == Pending && Resolve(db, events[i].payload) == Ok((m, a)) && db'.markets == db.markets
    requires db'.ledger == Append(k, db.ledger, events[i].id, Deltas(events[i].payload, m, a, false))
    ensures forall e :: e in events[i := MarkProcessed(events[i], hash)] ==> RowsMatch(db', e)
  {
    var ds := Deltas(events[i].payload, m, a, false);
    var after := events[i := MarkProcessed(events[i], hash)];
    assert RowsMatch(db, events[i]);
    AppendedDeltas(k, db.ledger, events[i].id, ds);
    assert RowsMatch(db', after[i]);
    forall e | e in after ensures RowsMatch(db', e) {
      hide Append, RowsOf, Deltas, DeltasOf, RowsMatch;
      var j :| 0 <= j < |after| && after[j] == e;
      if j != i {
        assert events[j] == e && e in events;
        OthersStillMatch(k, db, db', events[i].id, ds, e);
      }
    }
  }

  lemma CommitKeepsOrphans(k: Codec, db: Db, db': Db, events: seq<EventRow>, i: nat, ds: seq<Delta>, hash: string, opening: nat, bound: nat)
    requires i < |events| && Ascending(events, bound) && NoOrphans(db, events, opening, bound)
    requires events[i].status == Pending && db'.ledger == Append(k, db.ledger, events[i].id, ds)
    ensures NoOrphans(db', events[i := MarkProcessed(events[i], hash)], opening, bound)
  {
    var after := events[i := MarkProcessed(events[i], hash)];
    AppendAdds(k, db.ledger, events[i].id, ds);
    hide Append;
    assert after[i] in after;
    assert Owned(after, events[i].id);
    forall id | Owned(events, id) ensures Owned(after, id) {
      var e :| e in events && e.id == id && e.status == Processed;
      var j :| 0 <= j < |events| && events[j] == e;
      assert after[j] == e && after[j] in after;
    }
    forall id | Absent(events, id) ensures Absent(after, id) {
      assert events[i] in events;
      forall e | e in after ensures e.id != id {
        var j :| 0 <= j < |after| && after[j] == e;
        assert events[j] in events;
      }
    }
    forall n | 0 <= n < |db'.ledger|
      ensures if n < opening then db'.ledger[n].event < bound && Absent(after, db'.ledger[n].event)
              else Owned(after, db'.ledger[n].event)
    {
      if n < |db.ledger| {
        assert db'.ledger[n] == db'.ledger[..|db.ledger|][n] == db.ledger[n];
      }
    }
  }

  lemma AscendingUpdate(events: seq<EventRow>, i: nat, e: EventRow, bound: nat)
    requires i < |events| && Ascending(events, bound) && e.id == events[i].id
    ensures Ascending(events[i := e], bound)
  {
    assert events[i] in events;
  }

  lemma FailureKeepsOnce(s: State, i: nat, e: Error, cut: bool, opening: nat)
    requires Once(s, opening) && i < |s.worker.events| && Selectable(s.worker.events[i])
    ensures Once(OnEvents(s, s.worker.events[i := Recorded(s.worker.events[i], e, cut)]), opening)
  {
    OnceAscends(s, opening);
    hide Once, Ascending;
    var after := s.worker.events[i := Recorded(s.worker.events[i], e, cut)];
    MapReworks(s.worker.events, after, s.nextId);
    ReworkKeeps(s, after, opening);
  }

  lemma CommitKeepsOnce(h: Hashes, s: State, i: nat, opening: nat)
    requires Once(s, opening) && i < |s.worker.events| && Selectable(s.worker.events[i])
    requires Process(h, s.worker.db, s.worker.events[i]).Ok?
    ensures var (db, hash) := Process(h, s.worker.db, s.worker.events[i]).value;
            Once(s.(worker := s.worker.(db := db, events := s.worker.events[i := MarkProcessed(s.worker.events[i], hash)])), opening)
  {
    var events, db := s.worker.events, s.worker.db;
    var (db', hash) := Process(h, db, events[i]).value;
    CommitAppends(h, db, events[i]);
    assert events[i] in events && RowsMatch(db, events[i]);
    hide Process, RowsMatch, Deltas, Append, NoOrphans, RowsOf, Resolve;
    var (m, a) := Resolve(db, events[i].payload).value;
    CommitKeepsRows(h.codec, db, db', events, i, m, a, hash, s.nextId);
    CommitKeepsOrphans(h.codec, db, db', events, i, Deltas(events[i].payload, m, a, false), hash, opening, s.nextId);
    AscendingUpdate(events, i, MarkProcessed(events[i], hash), s.nextId);
  }

  lemma TickKeepsOnce(h: Hashes, s: State, fault: Fault, opening: nat)
    requires Once(s, opening)
    ensures Once(Do(h, s, Work(fault)), opening)
  {
    hide Process;
    var i := NextRow(s.worker.events);
    if !s.worker.halted && i < |s.worker.events| {
      var r := Attempt(h, s.worker.db, s.worker.events[i], fault.broken);
      if r.Err? {
        FailureKeepsOnce(s, i, r.error, fault.cut, opening);
      } else {
        CommitKeepsOnce(h, s, i, opening);
      }
      hide Recorded, Selectable, RowsMatch, NoOrphans, Ascending;
    }
  }

  lemma {:induction false} NoRows(ledger: seq<LedgerRow>, id: nat)
    requires forall i :: 0 <= i < |ledger| ==> ledger[i].event != id
    ensures RowsOf(ledger, id) == []
  {
    if ledger != [] {
      NoRows(ledger[..|ledger| - 1], id);
    }
  }

  lemma ArriveKeepsOrphans(s: State, row: EventRow, opening: nat)
    requires Once(s, opening) && row.id == s.nextId
    ensures NoOrphans(s.worker.db, s.worker.events + [row], opening, s.nextId + 1)
    ensures RowsOf(s.worker.db.ledger, row.id) == []
  {
    hide RowsMatch;
    var events, db := s.worker.events, s.worker.db;
    var after := events + [row];
    forall i | 0 <= i < |db.ledger|
      ensures db.ledger[i].event < s.nextId
      ensures if i < opening then Absent(after, db.ledger[i].event) else Owned(after, db.ledger[i].event)
    {
      if i >= opening {
        assert Owned(events, db.ledger[i].event);
        var e :| e in events && e.id == db.ledger[i].event && e.status == Processed;
        assert e in after;
      } else {
        assert Absent(events, db.ledger[i].event);
      }
    }
    NoRows(db.ledger, s.nextId);
  }

  lemma AscendingSnoc(events: seq<EventRow>, row: EventRow)
    requires Ascending(events, row.id)
    ensures Ascending(events + [row], row.id + 1)
  {
    forall e | e in events + [row] ensures e.id < row.id + 1 {
      assert e in events || e == row;
    }
  }

  lemma ArriveKeepsOnce(h: Hashes, s: State, p: Payload, opening: nat)
    requires Once(s, opening)
    ensures Once(Do(h, s, Arrive(p)), opening)
  {
    var row := EventRow(s.nextId, p, Pending, 0, None);
    ArriveKeepsOrphans(s, row, opening);
    AscendingSnoc(s.worker.events, row);
    assert RowsMatch(s.worker.db, row);
    hide RowsMatch, RowsOf, NoOrphans, Ascending, Tick;
    forall e | e in s.worker.events + [row] ensures RowsMatch(s.worker.db, e) {
      assert e in s.worker.events || e == row;
    }
  }

  lemma ActionKeepsOnce(h: Hashes, s: State, a: Action, opening: nat)
    requires Once(s, opening)
    ensures Once(Do(h, s, a), opening)
  {
    hide Once, Reworks, Tick;
    var events := s.worker.events;
    assert Ascending(events, s.nextId) by {
      OnceAscends(s, opening);
    }
    hide Ascending;
    match a
    case Work(fault) => TickKeepsOnce(h, s, fault, opening);
    case Stall =>
    case Arrive(p) => ArriveKeepsOnce(h, s, p, opening);
    case RetryFailed =>
      MapReworks(events, RetryAll(events), s.nextId);
      ReworkKeeps(s, RetryAll(events), opening);
    case DeleteFailed =>
      WithoutReworks(events, Failed, s.nextId);
      ReworkKeeps(s, Without(events, Failed), opening);
    case Unstick(max) =>
      MapReworks(events, UnstickAbove(events, max), s.nextId);
      ReworkKeeps(s, UnstickAbove(events, max), opening);
    case DeletePending =>
      WithoutReworks(events, Pending, s.nextId);
      ReworkKeeps(s, Without(events, Pending), opening);
    case CloseCircuit => OnceIgnoresCircuit(s, opening);
  }

  lemma OnceAscends(s: State, opening: nat)
    requires Once(s, opening)
    ensures Ascending(s.worker.events, s.nextId)
  {
  }

  lemma OnceIgnoresCircuit(s: State, opening: nat)
    requires Once(s, opening)
    ensures Once(s.(worker := s.worker.(halted := false)), opening)
  {
  }

  /** Exactly-once settlement in every run: each processed event has its four rows and no
      more, every other event has none, and no row is orphaned. */
  lemma {:induction false} ExactlyOnce(h: Hashes, s: State, actions: seq<Action>, opening: nat)
    requires Once(s, opening)
    ensures Once(Run(h, s, actions), opening)
  {
    if actions != [] {
      var n := |actions| - 1;
      ExactlyOnce(h, s, actions[..n], opening);
      hide Once;
      ActionKeepsOnce(h, Run(h, s, actions[..n]), actions[n], opening);
    }
  }
}
