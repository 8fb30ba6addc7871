/** Rebuilding the settlement ledger from the processed events. */
module Rebuild {
  import opened Types
  import opened Rounding
  import opened LedgerChain
  import opened Settlement
  import opened SettlementFacts
  import opened SettlementRuns

  /** A fresh ledger holding the deltas of the processed events in id order; an event that
      cannot be resolved fails the whole script. */
  function Rebuilt(k: Codec, db: Db, events: seq<EventRow>, rebates: bool): Result<seq<LedgerRow>, Error> {
    if events == [] then Ok([])
    else
      var n := |events| - 1;
      match Rebuilt(k, db, events[..n], rebates)
      case Err(e) => Err(e)
      case Ok(ledger) =>
        if events[n].status != Processed then Ok(ledger)
        else
          match Resolve(db, events[n].payload)
          case Err(e) => Err(e)
          case Ok((m, a)) => Ok(Append(k, ledger, events[n].id, Deltas(events[n].payload, m, a, rebates)))
  }

  /** Once a prefix has failed, so has the whole. */
  lemma {:induction false} FailureSticks(k: Codec, db: Db, events: seq<EventRow>, rebates: bool, n: nat, e: Error)
    requires n <= |events| && Rebuilt(k, db, events[..n], rebates) == Err(e)
    ensures Rebuilt(k, db, events, rebates) == Err(e)
  {
    if n == |events| {
      assert events[..n] == events;
    } else {
      assert events[..|events| - 1][..n] == events[..n];
      FailureSticks(k, db, events[..|events| - 1], rebates, n, e);
    }
  }

  /** The script: truncate, then insert row by row while carrying the previous hash; any
      failure rolls the table back. */
  method RebuildLedger(k: Codec, db: Db, events: seq<EventRow>, rebates: bool) returns (ledger: seq<LedgerRow>, r: Result<nat, Error>)
    ensures match Rebuilt(k, db, events, rebates)
            case Ok(rebuilt) => ledger == rebuilt && r == Ok(|rebuilt|)
            case Err(e) => ledger == db.ledger && r == Err(e)
  {
    ledger := [];
    var prev: Option<string> := None;
    var inserted := 0;
    var i := 0;
    while i < |events|
      invariant 0 <= i <= |events|
      invariant Rebuilt(k, db, events[..i], rebates) == Ok(ledger)
      invariant prev == Head(ledger) && inserted == |ledger|
    {
      assert events[..i + 1][..i] == events[..i];
      if events[i].status == Processed {
        var resolved := Resolve(db, events[i].payload);
        if resolved.Err? {
          FailureSticks(k, db, events, rebates, i + 1, resolved.error);
          return db.ledger, Err(resolved.error);
        }
        var (m, a) := resolved.value;
        var ds := Deltas(events[i].payload, m, a, rebates);
        ghost var before := ledger;
        hide Resolve, Deltas, Rebuilt;
        var j := 0;
        while j < |ds|
          invariant 0 <= j <= |ds|
          invariant ledger == Append(k, before, events[i].id, ds[..j])
          invariant prev == Head(ledger) && inserted == |ledger|
        {
          assert ds[..j + 1][..j] == ds[..j];
          var entry := Entry(k, prev, events[i].id, ds[j]);
          ledger := ledger + [entry];
          prev := entry.hash;
          inserted := inserted + 1;
          j := j + 1;
        }
        assert ds[..j] == ds;
      }
      i := i + 1;
    }
    assert events[..i] == events;
    r := Ok(inserted);
  }

  /** The rebuilt table is one chain. */
  lemma {:induction false} RebuiltIsLinked(k: Codec, db: Db, events: seq<EventRow>, rebates: bool)
    requires Rebuilt(k, db, events, rebates).Ok?
    ensures Linked(k, Rebuilt(k, db, events, rebates).value)
  {
    if events != [] {
      var n := |events| - 1;
      RebuiltIsLinked(k, db, events[..n], rebates);
      hide Linked, Deltas, Append, Resolve;
      if events[n].status == Processed {
        var (m, a) := Resolve(db, events[n].payload).value;
        AppendKeepsLinked(k, Rebuilt(k, db, events[..n], rebates).value, events[n].id, Deltas(events[n].payload, m, a, rebates));
      }
    }
  }

  // ----- sums over the rows of some events

  ghost function SumWhere(ledger: seq<LedgerRow>, ids: set<nat>, x: Account): int {
    if ledger == [] then 0
    else
      var n := |ledger| - 1;
      SumWhere(ledger[..n], ids, x) + if ledger[n].event in ids then AmountFor(ledger[n].delta, x) else 0
  }

  lemma DeltasOfSnoc(rows: seq<LedgerRow>, row: LedgerRow, x: Account)
    ensures SumDeltas(DeltasOf(rows + [row]), x) == SumDeltas(DeltasOf(rows), x) + AmountFor(row.delta, x)
  {
    assert DeltasOf(rows + [row])[..|rows|] == DeltasOf(rows);
  }

  /** One more event adds exactly its own rows. */
  lemma {:induction false} SumWhereAdd(ledger: seq<LedgerRow>, ids: set<nat>, id: nat, x: Account)
    requires id !in ids
    ensures SumWhere(ledger, ids + {id}, x) == SumWhere(ledger, ids, x) + SumDeltas(DeltasOf(RowsOf(ledger, id)), x)
  {
    if ledger != [] {
      var n := |ledger| - 1;
      SumWhereAdd(ledger[..n], ids, id, x);
      DeltasOfSnoc(RowsOf(ledger[..n], id), ledger[n], x);
      hide DeltasOf, SumDeltas, AmountFor;
      assert RowsOf(ledger[..n], id) + [] == RowsOf(ledger[..n], id);
    }
  }

  lemma {:induction false} SumWhereNone(ledger: seq<LedgerRow>, x: Account)
    ensures SumWhere(ledger, {}, x) == 0
  {
    if ledger != [] {
      SumWhereNone(ledger[..|ledger| - 1], x);
    }
  }

  /** When the first `opening` rows are of other events and all later ones of these. */
  lemma {:induction false} SumWhereAll(ledger: seq<LedgerRow>, ids: set<nat>, opening: nat, x: Account)
    requires opening <= |ledger|
    requires forall i :: 0 <= i < |ledger| ==> (ledger[i].event in ids <==> i >= opening)
    ensures SumWhere(ledger, ids, x) == LedgerSum(ledger, x) - LedgerSum(ledger[..opening], x)
  {
    if |ledger| > opening {
      var n := |ledger| - 1;
      assert ledger[..n][..opening] == ledger[..opening];
      SumWhereAll(ledger[..n], ids, opening, x);
    } else if ledger != [] {
      var n := |ledger| - 1;
      assert ledger[..opening] == ledger;
      SumWhereAll(ledger[..n], ids, n, x);
      assert ledger[..n][..n] == ledger[..n];
    }
  }

  ghost function SettledIds(events: seq<EventRow>): set<nat> {
    set e | e in events && e.status == Processed :: e.id
  }

  lemma SettledIdsSnoc(events: seq<EventRow>, bound: nat)
    requires events != [] && Ascending(events, bound)
    ensures var n := |events| - 1;
            && events[n].id !in SettledIds(events[..n]) && Ascending(events[..n], bound)
            && SettledIds(events) == if events[n].status == Processed then SettledIds(events[..n]) + {events[n].id} else SettledIds(events[..n])
  {
    var n := |events| - 1;
    var before := events[..n];
    assert events == before + [events[n]];
    forall id ensures id in SettledIds(events) <==>
        id in SettledIds(before) || (events[n].status == Processed && id == events[n].id) {
      if id in SettledIds(before) {
        var e :| e in before && e.status == Processed && e.id == id;
        assert e in events;
      }
      if events[n].status == Processed && id == events[n].id {
        assert events[n] in events;
      }
    }
  }

  lemma {:induction false} RebuiltSums(k: Codec, db: Db, events: seq<EventRow>, bound: nat, x: Account)
    requires Ascending(events, bound) && forall e :: e in events && e.status == Processed ==> Posted(db, e)
    ensures Rebuilt(k, db, events, false).Ok?
    ensures LedgerSum(Rebuilt(k, db, events, false).value, x) == SumWhere(db.ledger, SettledIds(events), x)
  {
    if events == [] {
      assert SettledIds(events) == {};
      SumWhereNone(db.ledger, x);
    } else {
      var n := |events| - 1;
      var e := events[n];
      SettledIdsSnoc(events, bound);
      RebuiltSums(k, db, events[..n], bound, x);
      if e.status == Processed {
        assert Posted(db, e);
        SumWhereAdd(db.ledger, SettledIds(events[..n]), e.id, x);
        hide SettledIds, Ascending, RowsOf, DeltasOf, SumWhere, Append, Deltas, LedgerSum, Resolve, SumDeltas;
        var (m, a) := Resolve(db, e.payload).value;
        LedgerSumAppend(k, Rebuilt(k, db, events[..n], false).value, e.id, Deltas(e.payload, m, a, false), x);
      }
    }
  }

  /** After any exactly-once history the rebuild succeeds and every account keeps its sum,
      less what the rows that were there before the worker had put in. */
  lemma RebuildKeepsSums(k: Codec, s: State, opening: nat, x: Account)
    requires Once(s, opening)
    ensures var db := s.worker.db;
            var r := Rebuilt(k, db, s.worker.events, false);
            r.Ok? && LedgerSum(r.value, x) == LedgerSum(db.ledger, x) - LedgerSum(db.ledger[..opening], x)
  {
    var events, db := s.worker.events, s.worker.db;
    forall e | e in events && e.status == Processed ensures Posted(db, e) {
      assert RowsMatch(db, e);
    }
    RebuiltSums(k, db, events, s.nextId, x);
    hide Posted, RowsMatch, Rebuilt, LedgerSum;
    forall i | 0 <= i < |db.ledger| ensures db.ledger[i].event in SettledIds(events) <==> i >= opening {
      if i >= opening {
        assert Owned(events, db.ledger[i].event);
      } else {
        assert Absent(events, db.ledger[i].event);
      }
    }
    SumWhereAll(db.ledger, SettledIds(events), opening, x);
  }

  ghost predicate AddsNothing(ledger: seq<LedgerRow>) {
    forall x :: LedgerSum(ledger, x) == 0
  }

  /** A rebuild keeps a healthy database healthy if and only if the opening rows it drops
      add up to nothing on every account. */
  lemma RebuildKeepsHealthy(k: Codec, s: State, opening: nat)
    requires Once(s, opening) && Healthy(s.worker.db)
    ensures var db := s.worker.db;
            var r := Rebuilt(k, db, s.worker.events, false);
            r.Ok? && (Healthy(db.(ledger := r.value)) <==> AddsNothing(db.ledger[..opening]))
  {
    var db := s.worker.db;
    RebuildKeepsSums(k, s, opening, (0, ""));
    var db' := db.(ledger := Rebuilt(k, db, s.worker.events, false).value);
    hide Rebuilt, LedgerSum, Once, NonNegative;
    if Healthy(db') {
      forall x ensures LedgerSum(db.ledger[..opening], x) == 0 {
        RebuildKeepsSums(k, s, opening, x);
        assert AgreesAt(db, x) && AgreesAt(db', x);
      }
    }
    if AddsNothing(db.ledger[..opening]) {
      forall x ensures AgreesAt(db', x) {
        RebuildKeepsSums(k, s, opening, x);
        assert AgreesAt(db, x);
      }
    }
  }

  // ----- rebates

  /** Twice the maker's fee of a buy, at the maker's quote account. */
  function Drift(db: Db, e: EventRow, x: Account): int {
    if e.status != Processed || e.payload.takerSide == Sell then 0
    else
      match Resolve(db, e.payload)
      case Err(_) => 0
      case Ok((m, a)) => if x == (e.payload.makerUser, m.quote) then 2 * a.makerFee else 0
  }

  function TotalDrift(db: Db, events: seq<EventRow>, x: Account): int {
    if events == [] then 0
    else TotalDrift(db, events[..|events| - 1], x) + Drift(db, events[|events| - 1], x)
  }

  lemma RebateDelta(db: Db, e: EventRow, m: MarketRow, a: Amounts, x: Account)
    requires e.status == Processed && Resolve(db, e.payload) == Ok((m, a))
    ensures SumDeltas(Deltas(e.payload, m, a, true), x) == SumDeltas(Deltas(e.payload, m, a, false), x) + Drift(db, e, x)
  {
    var p := e.payload;
    SumOfFour(Deltas(p, m, a, true), x);
    SumOfFour(Deltas(p, m, a, false), x);
    NetCreditIsExact(p.price.value, p.qty.value, MAKER_FEE_PARTS, m.quoteUnit);
    hide SumDeltas, RoundDown, TradeValue, FeeOf;
  }

  /** With maker rebates switched on, a rebuild credits each maker twice the fee of every fill
      sold to a buying taker, over what the worker had written. */
  lemma {:induction false} RebatesDrift(k: Codec, db: Db, events: seq<EventRow>, x: Account)
    requires Rebuilt(k, db, events, false).Ok?
    ensures Rebuilt(k, db, events, true).Ok?
    ensures LedgerSum(Rebuilt(k, db, events, true).value, x)
            == LedgerSum(Rebuilt(k, db, events, false).value, x) + TotalDrift(db, events, x)
  {
    if events != [] {
      var n := |events| - 1;
      var e := events[n];
      RebatesDrift(k, db, events[..n], x);
      if e.status == Processed {
        var (m, a) := Resolve(db, e.payload).value;
        RebateDelta(db, e, m, a, x);
        hide Append, Deltas, LedgerSum, Resolve, SumDeltas, Drift;
        LedgerSumAppend(k, Rebuilt(k, db, events[..n], false).value, e.id, Deltas(e.payload, m, a, false), x);
        LedgerSumAppend(k, Rebuilt(k, db, events[..n], true).value, e.id, Deltas(e.payload, m, a, true), x);
      }
    }
  }

  // ----- the rebuilt rows

  lemma {:induction false} RebuiltOwned(k: Codec, db: Db, events: seq<EventRow>, bound: nat)
    requires Rebuilt(k, db, events, false).Ok? && Ascending(events, bound)
    ensures forall r :: r in Rebuilt(k, db, events, false).value ==> r.event in SettledIds(events)
  {
    if events != [] {
      var n := |events| - 1;
      SettledIdsSnoc(events, bound);
      RebuiltOwned(k, db, events[..n], bound);
      if events[n].status == Processed {
        var (m, a) := Resolve(db, events[n].payload).value;
        var ds := Deltas(events[n].payload, m, a, false);
        var before := Rebuilt(k, db, events[..n], false).value;
        AppendAdds(k, before, events[n].id, ds);
        var all := Append(k, before, events[n].id, ds);
        hide Append, Deltas, Resolve, SettledIds, Ascending;
        forall r | r in all ensures r in before || r.event == events[n].id {
          var i :| 0 <= i < |all| && all[i] == r;
          assert i < |before| ==> all[..|before|][i] == r;
        }
      }
    }
  }

  lemma RebuiltHasNo(k: Codec, db: Db, events: seq<EventRow>, bound: nat, id: nat)
    requires Rebuilt(k, db, events, false).Ok? && Ascending(events, bound) && id !in SettledIds(events)
    ensures RowsOf(Rebuilt(k, db, events, false).value, id) == []
  {
    RebuiltOwned(k, db, events, bound);
    hide Rebuilt, SettledIds;
    NoRows(Rebuilt(k, db, events, false).value, id);
  }

  lemma DistinctRows(events: seq<EventRow>, bound: nat, e: EventRow, f: EventRow)
    requires Ascending(events, bound) && e in events && f in events && e != f
    ensures e.id != f.id
  {
    var i :| 0 <= i < |events| && events[i] == e;
    var j :| 0 <= j < |events| && events[j] == f;
  }

  lemma NotSettled(events: seq<EventRow>, bound: nat, e: EventRow)
    requires Ascending(events, bound) && e in events && e.status != Processed
    ensures e.id !in SettledIds(events)
  {
    forall f | f in events && f.status == Processed ensures f.id != e.id {
      DistinctRows(events, bound, e, f);
    }
  }

  lemma PostedByAppend(k: Codec, db: Db, ledger: seq<LedgerRow>, e: EventRow, m: MarketRow, a: Amounts)
    requires Resolve(db, e.payload) == Ok((m, a)) && RowsOf(ledger, e.id) == []
    ensures Posted(db.(ledger := Append(k, ledger, e.id, Deltas(e.payload, m, a, false))), e)
  {
    AppendedDeltas(k, ledger, e.id, Deltas(e.payload, m, a, false));
    hide Append, Deltas, RowsOf, DeltasOf;
  }

  lemma StillPosted(k: Codec, db: Db, ledger: seq<LedgerRow>, id: nat, ds: seq<Delta>, e: EventRow)
    requires e.id != id && Posted(db.(ledger := ledger), e)
    ensures Posted(db.(ledger := Append(k, ledger, id, ds)), e)
  {
    OtherRowsOfAppend(k, ledger, id, ds, e.id);
    hide Append, Deltas, RowsOf, DeltasOf;
  }

  lemma {:induction false} RebuiltPosts(k: Codec, db: Db, events: seq<EventRow>, bound: nat, e: EventRow)
    requires Rebuilt(k, db, events, false).Ok? && Ascending(events, bound) && e in events && e.status == Processed
    ensures Posted(db.(ledger := Rebuilt(k, db, events, false).value), e)
  {
    var n := |events| - 1;
    var last, before := events[n], Rebuilt(k, db, events[..n], false).value;
    SettledIdsSnoc(events, bound);
    assert events == events[..n] + [last];
    hide Posted, SettledIds, Append, Deltas, Resolve, RowsOf;
    if e != last {
      DistinctRows(events, bound, e, last);
      hide Ascending;
      RebuiltPosts(k, db, events[..n], bound, e);
      if last.status == Processed {
        var (m, a) := Resolve(db, last.payload).value;
        StillPosted(k, db, before, last.id, Deltas(last.payload, m, a, false), e);
      }
    } else {
      hide Ascending;
      var (m, a) := Resolve(db, last.payload).value;
      RebuiltHasNo(k, db, events[..n], bound, last.id);
      PostedByAppend(k, db, before, last, m, a);
    }
  }

  /** A rebuild leaves an exactly-once ledger in which no row, opening or not, is without its
      event. */
  lemma RebuildKeepsOnce(k: Codec, s: State, opening: nat)
    requires Once(s, opening)
    ensures var r := Rebuilt(k, s.worker.db, s.worker.events, false);
            r.Ok? && Once(s.(worker := s.worker.(db := s.worker.db.(ledger := r.value))), 0)
  {
    RebuildKeepsSums(k, s, opening, (0, ""));
    var events, db := s.worker.events, s.worker.db;
    var ledger := Rebuilt(k, db, events, false).value;
    var db' := db.(ledger := ledger);
    RebuiltOwned(k, db, events, s.nextId);
    forall e | e in events ensures RowsMatch(db', e) {
      assert RowsMatch(db, e);
      if e.status == Processed {
        RebuiltPosts(k, db, events, s.nextId, e);
      } else {
        NotSettled(events, s.nextId, e);
        RebuiltHasNo(k, db, events, s.nextId, e.id);
      }
    }
    hide RowsMatch, Rebuilt, LedgerSum;
    forall i | 0 <= i < |ledger| ensures Owned(events, ledger[i].event) {
      assert ledger[i] in ledger;
    }
  }
}
