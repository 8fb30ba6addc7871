/** Replaying the journal into a restored engine. */
module EngineFacts {
  import opened Types
  import opened PriceTime
  import opened Matching
  import opened SweepPrices
  import opened Replay
  import opened BookRuns
  import opened EventBuffer
  import opened Engine

  /** Startup: replay rows in order, stopping at the first that does not apply. */
  function ReplayAll(s: EngineState, rows: seq<Entry>): (EngineState, Result<(), FillError>) {
    if rows == [] then (s, Ok(()))
    else
      var n := |rows| - 1;
      var (s', r) := ReplayAll(s, rows[..n]);
      if r.Err? then (s', r) else Replayed(s', rows[n].0, rows[n].1)
  }

  /** Replaying a row twice is the same as replaying it once. */
  lemma ReplayIdempotent(s: EngineState, id: nat, e: MatchEvent)
    ensures Replayed(Replayed(s, id, e).0, id, e) == Replayed(s, id, e)
  {
    var s' := Replayed(s, id, e).0;
    if id !in s.applied && ApplyFill(BookFor(s.books, e.market), e).Err? {
      assert s'.books[e.market := BookFor(s.books, e.market)] == s'.books;
    }
  }

  /** Rows whose fills the books already hold change nothing. */
  lemma {:induction false} AppliedRowsAreSkipped(s: EngineState, rows: seq<Entry>)
    requires forall x :: x in rows ==> x.0 in s.applied
    ensures ReplayAll(s, rows) == (s, Ok(()))
  {
    if rows != [] {
      AppliedRowsAreSkipped(s, rows[..|rows| - 1]);
    }
  }

  /** After a committed placement, replaying its own journal rows is a no-op. */
  lemma CommittedRowsAreSkipped(s: EngineState, o: Order)
    ensures ReplayAll(Placed(s, o).0, Placed(s, o).1) == (Placed(s, o).0, Ok(()))
  {
    hide Place, Record;
    AppliedRowsAreSkipped(Placed(s, o).0, Placed(s, o).1);
  }

  lemma {:induction false} ApplyFillsSnoc(b: Book, es: seq<MatchEvent>, e: MatchEvent)
    requires ApplyFills(b, es).Ok?
    ensures ApplyFills(b, es + [e]) == ApplyFill(ApplyFills(b, es).value, e)
    decreases |es|
  {
    hide ApplyFill;
    if es == [] {
      assert [] + [e] == [e];
      assert [e][1..] == [];
    } else {
      assert (es + [e])[1..] == es[1..] + [e];
      ApplyFillsSnoc(ApplyFill(b, es[0]).value, es[1..], e);
    }
  }

  /** A state whose book for `market` has received the fills `es`, numbered from `start`. */
  function CaughtUp(s: EngineState, market: string, b: Book, pairs: seq<Entry>): EngineState {
    EngineState(s.books[market := b], Record(s.events, pairs), s.next, s.applied + Ids(pairs))
  }

  lemma {:induction false} ReplayAllIsApplyFills(s: EngineState, market: string, start: nat, es: seq<MatchEvent>)
    requires market in s.books && ApplyFills(s.books[market], es).Ok?
    requires forall e :: e in es ==> e.market == market
    requires forall id :: id in s.applied ==> id < start
    ensures var pairs := Numbered(start, es);
            ReplayAll(s, pairs) == (CaughtUp(s, market, ApplyFills(s.books[market], es).value, pairs), Ok(()))
    decreases |es|
  {
    hide ApplyFill, InsertEntry;
    var b, pairs := s.books[market], Numbered(start, es);
    if es == [] {
      assert s.books[market := b] == s.books;
      assert s.applied + Ids([]) == s.applied;
    } else {
      var n := |es| - 1;
      assert es == es[..n] + [es[n]];
      assert pairs[..n] == Numbered(start, es[..n]);
      PrefixApplies(b, es[..n], es[n]);
      ReplayAllIsApplyFills(s, market, start, es[..n]);
      ApplyFillsSnoc(b, es[..n], es[n]);
      CaughtUpStep(s, market, start, es);
    }
  }

  lemma {:induction false} PrefixApplies(b: Book, es: seq<MatchEvent>, e: MatchEvent)
    requires ApplyFills(b, es + [e]).Ok?
    ensures ApplyFills(b, es).Ok?
    decreases |es|
  {
    hide ApplyFill;
    if es != [] {
      assert (es + [e])[1..] == es[1..] + [e];
      PrefixApplies(ApplyFill(b, es[0]).value, es[1..], e);
    }
  }

  lemma CaughtUpStep(s: EngineState, market: string, start: nat, es: seq<MatchEvent>)
    requires market in s.books && es != [] && es[|es| - 1].market == market
    requires ApplyFills(s.books[market], es[..|es| - 1]).Ok?
    requires ApplyFill(ApplyFills(s.books[market], es[..|es| - 1]).value, es[|es| - 1]).Ok?
    requires forall id :: id in s.applied ==> id < start
    ensures var n := |es| - 1;
            var b := ApplyFills(s.books[market], es[..n]).value;
            Replayed(CaughtUp(s, market, b, Numbered(start, es[..n])), start + n, es[n])
            == (CaughtUp(s, market, ApplyFill(b, es[n]).value, Numbered(start, es)), Ok(()))
  {
    hide ApplyFill, ApplyFills, InsertEntry;
    var n := |es| - 1;
    var pairs, before := Numbered(start, es), Numbered(start, es[..n]);
    assert pairs[..n] == before && pairs == before + [(start + n, es[n])];
    assert forall x :: x in before ==> x.0 < start + n;
    assert Ids(pairs) == Ids(before) + {start + n};
    assert start + n !in s.applied && start + n !in Ids(before);
    assert Record(s.events, pairs) == InsertEntry(Record(s.events, before), MAX_EVENTS, start + n, es[n]);
    assert s.applied + Ids(pairs) == s.applied + Ids(before) + {start + n};
    var b := ApplyFills(s.books[market], es[..n]).value;
    var b' := ApplyFill(b, es[n]).value;
    assert s.books[market := b][market := b'] == s.books[market := b'];
  }

  lemma PlaceEvents(b: Book, o: Order)
    ensures forall e :: e in Place(b, o).1 ==> e.market == o.market
  {
    match RemoveById(InsertOrder(b, o), o.id) {
      case None =>
      case Some((taker, b')) =>
        EventsComeFromMakers(o.market, taker, Level(b', Opposite(taker.side)));
    }
  }

  /** Recovery catches up: an engine restored with the incoming order in its book, and
      none of the placement's ids applied, ends after replay with the books, buffer and
      applied ids the placement itself would have left.  Its counter does not move. */
  lemma RecoveryCatchesUp(s: EngineState, o: Order)
    requires var b := BookFor(s.books, o.market);
             WellFormed(b, o.market) && AllPositive(b.bids) && AllPositive(b.asks) && Fresh(b, o.id) && o.remaining > 0
    requires forall id :: id in s.applied ==> id < s.next
    ensures var restored := s.(books := s.books[o.market := InsertOrder(BookFor(s.books, o.market), o)]);
            var (after, pairs) := Placed(s, o);
            ReplayAll(restored, pairs) == (after.(next := s.next), Ok(()))
  {
    var b := BookFor(s.books, o.market);
    var b1 := InsertOrder(b, o);
    var restored := s.(books := s.books[o.market := b1]);
    InsertWellFormed(b, o.market, o);
    ReplayEquivalence(b1, o.market, o.id);
    PlaceEvents(b, o);
    RecoveryFold(s, o, b1);
  }

  lemma RecoveryFold(s: EngineState, o: Order, b1: Book)
    requires ApplyFills(b1, Place(BookFor(s.books, o.market), o).1) == Ok(Place(BookFor(s.books, o.market), o).0)
    requires forall e :: e in Place(BookFor(s.books, o.market), o).1 ==> e.market == o.market
    requires forall id :: id in s.applied ==> id < s.next
    ensures ReplayAll(s.(books := s.books[o.market := b1]), Placed(s, o).1)
            == (Placed(s, o).0.(next := s.next), Ok(()))
  {
    hide Place, ApplyFills, Record;
    var restored := s.(books := s.books[o.market := b1]);
    var (b', es) := Place(BookFor(s.books, o.market), o);
    ReplayAllIsApplyFills(restored, o.market, s.next, es);
    assert restored.books[o.market := b'] == s.books[o.market := b'];
  }

  lemma {:induction false} IndexOfAbsent(s: seq<Order>, id: nat)
    requires forall x :: x in s ==> x.id != id
    ensures IndexOf(s, id) == |s|
  {
    if s != [] {
      assert s[0] in s;
      IndexOfAbsent(s[1..], id);
    }
  }

  lemma FillOfAbsentTaker(b: Book, market: string, o: Order, m: Order, q: int)
    requires Fresh(b, o.id) && q > 0
    ensures ApplyFill(b, Fill(market, o, m, q)) == Err(MissingOrder)
  {
    IndexOfAbsent(b.bids, o.id);
    IndexOfAbsent(b.asks, o.id);
  }

  /** Without the incoming order in the restored book, the first row already fails: the
      journal holds fills, not insertions.  So replay succeeds exactly when the order could not
      trade. */
  lemma RecoveryNeedsTaker(b: Book, o: Order)
    requires WellFormed(b, o.market) && AllPositive(b.bids) && AllPositive(b.asks) && Fresh(b, o.id)
    ensures var es, trades := Place(b, o).1, CanTrade(o, Level(b, Opposite(o.side)));
            && (ApplyFills(b, es).Ok? <==> !trades)
            && (trades ==> ApplyFills(b, es) == Err(MissingOrder))
  {
    var other := Level(b, Opposite(o.side));
    PlaceIsSweep(b, o.market, o);
    SweepTradesIff(o.market, o, other);
    GreedyPriority(o.market, o, other);
    hide Place, Sweep, ApplyFill, CanTrade;
    var es := Sweep(o.market, o, other).events;
    if es != [] {
      FillOfAbsentTaker(b, o.market, o, EligibleMakers(o, other)[0], es[0].quantity);
    }
  }
}
