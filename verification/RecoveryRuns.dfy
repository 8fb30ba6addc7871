/** Recovery of a whole run: replaying every row of a run of placements. */
module RecoveryRuns {
  import opened Types
  import opened PriceTime
  import opened Matching
  import opened Replay
  import opened BookRuns
  import opened EventBuffer
  import opened Engine
  import opened EngineFacts
  import opened OrderAccounts

  // ----- a fill and an unrelated insertion commute

  /** A well-formed book is determined by its orders. */
  lemma SameOrdersSameBook(a: Book, b: Book, market: string)
    requires WellFormed(a, market) && WellFormed(b, market)
    requires forall x :: On(a, x) <==> On(b, x)
    ensures a == b
  {
    forall x ensures x in a.bids <==> x in b.bids {
      assert On(a, x) <==> On(b, x);
    }
    forall x ensures x in a.asks <==> x in b.asks {
      assert On(a, x) <==> On(b, x);
    }
    SortedUnique(Buy, a.bids, b.bids);
    SortedUnique(Sell, a.asks, b.asks);
  }

  lemma Found(side: Side, market: string, s: seq<Order>, x: Order)
    requires WellFormedSide(side, market, s) && x in s
    ensures IndexOf(s, x.id) < |s| && s[IndexOf(s, x.id)] == x
  {
    var k :| 0 <= k < |s| && s[k] == x;
    IndexOfUnique(side, s, k);
  }

  lemma FillFacts(b: Book, market: string, e: MatchEvent, x: Order, y: Order)
    requires WellFormed(b, market) && ApplyFill(b, e).Ok? && x in b.bids && y in b.asks
    ensures x.side == Buy && y.side == Sell && e.market == market
  {
  }

  lemma NotInBook(b: Book, o: Order, x: Order)
    requires Fresh(b, o.id) && On(b, x)
    ensures x.id != o.id
  {
  }

  /** `more` is `b` with `o`; so is `more'` after the fill, if `b'` is `b` after it. */
  lemma FillsSameOrders(b: Book, b': Book, more: Book, more': Book, o: Order, x: Order, y: Order, q: int, z: Order)
    requires FillsOnly(b, b', x, y, q) && FillsOnly(more, more', x, y, q) && o.id != x.id && o.id != y.id
    requires On(more, z) <==> On(b, z) || z == o
    ensures On(more', z) <==> On(b', z) || z == o
  {
  }

  lemma FillCommutes(b: Book, market: string, e: MatchEvent, o: Order)
    requires WellFormed(b, market) && AllPositive(b.bids) && AllPositive(b.asks)
    requires Fresh(b, o.id) && o.market == market && o.remaining > 0
    requires ApplyFill(b, e).Ok?
    ensures Fresh(ApplyFill(b, e).value, o.id)
    ensures ApplyFill(InsertOrder(b, o), e) == Ok(InsertOrder(ApplyFill(b, e).value, o))
  {
    hide ApplyFill, InsertOrder, WellFormed, AllPositive, Fresh, FillsOnly;
    var more, b' := InsertOrder(b, o), ApplyFill(b, e).value;
    var x, y := ApplyFillElements(b, market, e);
    FillFacts(b, market, e, x, y);
    ApplyFillKeeps(b, market, e);
    InsertWellFormed(b, market, o);
    FreshAfter(b, b', o.id);
    InsertWellFormed(b', market, o);
    InsertPositive(b, market, o);
    InsertElements(b, market, o, x);
    InsertElements(b, market, o, y);
    NotInBook(b, o, x);
    NotInBook(b, o, y);
    FillSucceeds(more, market, e, x, y);
    var x', y' := ApplyFillElements(more, market, e);
    UniqueOn(more, market, x, x');
    UniqueOn(more, market, y, y');
    ApplyFillKeeps(more, market, e);
    forall z ensures On(ApplyFill(more, e).value, z) <==> On(InsertOrder(b', o), z) {
      InsertElements(b, market, o, z);
      InsertElements(b', market, o, z);
      FillsSameOrders(b, b', more, ApplyFill(more, e).value, o, x, y, e.quantity, z);
    }
    SameOrdersSameBook(ApplyFill(more, e).value, InsertOrder(b', o), market);
  }

  lemma FreshAfter(b: Book, b': Book, id: nat)
    requires BookShrunk(b, b') && Fresh(b, id)
    ensures Fresh(b', id)
  {
  }

  lemma UniqueOn(b: Book, market: string, x: Order, y: Order)
    requires WellFormed(b, market) && On(b, x) && On(b, y) && x.id == y.id
    ensures x == y
  {
  }

  lemma FillSucceeds(b: Book, market: string, e: MatchEvent, x: Order, y: Order)
    requires WellFormed(b, market) && On(b, x) && On(b, y) && x.side == Buy && y.side == Sell
    requires x.id == e.bidOrder && y.id == e.askOrder && e.market == market
    requires 0 < e.quantity <= x.remaining && e.quantity <= y.remaining
    ensures ApplyFill(b, e).Ok?
  {
    Found(Buy, market, b.bids, x);
    Found(Sell, market, b.asks, y);
  }

  // ----- rows and insertions

  ghost predicate Sound(books: map<string, Book>) {
    forall m :: m in books ==> WellFormed(books[m], m) && AllPositive(books[m].bids) && AllPositive(books[m].asks)
  }

  lemma SoundBook(books: map<string, Book>, m: string)
    requires Sound(books)
    ensures var b := BookFor(books, m); WellFormed(b, m) && AllPositive(b.bids) && AllPositive(b.asks)
  {
  }

  /** A market's book with an incoming order inserted, if there is anything to trade. */
  function Inserted(books: map<string, Book>, o: Order): map<string, Book> {
    var b := BookFor(books, o.market);
    books[o.market := if o.remaining > 0 then InsertOrder(b, o) else b]
  }

  ghost predicate FreshIn(books: map<string, Book>, o: Order) {
    Fresh(BookFor(books, o.market), o.id)
  }

  function With(s: EngineState, o: Order): EngineState {
    s.(books := Inserted(s.books, o))
  }

  lemma ReplayedKeeps(s: EngineState, id: nat, e: MatchEvent)
    requires Sound(s.books) && Replayed(s, id, e).1 == Ok(())
    ensures Sound(Replayed(s, id, e).0.books)
  {
    if id !in s.applied {
      SoundBook(s.books, e.market);
      hide ApplyFill, InsertEntry, WellFormed, AllPositive;
      ApplyFillKeeps(BookFor(s.books, e.market), e.market, e);
    }
  }

  /** A row that applies. */
  function Row(s: EngineState, id: nat, e: MatchEvent, b: Book): EngineState {
    s.(books := s.books[e.market := b], applied := s.applied + {id}, events := InsertEntry(s.events, MAX_EVENTS, id, e))
  }

  lemma ReplayedIsRow(s: EngineState, id: nat, e: MatchEvent, b: Book)
    requires id !in s.applied && ApplyFill(BookFor(s.books, e.market), e) == Ok(b)
    ensures Replayed(s, id, e) == (Row(s, id, e, b), Ok(()))
  {
  }

  lemma RowBook(s: EngineState, id: nat, e: MatchEvent)
    requires id !in s.applied && Replayed(s, id, e).1 == Ok(())
    ensures ApplyFill(BookFor(s.books, e.market), e).Ok?
  {
  }

  /** The order's market is another one. */
  lemma CommutesElsewhere(s: EngineState, id: nat, e: MatchEvent, o: Order, b: Book)
    requires o.market != e.market
    ensures BookFor(Inserted(s.books, o), e.market) == BookFor(s.books, e.market)
    ensures BookFor(Row(s, id, e, b).books, o.market) == BookFor(s.books, o.market)
    ensures Row(With(s, o), id, e, b) == With(Row(s, id, e, b), o)
  {
    hide InsertOrder, InsertEntry;
    var x := Inserted(s.books, o)[o.market];
    assert s.books[o.market := x][e.market := b] == s.books[e.market := b][o.market := x];
  }

  /** The order's market is the row's; `b` is its book after the row and `more` with both. */
  lemma CommutesHere(s: EngineState, id: nat, e: MatchEvent, o: Order, b: Book, more: Book)
    requires o.market == e.market && more == if o.remaining > 0 then InsertOrder(b, o) else b
    ensures Row(With(s, o), id, e, more) == With(Row(s, id, e, b), o)
  {
    hide InsertOrder, InsertEntry;
    var x := Inserted(s.books, o)[o.market];
    assert s.books[o.market := x][e.market := more] == s.books[e.market := b][o.market := more];
  }

  lemma ReplayedCommutes(s: EngineState, id: nat, e: MatchEvent, o: Order)
    requires Sound(s.books) && FreshIn(s.books, o) && Replayed(s, id, e).1 == Ok(())
    ensures FreshIn(Replayed(s, id, e).0.books, o)
    ensures Replayed(With(s, o), id, e) == (With(Replayed(s, id, e).0, o), Ok(()))
  {
    if id !in s.applied {
      SoundBook(s.books, e.market);
      RowBook(s, id, e);
      hide ApplyFill, InsertEntry, WellFormed, AllPositive, InsertOrder, Sound, Replayed, Fresh, Row;
      var b := BookFor(s.books, e.market);
      var b' := ApplyFill(b, e).value;
      ReplayedIsRow(s, id, e, b');
      if o.market != e.market {
        CommutesElsewhere(s, id, e, o, b');
        ReplayedIsRow(With(s, o), id, e, b');
      } else {
        var more := if o.remaining > 0 then InsertOrder(b', o) else b';
        ApplyFillKeeps(b, e.market, e);
        FreshAfter(b, b', o.id);
        RowHere(s, id, e, b');
        if o.remaining > 0 {
          FillCommutes(b, e.market, e, o);
        }
        ReplayedIsRow(With(s, o), id, e, more);
        CommutesHere(s, id, e, o, b', more);
      }
    }
  }

  lemma RowHere(s: EngineState, id: nat, e: MatchEvent, b: Book)
    ensures BookFor(Row(s, id, e, b).books, e.market) == b
  {
    hide InsertEntry;
  }

  lemma {:induction false} ReplayAllCommutes(s: EngineState, rows: seq<Entry>, o: Order)
    requires Sound(s.books) && FreshIn(s.books, o) && ReplayAll(s, rows).1 == Ok(())
    ensures Sound(ReplayAll(s, rows).0.books) && FreshIn(ReplayAll(s, rows).0.books, o)
    ensures ReplayAll(With(s, o), rows) == (With(ReplayAll(s, rows).0, o), Ok(()))
  {
    if rows != [] {
      var n := |rows| - 1;
      hide Sound, FreshIn, Replayed, With;
      ReplayAllCommutes(s, rows[..n], o);
      var s' := ReplayAll(s, rows[..n]).0;
      ReplayedKeeps(s', rows[n].0, rows[n].1);
      ReplayedCommutes(s', rows[n].0, rows[n].1, o);
    }
  }

  lemma {:induction false} ReplayAllAppend(s: EngineState, a: seq<Entry>, b: seq<Entry>)
    requires ReplayAll(s, a).1 == Ok(())
    ensures ReplayAll(s, a + b) == ReplayAll(ReplayAll(s, a).0, b)
  {
    hide Replayed;
    if b == [] {
      assert a + b == a;
    } else {
      var n := |b| - 1;
      ReplayAllAppend(s, a, b[..n]);
      assert (a + b)[..|a| + n] == a + b[..n];
    }
  }

  /** Replay never looks at the counter. */
  lemma {:induction false} ReplayAllIgnoresCounter(s: EngineState, rows: seq<Entry>, next: nat)
    ensures ReplayAll(s.(next := next), rows).0 == ReplayAll(s, rows).0.(next := next)
    ensures ReplayAll(s.(next := next), rows).1 == ReplayAll(s, rows).1
  {
    if rows != [] {
      ReplayAllIgnoresCounter(s, rows[..|rows| - 1], next);
    }
  }

  // ----- runs

  function PlacedAll(s: EngineState, orders: seq<Order>): (EngineState, seq<Entry>) {
    if orders == [] then (s, [])
    else
      var n := |orders| - 1;
      var (before, rows) := PlacedAll(s, orders[..n]);
      var (after, pairs) := Placed(before, orders[n]);
      (after, rows + pairs)
  }

  function WithAll(s: EngineState, orders: seq<Order>): EngineState {
    if orders == [] then s else With(WithAll(s, orders[..|orders| - 1]), orders[|orders| - 1])
  }

  ghost predicate AppliedBelow(s: EngineState) {
    forall id :: id in s.applied ==> id < s.next
  }

  /** No id is used twice in a market, neither by resting orders nor by the run. */
  ghost predicate FreshRun(books: map<string, Book>, orders: seq<Order>) {
    && (forall o :: o in orders ==> FreshIn(books, o))
    && (forall i, j :: 0 <= i < j < |orders| ==> orders[i].id != orders[j].id)
  }

  lemma SoundUpdate(books: map<string, Book>, m: string, b: Book)
    requires Sound(books) && WellFormed(b, m) && AllPositive(b.bids) && AllPositive(b.asks)
    ensures Sound(books[m := b])
  {
    hide WellFormed, AllPositive;
  }

  lemma PlacedKeeps(s: EngineState, o: Order, x: Order)
    requires Sound(s.books) && AppliedBelow(s) && FreshIn(s.books, o) && FreshIn(s.books, x) && x.id != o.id
    ensures Sound(Placed(s, o).0.books) && AppliedBelow(Placed(s, o).0) && FreshIn(Placed(s, o).0.books, x)
  {
    var b := BookFor(s.books, o.market);
    SoundBook(s.books, o.market);
    PlacedBook(b, o, x);
    hide Place, Record, WellFormed, AllPositive, Sound, Fresh;
    SoundUpdate(s.books, o.market, Place(b, o).0);
  }

  lemma PlacedBook(b: Book, o: Order, x: Order)
    requires WellFormed(b, o.market) && AllPositive(b.bids) && AllPositive(b.asks) && Fresh(b, o.id) && x.id != o.id
    ensures var b' := Place(b, o).0;
            WellFormed(b', o.market) && AllPositive(b'.bids) && AllPositive(b'.asks) && (Fresh(b, x.id) ==> Fresh(b', x.id))
  {
    if o.remaining <= 0 {
      PlaceIsSweep(b, o.market, o);
      hide Place;
    } else {
      var b1 := InsertOrder(b, o);
      InsertWellFormed(b, o.market, o);
      InsertPositive(b, o.market, o);
      hide InsertOrder, AllPositive, MatchOrder;
      ReplayEquivalence(b1, o.market, o.id);
      ApplyFillsKeeps(b1, o.market, Place(b, o).1);
      if Fresh(b, x.id) {
        forall z | On(b1, z) ensures z.id != x.id {
          InsertElements(b, o.market, o, z);
        }
        FreshAfter(b1, Place(b, o).0, x.id);
      }
    }
  }

  lemma NothingToTrade(b: Book, o: Order)
    requires WellFormed(b, o.market) && Fresh(b, o.id) && o.remaining <= 0
    ensures Place(b, o) == (b, [])
  {
    PlaceIsSweep(b, o.market, o);
    hide Place;
  }

  /** One placement's rows bring a state with its order inserted to the state it leaves. */
  lemma OnePlacement(s: EngineState, o: Order)
    requires Sound(s.books) && AppliedBelow(s) && FreshIn(s.books, o)
    ensures ReplayAll(With(s, o), Placed(s, o).1) == (Placed(s, o).0.(next := s.next), Ok(()))
  {
    SoundBook(s.books, o.market);
    hide Place, WellFormed, AllPositive, InsertOrder, Fresh, Sound;
    if o.remaining > 0 {
      RecoveryCatchesUp(s, o);
    } else {
      NothingToTrade(BookFor(s.books, o.market), o);
      var (after, none) := Placed(s, o);
      assert none == [] && Ids(none) == {} && s.applied + Ids(none) == s.applied;
      assert after == With(s, o);
    }
  }

  /** Everything the induction carries about the state after a prefix of the run. */
  lemma {:induction false} RunKeepsSound(s: EngineState, orders: seq<Order>, x: Order)
    requires Sound(s.books) && AppliedBelow(s) && FreshRun(s.books, orders) && FreshIn(s.books, x)
    requires forall o :: o in orders ==> o.id != x.id
    ensures var r := PlacedAll(s, orders).0; Sound(r.books) && AppliedBelow(r) && FreshIn(r.books, x)
  {
    if orders != [] {
      var n := |orders| - 1;
      var o := orders[n];
      assert orders == orders[..n] + [o];
      RunKeepsSound(s, orders[..n], x);
      assert forall p :: p in orders[..n] ==> p.id != o.id;
      RunKeepsSound(s, orders[..n], o);
      hide Sound, FreshIn, AppliedBelow, Placed;
      PlacedKeeps(PlacedAll(s, orders[..n]).0, o, x);
    }
  }

  /** Recovery of a whole run: with every order of the run inserted in a restored engine,
      replaying all of the run's rows in id order, across all markets, ends with exactly the
      books, buffer and applied ids the run left. */
  lemma {:induction false} RunRecovers(s: EngineState, orders: seq<Order>)
    requires Sound(s.books) && AppliedBelow(s) && FreshRun(s.books, orders)
    ensures ReplayAll(WithAll(s, orders), PlacedAll(s, orders).1) == (PlacedAll(s, orders).0.(next := s.next), Ok(()))
  {
    if orders != [] {
      var n := |orders| - 1;
      var o := orders[n];
      assert orders == orders[..n] + [o];
      RunRecovers(s, orders[..n]);
      RunKeepsSound(s, orders[..n], o);
      WithAllKeeps(s, orders[..n], o);
      hide Sound, FreshIn, AppliedBelow, Placed, FreshRun, With;
      var (before, rows) := PlacedAll(s, orders[..n]);
      var restored := WithAll(s, orders[..n]);
      ReplayAllCommutes(restored, rows, o);
      ReplayAllAppend(With(restored, o), rows, Placed(before, o).1);
      OnePlacement(before, o);
      ReplayAllIgnoresCounter(With(before, o), Placed(before, o).1, s.next);
      WithCounter(before, o, s.next);
    }
  }

  lemma WithCounter(s: EngineState, o: Order, next: nat)
    ensures With(s.(next := next), o) == With(s, o).(next := next)
  {
  }

  lemma {:induction false} WithAllKeeps(s: EngineState, orders: seq<Order>, x: Order)
    requires Sound(s.books) && FreshRun(s.books, orders) && FreshIn(s.books, x)
    requires forall o :: o in orders ==> o.id != x.id
    ensures Sound(WithAll(s, orders).books) && FreshIn(WithAll(s, orders).books, x)
  {
    if orders != [] {
      var n := |orders| - 1;
      var o := orders[n];
      assert orders == orders[..n] + [o];
      assert forall p :: p in orders[..n] ==> p.id != o.id;
      WithAllKeeps(s, orders[..n], x);
      WithAllKeeps(s, orders[..n], o);
      hide Sound, FreshIn, FreshRun, With;
      WithKeeps(WithAll(s, orders[..n]), o, x);
    }
  }

  /** An inserted order leaves the ids of others free. */
  lemma InsertKeepsFresh(b: Book, market: string, o: Order, id: nat)
    requires WellFormed(b, market) && Fresh(b, o.id) && Fresh(b, id) && o.id != id
    ensures Fresh(InsertOrder(b, o), id)
  {
    forall z | On(InsertOrder(b, o), z) ensures z.id != id {
      InsertElements(b, market, o, z);
    }
    hide InsertOrder, WellFormed;
  }

  lemma WithKeeps(s: EngineState, o: Order, x: Order)
    requires Sound(s.books) && FreshIn(s.books, o) && FreshIn(s.books, x) && x.id != o.id
    ensures Sound(With(s, o).books) && FreshIn(With(s, o).books, x)
  {
    hide InsertOrder, WellFormed, AllPositive, Sound, Fresh;
    var b := BookFor(s.books, o.market);
    SoundBook(s.books, o.market);
    if o.remaining > 0 {
      InsertWellFormed(b, o.market, o);
      InsertPositive(b, o.market, o);
      SoundUpdate(s.books, o.market, InsertOrder(b, o));
      if x.market == o.market {
        InsertKeepsFresh(b, o.market, o, x.id);
      }
    } else {
      SoundUpdate(s.books, o.market, b);
    }
  }
}
