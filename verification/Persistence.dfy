/** Saving an engine to a snapshot and restoring it. */
module Persistence {
  import opened Types
  import opened PriceTime
  import opened Matching
  import opened Replay
  import opened OrderBooks
  import opened BookRuns
  import opened EventBuffer
  import opened Engine
  import opened EngineFacts
  import opened SweepPrices

  ghost predicate Resting(books: map<string, Book>, o: Order) {
    exists m :: m in books && (o in books[m].bids || o in books[m].asks)
  }

  /** Every book is ordered and holds orders of its own market. */
  ghost predicate ValidBooks(books: map<string, Book>) {
    forall m :: m in books ==>
      && ValidBook(books[m])
      && (forall o :: o in books[m].bids || o in books[m].asks ==> o.market == m)
  }

  /** `orders` lists exactly the resting orders, in whatever order. */
  ghost predicate Collects(books: map<string, Book>, orders: seq<Order>) {
    forall o :: o in orders <==> Resting(books, o)
  }

  /** The two books agree wherever they can be observed. */
  ghost predicate SameBooks(a: map<string, Book>, b: map<string, Book>) {
    forall m :: BookFor(a, m) == BookFor(b, m)
  }

  /** Gather the snapshots of all markets. */
  method CollectAllOrders(books: map<string, Book>) returns (orders: seq<Order>)
    ensures Collects(books, orders)
  {
    orders := [];
    var todo := books.Keys;
    while todo != {}
      invariant todo <= books.Keys
      invariant forall o :: o in orders <==>
                  exists m :: m in books && m !in todo && (o in books[m].bids || o in books[m].asks)
      decreases |todo|
    {
      var m :| m in todo;
      ghost var before := orders;
      orders := orders + books[m].bids + books[m].asks;
      todo := todo - {m};
      assert forall o :: o in orders <==> o in before || o in books[m].bids || o in books[m].asks;
    }
  }

  /** Orders that would share a map entry are the same order. */
  ghost predicate DistinctKeys(orders: seq<Order>) {
    forall x, y :: x in orders && y in orders && x.market == y.market && x.side == y.side && KeyOf(x) == KeyOf(y)
      ==> x == y
  }

  lemma CollectedKeysDistinct(books: map<string, Book>, orders: seq<Order>)
    requires ValidBooks(books) && Collects(books, orders)
    ensures DistinctKeys(orders)
  {
    forall x, y | x in orders && y in orders && x.market == y.market && x.side == y.side && KeyOf(x) == KeyOf(y)
      ensures x == y
    {
      assert Resting(books, x) && Resting(books, y);
      var s := Level(books[x.market], x.side);
      assert x in s && y in s;
      var i :| 0 <= i < |s| && s[i] == x;
      var j :| 0 <= j < |s| && s[j] == y;
      BeforeIsTotalOrder(x.side, KeyOf(x), KeyOf(x), KeyOf(x));
    }
  }

  /** A loaded side is sorted and holds exactly the orders loaded for it. */
  lemma {:induction false} LoadedLevel(orders: seq<Order>, m: string, side: Side)
    requires DistinctKeys(orders)
    ensures var s := Level(BookFor(Loaded(map[], orders), m), side);
            && Sorted(side, s)
            && (forall x :: x in s <==> x in orders && x.market == m && x.side == side)
  {
    if orders != [] {
      var n := |orders| - 1;
      var before, o := orders[..n], orders[n];
      assert orders == before + [o];
      assert forall x :: x in orders <==> x in before || x == o;
      LoadedLevel(before, m, side);
      var books := Loaded(map[], before);
      hide Before, KeyOf, Put;
      if o.market == m && o.side == side {
        PutSorted(side, Level(BookFor(books, m), side), o);
      }
    }
  }

  /** Saving the resting orders in any order and loading them again gives the same books. */
  lemma BooksRoundTrip(books: map<string, Book>, orders: seq<Order>)
    requires ValidBooks(books) && Collects(books, orders)
    ensures SameBooks(Loaded(map[], orders), books)
  {
    CollectedKeysDistinct(books, orders);
    forall m ensures BookFor(Loaded(map[], orders), m) == BookFor(books, m) {
      var a, b := BookFor(Loaded(map[], orders), m), BookFor(books, m);
      forall side ensures Level(a, side) == Level(b, side) {
        LoadedLevel(orders, m, side);
        LevelIs(books, orders, m, side);
        SortedUnique(side, Level(a, side), Level(b, side));
      }
      assert a.bids == Level(a, Buy) && a.asks == Level(a, Sell);
      assert b.bids == Level(b, Buy) && b.asks == Level(b, Sell);
    }
  }

  lemma LevelIs(books: map<string, Book>, orders: seq<Order>, m: string, side: Side)
    requires ValidBooks(books) && Collects(books, orders)
    ensures var s := Level(BookFor(books, m), side);
            && Sorted(side, s)
            && (forall x :: x in s <==> x in orders && x.market == m && x.side == side)
  {
    var s := Level(BookFor(books, m), side);
    forall x ensures x in s <==> x in orders && x.market == m && x.side == side {
      if x in s {
        assert Resting(books, x);
      }
      if x in orders && x.market == m && x.side == side {
        assert Resting(books, x);
      }
    }
  }

  /** What a snapshot taken while nothing runs restores to. */
  function Restored(s: EngineState, orders: seq<Order>): EngineState {
    EngineState(Loaded(map[], orders), [], if s.next == 0 then 1 else s.next, s.applied)
  }

  /** What an engine is asked after a restart, and what it answers. */
  datatype Request = PlaceRequest(order: Order) | CancelRequest(id: nat) | ReplayRequest(id: nat, event: MatchEvent)

  datatype Answer = Trades(pairs: seq<Entry>) | Cancelled | Replays(result: Result<(), FillError>)

  function Serve(s: EngineState, request: Request): (EngineState, Answer) {
    match request
    case PlaceRequest(o) => var (s', pairs) := Placed(s, o); (s', Trades(pairs))
    case CancelRequest(id) => (Cleared(s, id), Cancelled)
    case ReplayRequest(id, e) => var (s', r) := Replayed(s, id, e); (s', Replays(r))
  }

  function ServeAll(s: EngineState, requests: seq<Request>): (EngineState, seq<Answer>) {
    if requests == [] then (s, [])
    else
      var n := |requests| - 1;
      var (before, answers) := ServeAll(s, requests[..n]);
      var (after, answer) := Serve(before, requests[n]);
      (after, answers + [answer])
  }

  /** Equal up to the event buffer and to markets with an empty book. */
  ghost predicate Alike(a: EngineState, b: EngineState) {
    SameBooks(a.books, b.books) && a.next == b.next && a.applied == b.applied
  }

  lemma SameBooksUpdate(a: map<string, Book>, b: map<string, Book>, m: string, x: Book)
    requires SameBooks(a, b)
    ensures SameBooks(a[m := x], b[m := x])
  {
    var a', b' := a[m := x], b[m := x];
    forall k ensures BookFor(a', k) == BookFor(b', k) {
      assert BookFor(a, k) == BookFor(b, k);
    }
  }

  lemma ServeAlike(a: EngineState, b: EngineState, request: Request)
    requires Alike(a, b)
    ensures Alike(Serve(a, request).0, Serve(b, request).0) && Serve(a, request).1 == Serve(b, request).1
  {
    hide Place, Record, ApplyFill, InsertEntry;
    match request
    case PlaceRequest(o) =>
      assert BookFor(a.books, o.market) == BookFor(b.books, o.market);
      SameBooksUpdate(a.books, b.books, o.market, Place(BookFor(a.books, o.market), o).0);
    case CancelRequest(id) =>
      forall k ensures BookFor(Serve(a, request).0.books, k) == BookFor(Serve(b, request).0.books, k) {
        assert BookFor(a.books, k) == BookFor(b.books, k);
        assert CancelOrder(Book([], []), id) == Book([], []);
      }
    case ReplayRequest(id, e) =>
      var book := BookFor(a.books, e.market);
      assert BookFor(b.books, e.market) == book;
      SameBooksUpdate(a.books, b.books, e.market, match ApplyFill(book, e) case Ok(x) => x case Err(_) => book);
  }

  lemma {:induction false} ServeAllAlike(a: EngineState, b: EngineState, requests: seq<Request>)
    requires Alike(a, b)
    ensures Alike(ServeAll(a, requests).0, ServeAll(b, requests).0) && ServeAll(a, requests).1 == ServeAll(b, requests).1
  {
    if requests != [] {
      var n := |requests| - 1;
      ServeAllAlike(a, b, requests[..n]);
      hide Alike, Serve;
      ServeAlike(ServeAll(a, requests[..n]).0, ServeAll(b, requests[..n]).0, requests[n]);
    }
  }

  /** Save and restore is the identity on everything but the event buffer, and from then on
      the restored engine answers every sequence of placements, cancellations and replays as
      the saved one would have, fill for fill and under the same ids. */
  lemma QuiescentRoundTrip(s: EngineState, orders: seq<Order>, requests: seq<Request>)
    requires ValidBooks(s.books) && Collects(s.books, orders) && s.next > 0
    ensures var r := Restored(s, orders);
            && SameBooks(r.books, s.books) && r.next == s.next && r.applied == s.applied
            && ServeAll(r, requests).1 == ServeAll(s, requests).1
            && Alike(ServeAll(r, requests).0, ServeAll(s, requests).0)
  {
    BooksRoundTrip(s.books, orders);
    hide ServeAll, Loaded;
    ServeAllAlike(Restored(s, orders), s, requests);
  }

  // ----- snapshots during a placement

  /** How far a placement has come: its book not stored yet; stored; its ids noted as well. */
  datatype Moment = Unstored | Stored | Noted

  /** What can be read at each moment. */
  function At(s: EngineState, o: Order, moment: Moment): EngineState {
    match moment
    case Unstored => Abandoned(s, o)
    case Stored => Placed(s, o).0.(applied := s.applied)
    case Noted => Placed(s, o).0
  }

  predicate NoLater(a: Moment, b: Moment) {
    a == Unstored || b == Noted || a == b
  }

  /** A snapshot that read the orders at one moment and the applied ids at another. */
  function Torn(s: EngineState, o: Order, orders: Moment, ids: Moment): EngineState {
    EngineState(At(s, o, orders).books, [], At(s, o, ids).next, At(s, o, ids).applied)
  }

  /** Startup from that snapshot reaches the live book of the market. */
  ghost predicate Recovers(s: EngineState, o: Order, orders: Moment, ids: Moment) {
    var (after, pairs) := Placed(s, o);
    var (r, result) := ReplayAll(Torn(s, o, orders, ids), pairs);
    result == Ok(()) && BookFor(r.books, o.market) == BookFor(after.books, o.market)
  }

  ghost predicate Placeable(s: EngineState, o: Order) {
    var b := BookFor(s.books, o.market);
    && WellFormed(b, o.market) && AllPositive(b.bids) && AllPositive(b.asks) && Fresh(b, o.id)
    && forall id :: id in s.applied ==> id < s.next
  }

  lemma {:induction false} FirstRowFails(s: EngineState, rows: seq<Entry>, err: FillError)
    requires rows != [] && Replayed(s, rows[0].0, rows[0].1).1 == Err(err)
    ensures ReplayAll(s, rows).1 == Err(err)
  {
    var n := |rows| - 1;
    if n == 0 {
      assert rows[..0] == [];
    } else {
      FirstRowFails(s, rows[..n], err);
    }
  }

  /** A maker that traded with a taker that still has something left is gone. */
  lemma TradedMakerIsGone(market: string, taker: Order, makers: seq<Order>, m: Order)
    requires AllPositive(makers) && UniqueIds(makers) && m in EligibleMakers(taker, makers)
    requires Sweep(market, taker, makers).taker.remaining > 0
    ensures forall x :: x in Sweep(market, taker, makers).makers ==> x.id != m.id
  {
    var left := Sweep(market, taker, makers).makers;
    RestingTakerIsBlocked(market, taker, makers);
    SweepShrinks(market, taker, makers);
    EligibleAre(taker, makers, m);
    hide Sweep, EligibleMakers;
    forall x | x in left ensures x.id != m.id {
      var y :| y in makers && SameOrder(y, x);
      assert y == m ==> Eligible(taker, x);
    }
  }

  lemma FirstFill(b: Book, o: Order)
    requires WellFormed(b, o.market) && AllPositive(b.bids) && AllPositive(b.asks) && Fresh(b, o.id)
    requires Place(b, o).1 != []
    ensures var queue := EligibleMakers(o, Level(b, Opposite(o.side)));
            queue != [] && Place(b, o).1[0] == Fill(o.market, o, queue[0], Place(b, o).1[0].quantity) && Place(b, o).1[0].quantity > 0
  {
    PlaceIsSweep(b, o.market, o);
    GreedyPriority(o.market, o, Level(b, Opposite(o.side)));
    hide Sweep, Place;
  }

  /** After any fill one of its two orders is gone, so the first fill of a placement does not
      apply to the book the placement leaves. */
  lemma StoredBookRefuses(b: Book, o: Order)
    requires WellFormed(b, o.market) && AllPositive(b.bids) && AllPositive(b.asks) && Fresh(b, o.id)
    requires Place(b, o).1 != []
    ensures ApplyFill(Place(b, o).0, Place(b, o).1[0]) == Err(MissingOrder)
  {
    var other := Level(b, Opposite(o.side));
    var r := Sweep(o.market, o, other);
    FirstFill(b, o);
    PlaceIsSweep(b, o.market, o);
    SweepKeepsTaker(o.market, o, other);
    var m := EligibleMakers(o, other)[0];
    if r.taker.remaining > 0 {
      TradedMakerIsGone(o.market, o, other, m);
      hide Sweep, EligibleMakers, Place;
      IndexOfAbsent(r.makers, m.id);
    } else {
      hide Sweep, EligibleMakers, Place;
      IndexOfAbsent(Level(b, o.side), o.id);
    }
  }

  lemma ReplayIntoStored(s: EngineState, o: Order)
    requires Placeable(s, o)
    ensures var torn, pairs := Torn(s, o, Stored, Stored), Placed(s, o).1;
            if pairs == [] then ReplayAll(torn, pairs) == (torn, Ok(())) else ReplayAll(torn, pairs).1 == Err(MissingOrder)
  {
    var b := BookFor(s.books, o.market);
    var torn, pairs := Torn(s, o, Stored, Stored), Placed(s, o).1;
    if pairs != [] {
      StoredBookRefuses(b, o);
      PlaceEvents(b, o);
      hide Place, Record, ApplyFill;
      assert pairs[0].1 in Place(b, o).1;
      FirstRowFails(torn, pairs, MissingOrder);
    }
  }

  lemma ReplayIntoUnstored(s: EngineState, o: Order)
    requires Placeable(s, o)
    ensures var torn, pairs := Torn(s, o, Unstored, Stored), Placed(s, o).1;
            if pairs == [] then ReplayAll(torn, pairs) == (torn, Ok(())) else ReplayAll(torn, pairs).1 == Err(MissingOrder)
  {
    var b := BookFor(s.books, o.market);
    var torn, pairs := Torn(s, o, Unstored, Stored), Placed(s, o).1;
    if pairs != [] {
      FirstFill(b, o);
      PlaceEvents(b, o);
      hide Place, Record, ApplyFill;
      FillOfAbsentTaker(b, o.market, o, EligibleMakers(o, Level(b, Opposite(o.side)))[0], Place(b, o).1[0].quantity);
      assert pairs[0].1 in Place(b, o).1;
      FirstRowFails(torn, pairs, MissingOrder);
    }
  }

  lemma ReplayOfNoted(s: EngineState, o: Order, orders: Moment)
    ensures var torn, pairs := Torn(s, o, orders, Noted), Placed(s, o).1; ReplayAll(torn, pairs) == (torn, Ok(()))
  {
    hide Place, Record;
    AppliedRowsAreSkipped(Torn(s, o, orders, Noted), Placed(s, o).1);
  }

  /** A placement that traded has changed the makers' side. */
  lemma TradingChangesMakers(b: Book, o: Order)
    requires WellFormed(b, o.market) && AllPositive(b.bids) && AllPositive(b.asks) && Fresh(b, o.id)
    ensures Place(b, o).1 != [] <==> Level(Place(b, o).0, Opposite(o.side)) != Level(b, Opposite(o.side))
  {
    var other := Level(b, Opposite(o.side));
    PlaceIsSweep(b, o.market, o);
    SweepConserves(o.market, o, other);
    GreedyPriority(o.market, o, other);
    var r := Sweep(o.market, o, other);
    if r.events != [] {
      PositiveTotal(r.events);
    } else {
      NoEventsNoChange(o.market, o, other);
    }
    hide Sweep, Place;
  }

  /** A placement leaves the book as it was exactly when its order has nothing left to trade. */
  lemma ChangesNothingIff(b: Book, o: Order)
    requires WellFormed(b, o.market) && AllPositive(b.bids) && AllPositive(b.asks) && Fresh(b, o.id)
    ensures Place(b, o).0 == b <==> o.remaining <= 0
  {
    var other := Level(b, Opposite(o.side));
    PlaceIsSweep(b, o.market, o);
    TradingChangesMakers(b, o);
    SweepTradesIff(o.market, o, other);
    GreedyPriority(o.market, o, other);
    var r := Sweep(o.market, o, other);
    if r.events == [] {
      NoEventsNoChange(o.market, o, other);
      hide Place, Sweep, CanTrade;
      assert TotalQuantity(r.events) == 0 && r.taker == o;
      if o.remaining > 0 {
        RestsNew(b, o, r);
      }
    }
  }

  lemma RestsNew(b: Book, o: Order, r: Swept)
    requires Fresh(b, o.id) && r.taker == o && o.remaining > 0
    ensures Settle(b, o.side, r) != b
  {
    assert Level(Settle(b, o.side, r), o.side) != Level(b, o.side);
  }

  /** A snapshot taken while a placement is under way, whichever moments its two reads fall
      into, recovers the live book exactly when the order has nothing left to trade, or the
      orders were read after the book was stored and either the ids after they were noted or
      there was no maker for the order. */
  lemma SnapshotDuringPlacement(s: EngineState, o: Order, orders: Moment, ids: Moment)
    requires Placeable(s, o) && NoLater(orders, ids)
    ensures Recovers(s, o, orders, ids) <==>
              || o.remaining <= 0
              || (orders != Unstored && (ids == Noted || !CanTrade(o, Level(BookFor(s.books, o.market), Opposite(o.side)))))
  {
    var b := BookFor(s.books, o.market);
    TradingChangesMakers(b, o);
    ChangesNothingIff(b, o);
    PlacedTradesIff(s, o);
    hide CanTrade;
    match (orders, ids) {
      case (_, Noted) => ReplayOfNoted(s, o, orders);
      case (Unstored, _) =>
        ReplayIntoUnstored(s, o);
        assert Torn(s, o, orders, ids) == Torn(s, o, Unstored, Stored);
      case (_, _) =>
        ReplayIntoStored(s, o);
    }
    hide Place, Record, ReplayAll, ApplyFill;
  }

  lemma PlacedTradesIff(s: EngineState, o: Order)
    requires Placeable(s, o)
    ensures Placed(s, o).1 != [] <==> CanTrade(o, Level(BookFor(s.books, o.market), Opposite(o.side)))
  {
    var b := BookFor(s.books, o.market);
    PlaceIsSweep(b, o.market, o);
    SweepTradesIff(o.market, o, Level(b, Opposite(o.side)));
    hide Place, Sweep, CanTrade;
  }

  /** How the two torn snapshots of a placement that traded fail: with the ids but not the
      fills, replay skips the fills and the makers' side is out of date; with the fills but
      not the ids, replay stops at a missing order, and so does startup. */
  lemma TornSnapshot(s: EngineState, o: Order)
    requires Placeable(s, o) && CanTrade(o, Level(BookFor(s.books, o.market), Opposite(o.side)))
    ensures var (after, pairs) := Placed(s, o);
            && ReplayAll(Torn(s, o, Unstored, Noted), pairs) == (Torn(s, o, Unstored, Noted), Ok(()))
            && Level(BookFor(Torn(s, o, Unstored, Noted).books, o.market), Opposite(o.side))
               != Level(BookFor(after.books, o.market), Opposite(o.side))
            && ReplayAll(Torn(s, o, Stored, Stored), pairs).1 == Err(MissingOrder)
  {
    TradingChangesMakers(BookFor(s.books, o.market), o);
    PlacedTradesIff(s, o);
    ReplayOfNoted(s, o, Unstored);
    ReplayIntoStored(s, o);
    hide Place, Record, ReplayAll, ApplyFill;
  }

  lemma {:induction false} NoEventsNoChange(market: string, taker: Order, makers: seq<Order>)
    requires Sweep(market, taker, makers).events == []
    ensures Sweep(market, taker, makers).makers == makers
  {
    if makers != [] && taker.remaining > 0 && !Eligible(taker, makers[0]) {
      NoEventsNoChange(market, taker, makers[1..]);
      assert makers == [makers[0]] + makers[1..];
    }
  }

  lemma {:induction false} PositiveTotal(es: seq<MatchEvent>)
    requires es != [] && forall i :: 0 <= i < |es| ==> es[i].quantity > 0
    ensures TotalQuantity(es) > 0
  {
    if |es| > 1 {
      PositiveTotal(es[1..]);
    }
  }
}
