/** What every run of placements, cancellations and replayed fills keeps. */
module BookRuns {
  import opened Types
  import opened PriceTime
  import opened Matching
  import opened Replay

  /** A bid and an ask that cannot trade: both have a price, and the bid's is the lower. */
  ghost predicate Spread(bid: Order, ask: Order) {
    bid.price.Some? && ask.price.Some? && bid.price.value < ask.price.value
  }

  /** No bid and ask of different users could trade with each other. */
  ghost predicate Uncrossed(b: Book) {
    forall x, y :: x in b.bids && y in b.asks && x.user != y.user ==> Spread(x, y)
  }

  ghost predicate NoCross(b: Book) {
    forall x, y :: x in b.bids && y in b.asks && x.user != y.user ==> !BuyCrosses(x, y)
  }

  lemma UncrossedMeans(b: Book)
    ensures Uncrossed(b) <==> NoCross(b)
  {
    hide BuyCrosses, Spread;
    forall x, y ensures Spread(x, y) <==> !BuyCrosses(x, y) {
      SpreadMeans(x, y);
    }
  }

  lemma SpreadMeans(bid: Order, ask: Order)
    ensures Spread(bid, ask) <==> !BuyCrosses(bid, ask)
  {
  }

  ghost predicate Inv(b: Book, market: string) {
    && WellFormed(b, market)
    && AllPositive(b.bids) && AllPositive(b.asks)
    && Uncrossed(b)
  }

  ghost predicate Fresh(b: Book, id: nat) {
    && (forall x :: x in b.bids ==> x.id != id)
    && (forall x :: x in b.asks ==> x.id != id)
  }

  // ----- which order a placement takes out again

  /** Searching the book for `o.id` right after inserting `o` meets an older entry first,
      or the insertion overwrites one. */
  ghost predicate Shadowed(b: Book, o: Order) {
    match o.side
    case Buy =>
      exists x :: x in b.bids && x.id == o.id && !BidBefore(KeyOf(o), KeyOf(x))
    case Sell =>
      || (exists x :: x in b.bids && x.id == o.id)
      || (exists x :: x in b.asks && x.id == o.id && !AskBefore(KeyOf(o), KeyOf(x)))
  }

  /** The search for `o.id` stops at `o` when any other hit comes after it. */
  lemma FirstHit(side: Side, r: seq<Order>, o: Order)
    requires Sorted(side, r) && o in r
    requires forall x :: x in r && x.id == o.id && x != o ==> Before(side, KeyOf(o), KeyOf(x))
    ensures IndexOf(r, o.id) < |r| && r[IndexOf(r, o.id)] == o
  {
    var h :| 0 <= h < |r| && r[h] == o;
    var k := IndexOf(r, o.id);
    var x := r[k];
    assert x in r && k <= h;
    BeforeIsTotalOrder(side, KeyOf(o), KeyOf(x), KeyOf(o));
    hide Before, KeyOf;
    if k < h {
      assert Before(side, KeyOf(r[k]), KeyOf(r[h]));
    }
  }

  lemma PutAt(side: Side, s: seq<Order>, o: Order)
    requires Sorted(side, s)
    requires forall x :: x in s && x.id == o.id ==> Before(side, KeyOf(o), KeyOf(x))
    ensures var r := Put(side, s, o);
            var k := IndexOf(r, o.id);
            k < |r| && r[k] == o && RemoveAt(r, k) == s
  {
    forall x | x in s ensures KeyOf(x) != KeyOf(o) {
      BeforeIsTotalOrder(side, KeyOf(o), KeyOf(o), KeyOf(o));
    }
    hide Before, KeyOf, Put, RemoveAt, Sorted;
    PutSorted(side, s, o);
    var r := Put(side, s, o);
    FirstHit(side, r, o);
    var k := IndexOf(r, o.id);
    RemoveAtSorted(side, r, k);
    SortedUnique(side, RemoveAt(r, k), s);
  }

  lemma PutShadowed(side: Side, s: seq<Order>, o: Order, x: Order)
    requires Sorted(side, s)
    requires x in s && x.id == o.id && !Before(side, KeyOf(o), KeyOf(x))
    ensures var r := Put(side, s, o);
            var k := IndexOf(r, o.id);
            k < |r| && (r[k] != o || RemoveAt(r, k) != s)
  {
    BeforeIsTotalOrder(side, KeyOf(o), KeyOf(o), KeyOf(o));
    BeforeIsTotalOrder(side, KeyOf(o), KeyOf(x), KeyOf(o));
    hide Before, KeyOf, Put, RemoveAt;
    PutSorted(side, s, o);
    var r := Put(side, s, o);
    var h :| 0 <= h < |r| && r[h] == o;
    var k := IndexOf(r, o.id);
    if KeyOf(x) == KeyOf(o) {
      PutSameKey(side, s, o);
      assert |RemoveAt(r, k)| != |s|;
    } else {
      var i :| 0 <= i < |r| && r[i] == x;
      assert k <= i < h;
      assert Before(side, KeyOf(r[k]), KeyOf(r[h]));
    }
  }

  lemma {:induction false} PutSameKey(side: Side, s: seq<Order>, o: Order)
    requires Sorted(side, s) && exists x :: x in s && KeyOf(x) == KeyOf(o)
    ensures |Put(side, s, o)| == |s|
  {
    var x :| x in s && KeyOf(x) == KeyOf(o);
    if KeyOf(o) != KeyOf(s[0]) {
      SortedTail(side, s);
      assert x in s[1..];
      BeforeIsTotalOrder(side, KeyOf(s[0]), KeyOf(o), KeyOf(o));
      PutSameKey(side, s[1..], o);
    }
  }

  /** Insert-then-match takes out exactly the order it was given, and leaves exactly the
      book it was given, if and only if no older entry shadows it. */
  lemma InsertThenRemove(b: Book, o: Order)
    requires Sorted(Buy, b.bids) && Sorted(Sell, b.asks)
    ensures RemoveById(InsertOrder(b, o), o.id) == Some((o, b)) <==> !Shadowed(b, o)
  {
    var i := IndexOf(b.bids, o.id);
    assert forall x :: x in b.bids && x.id == o.id ==> i < |b.bids|;
    assert i < |b.bids| ==> b.bids[i] in b.bids;
    if !Shadowed(b, o) {
      PutAt(o.side, Level(b, o.side), o);
    } else if o.side == Buy {
      var x :| x in b.bids && x.id == o.id && !BidBefore(KeyOf(o), KeyOf(x));
      PutShadowed(Buy, b.bids, o, x);
    } else if i == |b.bids| {
      var x :| x in b.asks && x.id == o.id && !AskBefore(KeyOf(o), KeyOf(x));
      PutShadowed(Sell, b.asks, o, x);
    } else {
      assert |RemoveAt(b.bids, i)| != |b.bids|;
    }
  }

  // ----- fills and cancellations only shrink a book

  /** Every order of `s'` is an order of `s`, up to what remains of it. */
  ghost predicate Shrunk(s: seq<Order>, s': seq<Order>) {
    forall x' :: x' in s' ==> exists x :: x in s && SameOrder(x, x')
  }

  ghost predicate BookShrunk(b: Book, b': Book) {
    Shrunk(b.bids, b'.bids) && Shrunk(b.asks, b'.asks)
  }

  lemma ShrunkTransitive(s: seq<Order>, t: seq<Order>, u: seq<Order>)
    requires Shrunk(s, t) && Shrunk(t, u)
    ensures Shrunk(s, u)
  {
    forall x' | x' in u
      ensures exists x :: x in s && SameOrder(x, x')
    {
      var y :| y in t && SameOrder(y, x');
      var x :| x in s && SameOrder(x, y);
      assert SameOrder(x, x');
    }
  }

  lemma ShrunkSelf(s: seq<Order>)
    ensures Shrunk(s, s)
  {
    forall x' | x' in s
      ensures exists x :: x in s && SameOrder(x, x')
    {
      assert SameOrder(x', x');
    }
  }

  lemma FillAtShrinks(s: seq<Order>, i: nat, q: int)
    requires i < |s| && AllPositive(s) && q <= s[i].remaining
    ensures Shrunk(s, FillAt(s, i, q)) && AllPositive(FillAt(s, i, q))
  {
    var r := FillAt(s, i, q);
    assert s[i] in s;
    if s[i].remaining == q {
      forall x' | x' in r ensures x' in s && SameOrder(x', x') {
      }
    } else {
      forall x' | x' in r ensures x'.remaining > 0 && exists x :: x in s && SameOrder(x, x') {
        var k :| 0 <= k < |r| && r[k] == x';
        assert s[k] in s && SameOrder(s[k], x');
      }
    }
  }

  /** A replayed fill that succeeds keeps the book well formed and positive. */
  lemma ApplyFillKeeps(b: Book, market: string, e: MatchEvent)
    requires WellFormed(b, market) && AllPositive(b.bids) && AllPositive(b.asks)
    requires ApplyFill(b, e).Ok?
    ensures var b' := ApplyFill(b, e).value;
            WellFormed(b', market) && AllPositive(b'.bids) && AllPositive(b'.asks) && BookShrunk(b, b')
  {
    var i, j := IndexOf(b.bids, e.bidOrder), IndexOf(b.asks, e.askOrder);
    FillAtWellFormed(Buy, market, b.bids, i, e.quantity);
    FillAtWellFormed(Sell, market, b.asks, j, e.quantity);
    FillAtShrinks(b.bids, i, e.quantity);
    FillAtShrinks(b.asks, j, e.quantity);
    DisjointShrinks(b, ApplyFill(b, e).value);
  }

  lemma DisjointShrinks(b: Book, b': Book)
    requires BookShrunk(b, b') && forall x, y :: x in b.bids && y in b.asks ==> x.id != y.id
    ensures forall x, y :: x in b'.bids && y in b'.asks ==> x.id != y.id
  {
    forall x', y' | x' in b'.bids && y' in b'.asks
      ensures x'.id != y'.id
    {
      var x :| x in b.bids && SameOrder(x, x');
      var y :| y in b.asks && SameOrder(y, y');
    }
  }

  lemma {:induction false} ApplyFillsKeeps(b: Book, market: string, es: seq<MatchEvent>)
    requires WellFormed(b, market) && AllPositive(b.bids) && AllPositive(b.asks)
    requires ApplyFills(b, es).Ok?
    ensures var b' := ApplyFills(b, es).value;
            WellFormed(b', market) && AllPositive(b'.bids) && AllPositive(b'.asks) && BookShrunk(b, b')
    decreases |es|
  {
    if es == [] {
      ShrunkSelf(b.bids);
      ShrunkSelf(b.asks);
    } else {
      var b1 := ApplyFill(b, es[0]).value;
      ApplyFillKeeps(b, market, es[0]);
      ApplyFillsKeeps(b1, market, es[1..]);
      var b' := ApplyFills(b, es).value;
      ShrunkTransitive(b.bids, b1.bids, b'.bids);
      ShrunkTransitive(b.asks, b1.asks, b'.asks);
    }
  }

  lemma UncrossedShrinks(b: Book, b': Book)
    requires Uncrossed(b) && BookShrunk(b, b')
    ensures Uncrossed(b')
  {
    forall x', y' | x' in b'.bids && y' in b'.asks && x'.user != y'.user
      ensures !BuyCrosses(x', y')
    {
      var x :| x in b.bids && SameOrder(x, x');
      var y :| y in b.asks && SameOrder(y, y');
      assert !BuyCrosses(x, y);
    }
  }

  // ----- placements

  lemma PutWellFormed(side: Side, market: string, s: seq<Order>, o: Order)
    requires WellFormedSide(side, market, s) && o.side == side && o.market == market
    requires forall x :: x in s ==> x.id != o.id
    ensures WellFormedSide(side, market, Put(side, s, o))
  {
    hide Before, Put;
    PutSorted(side, s, o);
  }

  lemma InsertWellFormed(b: Book, market: string, o: Order)
    requires WellFormed(b, market) && Fresh(b, o.id) && o.market == market
    ensures WellFormed(InsertOrder(b, o), market)
  {
    PutWellFormed(o.side, market, Level(b, o.side), o);
  }

  /** A placement with an unused id matches the new order against the book as it was. */
  lemma PlaceIsSweep(b: Book, market: string, o: Order)
    requires WellFormed(b, market) && Fresh(b, o.id) && o.market == market
    ensures var r := Sweep(market, o, Level(b, Opposite(o.side)));
            Place(b, o) == (Settle(b, o.side, r), r.events)
  {
    InsertThenRemove(b, o);
  }

  lemma {:induction false} ConsumeAll(queue: seq<Order>, q: int)
    requires AllPositive(queue) && q > TotalRemaining(queue)
    ensures Consume(queue, q) == []
  {
    if queue != [] {
      assert queue[0] in queue;
      TotalRemainingPositive(queue[1..]);
      TotalRemainingPositive(queue);
      ConsumeAll(queue[1..], q - queue[0].remaining);
    }
  }

  lemma {:induction false} NoneEligible(taker: Order, makers: seq<Order>)
    requires EligibleMakers(taker, makers) == []
    ensures forall m :: m in makers ==> !Eligible(taker, m)
  {
    if makers != [] {
      NoneEligible(taker, makers[1..]);
      assert makers == [makers[0]] + makers[1..];
    }
  }

  /** A taker that is not done has nobody left to trade with. */
  lemma RestingTakerIsBlocked(market: string, taker: Order, makers: seq<Order>)
    requires AllPositive(makers)
    ensures var r := Sweep(market, taker, makers);
            r.taker.remaining > 0 ==> forall m :: m in r.makers ==> !Eligible(taker, m)
  {
    GreedyPriority(market, taker, makers);
    var r := Sweep(market, taker, makers);
    if r.taker.remaining > 0 {
      var queue := EligibleMakers(taker, makers);
      EligiblePositive(taker, makers);
      TotalRemainingPositive(queue);
      ConsumeAll(queue, taker.remaining);
      NoneEligible(taker, r.makers);
    }
  }

  lemma ShrunkCons(m: Order, m': Order, s: seq<Order>, s': seq<Order>)
    requires Shrunk(s, s') && SameOrder(m, m')
    ensures Shrunk([m] + s, s')
    ensures Shrunk([m] + s, [m'] + s')
  {
    forall x' | x' in s' ensures exists x :: x in [m] + s && SameOrder(x, x') {
      var x :| x in s && SameOrder(x, x');
      assert x in [m] + s;
    }
    assert m in [m] + s;
  }

  lemma {:induction false} SweepShrinks(market: string, taker: Order, makers: seq<Order>)
    ensures Shrunk(makers, Sweep(market, taker, makers).makers)
    decreases |makers|
  {
    ShrunkSelf(makers);
    if makers != [] && taker.remaining > 0 {
      var m, rest := makers[0], makers[1..];
      assert makers == [m] + rest;
      var q := Min(taker.remaining, m.remaining);
      if !Eligible(taker, m) {
        SweepShrinks(market, taker, rest);
        ShrunkCons(m, m, rest, Sweep(market, taker, rest).makers);
      } else if m.remaining > q {
        ShrunkSelf(rest);
        ShrunkCons(m, Reduce(m, q), rest, rest);
      } else {
        SweepShrinks(market, Reduce(taker, q), rest);
        ShrunkCons(m, m, rest, Sweep(market, Reduce(taker, q), rest).makers);
      }
    }
  }

  /** The taker's side after a sweep: what it was, and the taker if it is not done. */
  lemma OwnSideAfter(b: Book, side: Side, r: Swept, x: Order)
    requires r.taker.side == side && x in Level(Settle(b, side, r), side)
    ensures x in Level(b, side) || (x == r.taker && r.taker.remaining > 0)
  {
  }

  lemma SettleUncrossed(b: Book, market: string, o: Order)
    requires Uncrossed(b) && AllPositive(Level(b, Opposite(o.side)))
    ensures Uncrossed(Settle(b, o.side, Sweep(market, o, Level(b, Opposite(o.side)))))
  {
    hide Uncrossed;
    var other := Level(b, Opposite(o.side));
    var r := Sweep(market, o, other);
    var b' := Settle(b, o.side, r);
    UncrossedMeans(b);
    UncrossedMeans(b');
    SweepShrinks(market, o, other);
    SweepKeepsTaker(market, o, other);
    RestingTakerIsBlocked(market, o, other);
    forall x', y' | x' in b'.bids && y' in b'.asks && x'.user != y'.user
      ensures !BuyCrosses(x', y')
    {
      if o.side == Buy {
        OwnSideAfter(b, Buy, r, x');
        var y :| y in b.asks && SameOrder(y, y');
        assert x' in b.bids ==> !BuyCrosses(x', y);
      } else {
        OwnSideAfter(b, Sell, r, y');
        var x :| x in b.bids && SameOrder(x, x');
        assert y' in b.asks ==> !BuyCrosses(x, y');
      }
    }
  }

  /** A placement with an unused id keeps the invariant, whatever quantity it carries; one
      with nothing to trade leaves the book as it was. */
  lemma PlaceKeeps(b: Book, market: string, o: Order)
    requires Inv(b, market) && Fresh(b, o.id) && o.market == market
    ensures Inv(Place(b, o).0, market)
    ensures o.remaining <= 0 ==> Place(b, o) == (b, [])
  {
    PlaceIsSweep(b, market, o);
    if o.remaining > 0 {
      var b1 := InsertOrder(b, o);
      InsertWellFormed(b, market, o);
      ReplayEquivalence(b1, market, o.id);
      ApplyFillsKeeps(b1, market, Place(b, o).1);
      SettleUncrossed(b, market, o);
    }
  }

  // ----- cancellations

  lemma CancelKeeps(b: Book, market: string, id: nat)
    requires Inv(b, market)
    ensures Inv(CancelOrder(b, id), market)
    ensures Fresh(CancelOrder(b, id), id)
  {
    WithoutSorted(Buy, b.bids, id);
    WithoutSorted(Sell, b.asks, id);
  }

  // ----- runs

  datatype Step = PlaceStep(order: Order) | CancelStep(id: nat) | ReplayStep(event: MatchEvent)

  function Apply(b: Book, step: Step): Book {
    match step
    case PlaceStep(o) => Place(b, o).0
    case CancelStep(id) => CancelOrder(b, id)
    case ReplayStep(e) => (match ApplyFill(b, e) case Ok(b') => b' case Err(_) => b)
  }

  function Run(b: Book, steps: seq<Step>): Book
    decreases |steps|
  {
    if steps == [] then b else Run(Apply(b, steps[0]), steps[1..])
  }

  /** Every placement is for this market under an id not resting in the book. */
  ghost predicate Legal(b: Book, market: string, steps: seq<Step>)
    decreases |steps|
  {
    if steps == [] then true
    else
      && (steps[0].PlaceStep? ==> steps[0].order.market == market && Fresh(b, steps[0].order.id))
      && Legal(Apply(b, steps[0]), market, steps[1..])
  }

  lemma {:induction false} RunKeeps(b: Book, market: string, steps: seq<Step>)
    requires Inv(b, market) && Legal(b, market, steps)
    ensures Inv(Run(b, steps), market)
    decreases |steps|
  {
    if steps != [] {
      match steps[0] {
        case PlaceStep(o) =>
          PlaceKeeps(b, market, o);
        case CancelStep(id) =>
          CancelKeeps(b, market, id);
        case ReplayStep(e) =>
          if ApplyFill(b, e).Ok? {
            ApplyFillKeeps(b, market, e);
            UncrossedShrinks(b, ApplyFill(b, e).value);
          }
      }
      RunKeeps(Apply(b, steps[0]), market, steps[1..]);
    }
  }

  /** In every state reachable from an empty book, a bid and an ask of different users are
      both priced with the bid lower, and every resting order has something remaining. */
  lemma ReachableBooks(market: string, steps: seq<Step>)
    requires Legal(Book([], []), market, steps)
    ensures Inv(Run(Book([], []), steps), market)
  {
    RunKeeps(Book([], []), market, steps);
  }

  const LOW_BID := Order(1, 10, "M", Buy, Limit, Some(3), 1, 1, 1)
  const HIGH_BID := Order(2, 11, "M", Buy, Limit, Some(6), 1, 1, 2)
  const REUSING_ASK := Order(1, 12, "M", Sell, Limit, Some(4), 1, 1, 3)

  /** Reusing a resting id is not covered by the rule above for a reason: here a sell that
      reuses the id of a bid has that bid matched in its place, and is left resting across
      from a bid it could trade with. */
  lemma ReusedIdCrossesBook()
    ensures var b := Book([HIGH_BID, LOW_BID], []);
            && Inv(b, "M") && Shadowed(b, REUSING_ASK)
            && Place(b, REUSING_ASK) == (Book([HIGH_BID, LOW_BID], [REUSING_ASK]), [])
            && !Uncrossed(Place(b, REUSING_ASK).0)
  {
    var b := Book([HIGH_BID, LOW_BID], []);
    ReusedIdTakesBid();
    RescanStuck("M", LOW_BID, [REUSING_ASK]);
    assert Put(Buy, [HIGH_BID], LOW_BID) == [HIGH_BID, LOW_BID];
    assert BuyCrosses(HIGH_BID, REUSING_ASK);
  }

  lemma ReusedIdTakesBid()
    ensures var b := Book([HIGH_BID, LOW_BID], []);
            RemoveById(InsertOrder(b, REUSING_ASK), 1) == Some((LOW_BID, Book([HIGH_BID], [REUSING_ASK])))
  {
    var b := Book([HIGH_BID, LOW_BID], []);
    assert b.bids[1..] == [LOW_BID];
    assert IndexOf(b.bids, 1) == 1;
    assert RemoveAt(b.bids, 1) == [HIGH_BID];
  }
}
