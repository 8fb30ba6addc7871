/** Price, then time, then id: who stands where in a book, and who trades first. */
module Priority {
  import opened Types
  import opened PriceTime
  import opened Matching
  import opened SweepPrices
  import opened Replay
  import opened BookRuns
  import opened OrderLimits

  // ----- who stands where

  ghost predicate BetterPrice(side: Side, x: Order, y: Order) {
    && x.price.Some?
    && (y.price.Some? ==> if side == Buy then x.price.value > y.price.value else x.price.value < y.price.value)
  }

  ghost predicate SoonerThan(x: Order, y: Order) {
    x.createdAt < y.createdAt || (x.createdAt == y.createdAt && x.id < y.id)
  }

  /** `x` has a better price than `y`, any price being better than none, or the same price and
      an earlier time, or the same price and time and a lower id. */
  ghost predicate Ahead(side: Side, x: Order, y: Order) {
    BetterPrice(side, x, y) || (x.price == y.price && SoonerThan(x, y))
  }

  ghost predicate InPriority(side: Side, s: seq<Order>) {
    forall i, j :: 0 <= i < j < |s| ==> Ahead(side, s[i], s[j])
  }

  lemma BeforeIsAhead(side: Side, x: Order, y: Order)
    ensures Before(side, KeyOf(x), KeyOf(y)) <==> Ahead(side, x, y)
  {
  }

  lemma SortedIsPriority(side: Side, s: seq<Order>)
    ensures Sorted(side, s) <==> InPriority(side, s)
  {
    hide Before, Ahead, KeyOf;
    forall x, y ensures Before(side, KeyOf(x), KeyOf(y)) <==> Ahead(side, x, y) {
      BeforeIsAhead(side, x, y);
    }
  }

  /** In every book reachable from an empty one, each side stands in order of price, then time,
      then id. */
  lemma ReachableInPriority(market: string, steps: seq<Step>)
    requires Legal(Book([], []), market, steps)
    ensures var b := Run(Book([], []), steps); InPriority(Buy, b.bids) && InPriority(Sell, b.asks)
  {
    ReachableBooks(market, steps);
    var b := Run(Book([], []), steps);
    hide Run, Legal, Sorted, InPriority;
    SortedIsPriority(Buy, b.bids);
    SortedIsPriority(Sell, b.asks);
  }

  // ----- who trades first

  /** Some event takes all of a maker. */
  ghost predicate UsedUp(events: seq<MatchEvent>, x: Order) {
    exists e :: e in events && e.makerOrder == x.id && e.quantity == x.remaining
  }

  /** A maker the taker could trade with. */
  ghost predicate Willing(taker: Order, maker: Order) {
    maker.user != taker.user && PricesMeet(taker, maker)
  }

  /** Whoever trades, everyone the taker could trade with ahead of them is used up. */
  ghost predicate NobodyPassedOver(taker: Order, makers: seq<Order>, events: seq<MatchEvent>) {
    forall e, x, y ::
      e in events && x in makers && y in makers && e.makerOrder == y.id && Willing(taker, x) && Ahead(Opposite(taker.side), x, y)
      ==> UsedUp(events, x)
  }

  /** Where the makers of a sweep's events are in its queue. */
  lemma EventMaker(market: string, taker: Order, makers: seq<Order>, queue: seq<Order>, events: seq<MatchEvent>, i: nat, y: Order)
    requires UniqueIds(makers) && FillsInPriority(market, taker, queue, events) && i < |events|
    requires (forall m :: m in queue ==> m in makers) && y in makers && events[i].makerOrder == y.id
    ensures queue[i] == y
  {
    hide TotalQuantity, TotalRemaining;
    assert events[i] == Fill(market, taker, queue[i], events[i].quantity) && queue[i] in makers;
  }

  lemma AheadIsEarlier(side: Side, queue: seq<Order>, i: nat, j: nat)
    requires Sorted(side, queue) && i < |queue| && j < |queue| && Ahead(side, queue[j], queue[i])
    ensures j < i
  {
    BeforeIsAhead(side, queue[i], queue[j]);
    BeforeIsAhead(side, queue[j], queue[i]);
    BeforeIsTotalOrder(side, KeyOf(queue[i]), KeyOf(queue[j]), KeyOf(queue[i]));
    hide Before, KeyOf, Ahead;
  }

  /** A sweep serves the makers it could trade with by price, then time, then id. */
  lemma SweepServesInPriority(market: string, taker: Order, makers: seq<Order>)
    requires Sorted(Opposite(taker.side), makers) && UniqueIds(makers) && AllPositive(makers)
    ensures NobodyPassedOver(taker, makers, Sweep(market, taker, makers).events)
  {
    var side, queue, events := Opposite(taker.side), EligibleMakers(taker, makers), Sweep(market, taker, makers).events;
    GreedyPriority(market, taker, makers);
    assert FillsInPriority(market, taker, queue, events);
    EligibleSorted(taker, side, makers);
    forall m ensures m in queue <==> m in makers && Willing(taker, m) {
      EligibleAre(taker, makers, m);
      EligibleMeans(taker, m);
    }
    hide Sweep, EligibleMakers, Greedy, Sorted, Ahead, Willing, Fill, TotalQuantity, TotalRemaining;
    forall e, x, y | e in events && x in makers && y in makers && e.makerOrder == y.id && Willing(taker, x) && Ahead(side, x, y)
      ensures UsedUp(events, x)
    {
      var i :| 0 <= i < |events| && events[i] == e;
      EventMaker(market, taker, makers, queue, events, i, y);
      var j :| 0 <= j < |queue| && queue[j] == x;
      AheadIsEarlier(side, queue, i, j);
      FillNamesMaker(market, taker, x, events[j].quantity);
      assert events[j] in events;
    }
  }

  lemma FillNamesMaker(market: string, taker: Order, maker: Order, q: int)
    ensures Fill(market, taker, maker, q).makerOrder == maker.id
  {
  }

  lemma FillTells(market: string, taker: Order, maker: Order, q: int)
    requires taker.market == market
    ensures Tells(taker, maker, Fill(market, taker, maker, q))
  {
  }

  lemma {:induction false} PartOfTotal(events: seq<MatchEvent>, i: nat)
    requires i < |events| && forall k :: 0 <= k < |events| ==> events[k].quantity > 0
    ensures 0 < events[i].quantity <= TotalQuantity(events)
  {
    if |events| > 1 {
      PartOfTotal(events[1..], if i == 0 then 0 else i - 1);
    }
  }

  /** Every event of a sweep tells of the taker and a maker it could trade with, at the maker's
      price, and takes no more than either has. */
  lemma SweepEventsTell(market: string, taker: Order, makers: seq<Order>, e: MatchEvent)
    requires AllPositive(makers) && taker.market == market && e in Sweep(market, taker, makers).events
    ensures exists m :: m in makers && Willing(taker, m) && Tells(taker, m, e) && 0 < e.quantity <= m.remaining
    ensures e.quantity <= taker.remaining
  {
    var queue, events := EligibleMakers(taker, makers), Sweep(market, taker, makers).events;
    GreedyPriority(market, taker, makers);
    assert FillsInPriority(market, taker, queue, events);
    hide Sweep, Greedy, EligibleMakers, TotalQuantity, TotalRemaining, Tells, Fill, Eligible, AllPositive, PricesMeet;
    var i :| 0 <= i < |events| && events[i] == e;
    var m := queue[i];
    PartOfTotal(events, i);
    FillTells(market, taker, m, e.quantity);
    EligibleAre(taker, makers, m);
    EligibleMeans(taker, m);
    assert m in makers && Willing(taker, m);
  }

  /** The next placement in any reachable book: it trades exactly when it can, tells of the
      orders it joins at the maker's price, passes over nobody, and trades no more than it has. */
  lemma PlacementsServeInPriority(market: string, steps: seq<Step>, o: Order)
    requires Legal(Book([], []), market, steps) && o.market == market && Fresh(Run(Book([], []), steps), o.id)
    ensures var b := Run(Book([], []), steps);
            var makers, events := Level(b, Opposite(o.side)), Place(b, o).1;
            && (events != [] <==> CanTrade(o, makers))
            && (forall e :: e in events ==> exists m :: m in makers && Willing(o, m) && Tells(o, m, e) && 0 < e.quantity <= m.remaining)
            && NobodyPassedOver(o, makers, events)
            && TotalQuantity(events) <= AtLeast(o.remaining)
  {
    ReachableBooks(market, steps);
    var b := Run(Book([], []), steps);
    var makers := Level(b, Opposite(o.side));
    PlaceIsSweep(b, market, o);
    hide Run, Legal, Place;
    SweepTradesIff(market, o, makers);
    SweepServesInPriority(market, o, makers);
    GreedyPriority(market, o, makers);
    hide Sweep, CanTrade, NobodyPassedOver, EligibleMakers, Consume, Bystanders;
    forall e | e in Sweep(market, o, makers).events
      ensures exists m :: m in makers && Willing(o, m) && Tells(o, m, e) && 0 < e.quantity <= m.remaining
    {
      SweepEventsTell(market, o, makers, e);
    }
  }

  function AtLeast(x: int): int {
    if x > 0 then x else 0
  }
}
