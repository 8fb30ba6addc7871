/** Limit prices over whole runs: what all the fills of an order cost, as taker and as maker. */
module OrderLimits {
  import opened Types
  import opened Matching
  import opened Replay
  import opened BookRuns
  import opened Rounding
  import opened OrderAccounts

  /** The orders a run has placed, by id. */
  function PlacedOrders(moves: seq<Move>): map<nat, Order> {
    if moves == [] then map[]
    else
      var last := moves[|moves| - 1];
      var before := PlacedOrders(moves[..|moves| - 1]);
      if last.PlaceMove? then before[last.order.id := last.order] else before
  }

  lemma {:induction false} PlacedIds(moves: seq<Move>)
    ensures PlacedOrders(moves).Keys == Traded(NOTHING, moves).placed.Keys
  {
    if moves != [] {
      PlacedIds(moves[..|moves| - 1]);
      hide Place, CancelOrder;
    }
  }

  /** The price two orders trade at: the maker's, else the taker's, else zero. */
  ghost predicate AtMakersPrice(taker: Order, maker: Order, price: int) {
    && (maker.price.Some? ==> price == maker.price.value)
    && (maker.price.None? && taker.price.Some? ==> price == taker.price.value)
    && (maker.price.None? && taker.price.None? ==> price == 0)
  }

  /** An event that names a taker and a maker, their users and sides, at the right price. */
  ghost predicate Tells(taker: Order, maker: Order, e: MatchEvent) {
    && (e.takerOrder, e.takerUser, e.takerSide) == (taker.id, taker.user, taker.side)
    && (e.makerOrder, e.makerUser) == (maker.id, maker.user)
    && (taker.side == Buy ==> (e.bidOrder, e.bidUser, e.askOrder, e.askUser) == (taker.id, taker.user, maker.id, maker.user))
    && (taker.side == Sell ==> (e.bidOrder, e.bidUser, e.askOrder, e.askUser) == (maker.id, maker.user, taker.id, taker.user))
    && e.market == taker.market
    && AtMakersPrice(taker, maker, e.price)
  }

  /** A buy and a sell of different users met at the maker's price, which respects both
      limits. */
  ghost predicate Fair(orders: map<nat, Order>, e: MatchEvent) {
    && e.takerOrder in orders && e.makerOrder in orders && e.bidOrder in orders && e.askOrder in orders
    && Tells(orders[e.takerOrder], orders[e.makerOrder], e) && e.takerUser != e.makerUser
    && orders[e.bidOrder].side == Buy && orders[e.askOrder].side == Sell
    && (orders[e.bidOrder].price.Some? ==> e.price <= orders[e.bidOrder].price.value)
    && (orders[e.askOrder].price.Some? ==> e.price >= orders[e.askOrder].price.value)
  }

  ghost predicate Entered(orders: map<nat, Order>, x: Order) {
    x.id in orders && SameOrder(orders[x.id], x)
  }

  ghost predicate WithinLimits(orders: map<nat, Order>, t: Trading) {
    && (forall x :: On(t.book, x) ==> Entered(orders, x))
    && (forall e :: e in t.events ==> Fair(orders, e))
  }

  lemma FillIsFair(orders: map<nat, Order>, market: string, taker: Order, maker: Order, q: int)
    requires Entered(orders, taker) && Entered(orders, maker) && Eligible(taker, maker) && maker.side == Opposite(taker.side)
    requires taker.market == market
    ensures Fair(orders, Fill(market, taker, maker, q))
  {
  }

  lemma MoreOrders(orders: map<nat, Order>, o: Order, t: Trading)
    requires WithinLimits(orders, t) && o.id !in orders
    ensures WithinLimits(orders[o.id := o], t)
  {
    var more := orders[o.id := o];
    forall x | On(t.book, x) ensures Entered(more, x) {
      assert Entered(orders, x);
    }
    forall e | e in t.events ensures Fair(more, e) {
      assert Fair(orders, e);
    }
  }

  ghost predicate AllEntered(orders: map<nat, Order>, s: seq<Order>) {
    forall x :: x in s ==> Entered(orders, x)
  }

  lemma SweepIsFair(orders: map<nat, Order>, market: string, o: Order, makers: seq<Order>)
    requires Entered(orders, o) && AllEntered(orders, makers) && forall m :: m in makers ==> m.side == Opposite(o.side)
    requires o.market == market
    ensures forall e :: e in Sweep(market, o, makers).events ==> Fair(orders, e)
  {
    EventsComeFromMakers(market, o, makers);
    hide Sweep, Eligible, Fair, Fill;
    forall e | e in Sweep(market, o, makers).events ensures Fair(orders, e) {
      var m :| m in makers && Eligible(o, m) && e == Fill(market, o, m, e.quantity);
      FillIsFair(orders, market, o, m, e.quantity);
    }
  }

  lemma SweepKeepsEntered(orders: map<nat, Order>, market: string, o: Order, makers: seq<Order>)
    requires Entered(orders, o) && AllEntered(orders, makers)
    ensures Entered(orders, Sweep(market, o, makers).taker) && AllEntered(orders, Sweep(market, o, makers).makers)
  {
    SweepShrinks(market, o, makers);
    SweepKeepsTaker(market, o, makers);
    hide Sweep;
    forall x | x in Sweep(market, o, makers).makers ensures Entered(orders, x) {
      var m :| m in makers && SameOrder(m, x);
      assert Entered(orders, m);
    }
  }

  lemma PlaceWithinLimits(orders: map<nat, Order>, t: Trading, market: string, o: Order)
    requires WithinLimits(orders, t) && o.id !in orders && o.market == market
    requires WellFormed(t.book, market) && Fresh(t.book, o.id)
    ensures WithinLimits(orders[o.id := o], Next(t, PlaceMove(o)))
  {
    var more, makers := orders[o.id := o], Level(t.book, Opposite(o.side));
    var r := Sweep(market, o, makers);
    MoreOrders(orders, o, t);
    assert AllEntered(more, makers) && Entered(more, o);
    SweepIsFair(more, market, o, makers);
    SweepKeepsEntered(more, market, o, makers);
    SweepKeepsTaker(market, o, makers);
    PlaceIsSweep(t.book, market, o);
    hide Sweep, Place, Fair, Entered, Settle, WellFormed, Fresh;
    forall x | On(Settle(t.book, o.side, r), x) ensures Entered(more, x) {
      SettledElements(t.book, market, o.side, r, x);
    }
  }

  lemma CancelWithinLimits(orders: map<nat, Order>, t: Trading, id: nat)
    requires WithinLimits(orders, t)
    ensures WithinLimits(orders, Next(t, CancelMove(id)))
  {
    hide Fair;
  }

  /** Over every orderly run, each event names the two orders it joins and their users, is at
      the maker's price, else the taker's, else zero, and respects both limits. */
  lemma {:induction false} RunsStayWithinLimits(g: Grid, moves: seq<Move>)
    requires g.price > 0 && g.qty > 0 && Orderly(g, moves)
    ensures WithinLimits(PlacedOrders(moves), Traded(NOTHING, moves))
  {
    if moves != [] {
      var n := |moves| - 1;
      RunsStayWithinLimits(g, moves[..n]);
      OrdersAreConserved(g, moves[..n]);
      PlacedIds(moves[..n]);
      var t, orders := Traded(NOTHING, moves[..n]), PlacedOrders(moves[..n]);
      hide WithinLimits, Tracks, TradesOnGrid, Inv;
      match moves[n]
      case PlaceMove(o) =>
        TrackedIsFresh(t, o.id);
        InvIsWellFormed(t.book, g.market);
        PlaceWithinLimits(orders, t, g.market, o);
      case CancelMove(id) =>
        CancelWithinLimits(orders, t, id);
    }
  }

  // ----- what an order's fills cost

  function FillsOf(events: seq<MatchEvent>, id: nat): seq<MatchEvent> {
    if events == [] then []
    else if events[0].bidOrder == id || events[0].askOrder == id then [events[0]] + FillsOf(events[1..], id)
    else FillsOf(events[1..], id)
  }

  lemma {:induction false} FillsOfAre(events: seq<MatchEvent>, id: nat)
    ensures forall e :: e in FillsOf(events, id) ==> e in events && (e.bidOrder == id || e.askOrder == id)
  {
    if events != [] {
      FillsOfAre(events[1..], id);
    }
  }

  lemma {:induction false} FillsOfTotal(events: seq<MatchEvent>, id: nat)
    ensures TotalQuantity(FillsOf(events, id)) == FilledBy(events, id)
  {
    if events != [] {
      FillsOfTotal(events[1..], id);
      FilledCons(events, id);
      hide FilledBy;
      if events[0].bidOrder == id || events[0].askOrder == id {
        assert FillsOf(events, id)[1..] == FillsOf(events[1..], id);
      }
    }
  }

  lemma {:induction false} FilledCons(events: seq<MatchEvent>, id: nat)
    requires events != []
    ensures FilledBy(events, id) == Part(events[0], id) + FilledBy(events[1..], id)
  {
    var n := |events| - 1;
    if n > 0 {
      FilledCons(events[..n], id);
      assert events[..n][1..] == events[1..][..n - 1];
    }
  }

  lemma FillsWithinLimit(g: Grid, moves: seq<Move>, id: nat)
    requires g.price > 0 && g.qty > 0 && Orderly(g, moves)
    requires id in PlacedOrders(moves) && PlacedOrders(moves)[id].side == Buy && PlacedOrders(moves)[id].price.Some?
    ensures forall e :: e in FillsOf(Traded(NOTHING, moves).events, id) ==>
              e.price <= PlacedOrders(moves)[id].price.value && e.quantity > 0
  {
    var t, orders := Traded(NOTHING, moves), PlacedOrders(moves);
    RunsStayWithinLimits(g, moves);
    OrdersAreConserved(g, moves);
    FillsOfAre(t.events, id);
    hide Traded, PlacedOrders, Orderly, FillsOf, Inv, TradesOnGrid;
    forall e | e in FillsOf(t.events, id) ensures e.price <= orders[id].price.value && e.quantity > 0 {
      assert Fair(orders, e) && Sound(t.placed, e);
    }
  }

  /** All the fills a limit buy ever gets, as taker and later as maker, in however many
      sweeps and at whatever prices: their rounded values add up to no more than the limit price times what was
      filled, and to less than one quote unit per fill below the exact total. */
  lemma LimitBuyOverRuns(g: Grid, moves: seq<Move>, id: nat, unit: int)
    requires g.price > 0 && g.qty > 0 && unit > 0 && Orderly(g, moves)
    requires id in PlacedOrders(moves) && PlacedOrders(moves)[id].side == Buy && PlacedOrders(moves)[id].price.Some?
    requires PlacedOrders(moves)[id].price.value >= 0
    ensures var events := Traded(NOTHING, moves).events;
            var es := FillsOf(events, id);
            && TotalValue(es, unit) * SCALE <= PlacedOrders(moves)[id].price.value * FilledBy(events, id)
            && (es != [] ==> ExactValue(es) - TotalValue(es, unit) * SCALE < |es| * (SCALE * unit))
  {
    var events, limit := Traded(NOTHING, moves).events, PlacedOrders(moves)[id].price.value;
    var es := FillsOf(events, id);
    FillsWithinLimit(g, moves, id);
    FillsOfTotal(events, id);
    hide Traded, PlacedOrders, Orderly, FillsOf, FilledBy, TotalQuantity, ExactValue, TotalValue;
    TotalWithinLimit(es, unit, limit);
  }
}
