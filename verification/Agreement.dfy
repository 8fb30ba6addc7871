/** The engine and the settlement worker agree on every order, in whatever order the events
    are settled. */
module Agreement {
  import opened Types
  import opened BookRuns
  import opened Rounding
  import opened Settlement
  import opened OrderAccounts

  // ----- sums over events do not depend on their order

  lemma {:induction false} FilledRemove(events: seq<MatchEvent>, k: nat, id: nat)
    requires k < |events|
    ensures FilledBy(events, id) == FilledBy(events[..k] + events[k + 1..], id) + Part(events[k], id)
  {
    var n := |events| - 1;
    if k == n {
      assert events[..k] + events[k + 1..] == events[..n];
    } else {
      FilledRemove(events[..n], k, id);
      var rest := events[..k] + events[k + 1..];
      assert rest[..n - 1] == events[..n][..k] + events[..n][k + 1..];
      assert rest[n - 1] == events[n];
    }
  }

  lemma MultisetRemove(events: seq<MatchEvent>, k: nat)
    requires k < |events|
    ensures multiset(events[..k] + events[k + 1..]) == multiset(events) - multiset{events[k]}
  {
    assert events == events[..k] + [events[k]] + events[k + 1..];
  }

  ghost predicate Positive(events: seq<MatchEvent>) {
    forall e :: e in events ==> e.quantity > 0
  }

  /** The last of some events, taken out of all of them. */
  lemma TakeOut(some: seq<MatchEvent>, all: seq<MatchEvent>) returns (k: nat)
    requires multiset(some) <= multiset(all) && some != []
    ensures k < |all| && all[k] == some[|some| - 1]
    ensures multiset(some[..|some| - 1]) <= multiset(all[..k] + all[k + 1..])
  {
    var n := |some| - 1;
    assert some == some[..n] + [some[n]];
    assert some[n] in multiset(some) && some[n] in all;
    k :| 0 <= k < |all| && all[k] == some[n];
    MultisetRemove(all, k);
    assert multiset(some[..n]) == multiset(some) - multiset{some[n]};
  }

  lemma {:induction false} FilledMonotone(some: seq<MatchEvent>, all: seq<MatchEvent>, id: nat)
    requires multiset(some) <= multiset(all) && Positive(all)
    ensures FilledBy(some, id) <= FilledBy(all, id)
  {
    if some == [] {
      FilledNonNegative(all, id);
    } else {
      var k := TakeOut(some, all);
      FilledRemove(all, k, id);
      FilledMonotone(some[..|some| - 1], all[..k] + all[k + 1..], id);
    }
  }

  // ----- settling

  /** The database's order rows as they were when the orders were placed. */
  ghost predicate Listed(t: Trading, orders: map<nat, OrderRow>) {
    forall id :: id in t.placed ==> id in orders && orders[id].remaining == t.placed[id]
  }

  /** What settlement does to the order rows for a list of events. */
  function FillAll(orders: map<nat, OrderRow>, events: seq<MatchEvent>, unit: nat): Option<map<nat, OrderRow>>
    requires unit > 0
  {
    if events == [] then Some(orders)
    else
      var e := events[|events| - 1];
      match FillAll(orders, events[..|events| - 1], unit)
      case None => None
      case Some(o) => FillOrders(o, e.takerOrder, e.makerOrder, RoundDown(e.quantity, unit))
  }

  /** Where an order row stands after some events. */
  ghost predicate Stands(t: Trading, start: map<nat, OrderRow>, events: seq<MatchEvent>, orders: map<nat, OrderRow>, id: nat)
    requires id in t.placed
  {
    && id in start && id in orders
    && orders[id].remaining == t.placed[id] - FilledBy(events, id)
    && orders[id].filled == start[id].filled + FilledBy(events, id)
    && (FilledBy(events, id) > 0 ==> orders[id].status == StatusFor(orders[id].remaining))
  }

  function StatusFor(remaining: int): OrderStatus {
    if remaining <= 0 then Filled else PartiallyFilled
  }

  ghost predicate AllStand(t: Trading, start: map<nat, OrderRow>, events: seq<MatchEvent>, orders: map<nat, OrderRow>) {
    forall id :: id in t.placed ==> Stands(t, start, events, orders, id)
  }

  /** Two different orders that can take the fill do take it, and nothing else moves. */
  lemma FillOrdersMoves(orders: map<nat, OrderRow>, taker: nat, maker: nat, q: int)
    requires taker != maker && taker in orders && maker in orders
    requires orders[taker].remaining >= q && orders[maker].remaining >= q
    ensures FillOrders(orders, taker, maker, q).Some?
    ensures var o := FillOrders(orders, taker, maker, q).value;
            forall id :: id in orders ==>
              && id in o
              && o[id].remaining == orders[id].remaining - (if id == taker || id == maker then q else 0)
              && o[id].filled == orders[id].filled + (if id == taker || id == maker then q else 0)
              && o[id].status == (if id == taker || id == maker then StatusFor(o[id].remaining) else orders[id].status)
  {
  }

  /** The engine gave the two orders enough for this event on top of the others. */
  lemma RoomForFill(t: Trading, start: map<nat, OrderRow>, before: seq<MatchEvent>, e: MatchEvent, orders: map<nat, OrderRow>, id: nat)
    requires Tracks(t) && multiset(before + [e]) <= multiset(t.events)
    requires id in t.placed && Stands(t, start, before, orders, id) && Part(e, id) > 0
    ensures orders[id].remaining >= Part(e, id)
  {
    assert Positive(t.events) by {
      assert forall f :: f in t.events ==> Sound(t.placed, f);
    }
    FilledMonotone(before + [e], t.events, id);
    FilledSnoc(before, e, id);
    assert Accounted(t, id);
    FilledNonNegative(before, id) by {
      assert forall f :: f in before ==> f in multiset(before + [e]);
    }
  }

  lemma StandsAfter(t: Trading, start: map<nat, OrderRow>, before: seq<MatchEvent>, e: MatchEvent, orders: map<nat, OrderRow>)
    requires Tracks(t) && multiset(before + [e]) <= multiset(t.events) && e in t.events && Faces(e)
    requires AllStand(t, start, before, orders)
    ensures var o := FillOrders(orders, e.takerOrder, e.makerOrder, e.quantity);
            o.Some? && AllStand(t, start, before + [e], o.value)
  {
    assert Sound(t.placed, e);
    assert Stands(t, start, before, orders, e.takerOrder) && Stands(t, start, before, orders, e.makerOrder);
    hide Tracks, FilledBy, FillOrders, StatusFor;
    RoomForFill(t, start, before, e, orders, e.takerOrder);
    RoomForFill(t, start, before, e, orders, e.makerOrder);
    FillOrdersMoves(orders, e.takerOrder, e.makerOrder, e.quantity);
    var o := FillOrders(orders, e.takerOrder, e.makerOrder, e.quantity).value;
    forall id | id in t.placed ensures Stands(t, start, before + [e], o, id) {
      FilledSnoc(before, e, id);
      assert Stands(t, start, before, orders, id);
    }
  }

  lemma RoundingIsIdentity(g: Grid, t: Trading, e: MatchEvent)
    requires g.price > 0 && g.qty > 0 && Good(g, t) && e in t.events
    ensures RoundDown(e.quantity, g.qty) == e.quantity && RoundDown(e.price, g.price) == e.price && Faces(e)
  {
    assert EventOnGrid(g, e);
    RoundDownIdentity(e.quantity, g.qty);
    RoundDownIdentity(e.price, g.price);
  }

  lemma PrefixOfMultiset(before: seq<MatchEvent>, e: MatchEvent, all: seq<MatchEvent>)
    requires multiset(before + [e]) <= multiset(all)
    ensures multiset(before) <= multiset(all) && e in all
  {
    assert e in multiset(before + [e]);
  }

  /** Any of the engine's events, each at most once and in any order, can be settled. */
  lemma {:induction false} SettledInAnyOrder(g: Grid, t: Trading, start: map<nat, OrderRow>, events: seq<MatchEvent>)
    requires g.price > 0 && g.qty > 0 && Good(g, t) && Listed(t, start) && multiset(events) <= multiset(t.events)
    ensures var o := FillAll(start, events, g.qty);
            o.Some? && AllStand(t, start, events, o.value)
  {
    if events != [] {
      var n := |events| - 1;
      var before, e := events[..n], events[n];
      assert events == before + [e];
      PrefixOfMultiset(before, e, t.events);
      SettledInAnyOrder(g, t, start, before);
      RoundingIsIdentity(g, t, e);
      hide AllStand, Listed, TradesOnGrid, Tracks, Inv, FillOrders, RoundDown;
      StandsAfter(t, start, before, e, FillAll(start, before, g.qty).value);
    }
  }

  /** After all events are settled, each exactly once, the row of every resting order holds
      what the engine has left of it, and the row of every used-up order is filled. */
  lemma EngineAndSettlementAgree(g: Grid, moves: seq<Move>, start: map<nat, OrderRow>, events: seq<MatchEvent>)
    requires g.price > 0 && g.qty > 0 && Orderly(g, moves)
    requires Listed(Traded(NOTHING, moves), start) && multiset(events) == multiset(Traded(NOTHING, moves).events)
    ensures var t, o := Traded(NOTHING, moves), FillAll(start, events, g.qty);
            && o.Some?
            && (forall x :: On(t.book, x) ==> x.id in o.value && o.value[x.id].remaining == x.remaining)
            && (forall id :: id in t.placed && t.placed[id] > 0 && !Resting(t.book, id) && id !in t.cancelled ==>
                  id in o.value && o.value[id].remaining == 0 && o.value[id].status == Filled)
  {
    var t := Traded(NOTHING, moves);
    OrdersAreConserved(g, moves);
    SettledInAnyOrder(g, t, start, events);
    assert Positive(t.events) by {
      assert forall e :: e in t.events ==> Sound(t.placed, e);
    }
    assert Positive(events) by {
      assert forall e :: e in events ==> e in multiset(events);
    }
    forall id ensures FilledBy(events, id) == FilledBy(t.events, id) {
      FilledMonotone(events, t.events, id);
      FilledMonotone(t.events, events, id);
    }
    var o := FillAll(start, events, g.qty).value;
    hide FillAll, Traded, FilledBy, Orderly, Inv, TradesOnGrid, Positive, AllSound;
    forall x | On(t.book, x) ensures x.id in o && o[x.id].remaining == x.remaining {
      assert Remains(t, x) && Stands(t, start, events, o, x.id);
    }
    forall id | id in t.placed && t.placed[id] > 0 && !Resting(t.book, id) && id !in t.cancelled
      ensures id in o && o[id].remaining == 0 && o[id].status == Filled
    {
      assert Accounted(t, id) && Stands(t, start, events, o, id);
    }
  }

  // ----- the worker's own check

  function PayloadOf(e: MatchEvent): Payload {
    Payload(e.market, Some(e.price), Some(e.quantity), e.takerOrder, e.makerOrder, e.takerUser, e.makerUser, e.takerSide)
  }

  lemma ShortOnlyIfOrdersAre(h: Hashes, db: Db, row: EventRow, m: MarketRow, q: int)
    requires row.payload.symbol in db.markets && db.markets[row.payload.symbol] == m && row.payload.qty == Some(q)
    requires FillOrders(db.orders, row.payload.takerOrder, row.payload.makerOrder, RoundDown(q, m.qtyUnit)).Some?
    ensures Process(h, db, row) != Err(OrderInvariantViolation)
  {
    hide ApplyUpdates, TotalsAgree, ChainHolds, AnyNegative, FillOrders, Deltas, Updates, RowsOf, RoundDown, TradeValue, FeeOf;
  }

  /** With the market's quantity step, the worker never finds an order short: not for any
      event of the engine that is still to be settled, whatever was settled before it. */
  lemma WorkerNeverFindsOrderShort(h: Hashes, g: Grid, moves: seq<Move>, db: Db, start: map<nat, OrderRow>,
                                   settled: seq<MatchEvent>, e: MatchEvent, row: EventRow)
    requires g.price > 0 && g.qty > 0 && Orderly(g, moves)
    requires Listed(Traded(NOTHING, moves), start) && multiset(settled + [e]) <= multiset(Traded(NOTHING, moves).events)
    requires FillAll(start, settled, g.qty) == Some(db.orders) && row.payload == PayloadOf(e)
    requires e.market in db.markets && db.markets[e.market].qtyUnit == g.qty
    ensures Process(h, db, row) != Err(OrderInvariantViolation)
  {
    OrdersAreConserved(g, moves);
    SettledInAnyOrder(g, Traded(NOTHING, moves), start, settled + [e]);
    assert (settled + [e])[..|settled|] == settled;
    hide Traded, Orderly, Listed, Good, AllStand, FillOrders, RoundDown, Process;
    ShortOnlyIfOrdersAre(h, db, row, db.markets[e.market], e.quantity);
  }
}
