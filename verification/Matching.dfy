/** Matching one incoming order against the opposite side of its book.

    `Sweep` is the reference: a single left-to-right pass over the makers in key
    order.  The engine instead re-scans its ordered map from the front after every
    fill; `RescanStep` and `RescanStuck` are the facts by which that loop refines
    the pass. */
module Matching {
  import opened Types
  import opened PriceTime

  datatype Book = Book(bids: seq<Order>, asks: seq<Order>)

  function Level(b: Book, side: Side): seq<Order> {
    match side
    case Buy => b.bids
    case Sell => b.asks
  }

  function WithLevel(b: Book, side: Side, s: seq<Order>): Book {
    match side
    case Buy => b.(bids := s)
    case Sell => b.(asks := s)
  }

  predicate BuyCrosses(incoming: Order, ask: Order) {
    match (incoming.price, ask.price)
    case (None, _) => true
    case (Some(_), None) => true
    case (Some(bp), Some(ap)) => bp >= ap
  }

  predicate SellCrosses(incoming: Order, bid: Order) {
    match (incoming.price, bid.price)
    case (None, _) => true
    case (Some(_), None) => true
    case (Some(sp), Some(bp)) => sp <= bp
  }

  predicate Crosses(taker: Order, maker: Order) {
    match taker.side
    case Buy => BuyCrosses(taker, maker)
    case Sell => SellCrosses(taker, maker)
  }

  predicate Eligible(taker: Order, maker: Order) {
    maker.user != taker.user && Crosses(taker, maker)
  }

  /** The maker's price, else the taker's, else zero. */
  function ExecPrice(taker: Order, maker: Order): int {
    if maker.price.Some? then maker.price.value
    else if taker.price.Some? then taker.price.value
    else 0
  }

  function Fill(market: string, taker: Order, maker: Order, q: int): MatchEvent {
    match taker.side
    case Buy =>
      MatchEvent(market, taker.id, maker.id, taker.user, maker.user,
                 taker.id, maker.id, taker.user, maker.user, Buy, ExecPrice(taker, maker), q)
    case Sell =>
      MatchEvent(market, maker.id, taker.id, maker.user, taker.user,
                 taker.id, maker.id, taker.user, maker.user, Sell, ExecPrice(taker, maker), q)
  }

  function Reduce(o: Order, q: int): Order {
    o.(remaining := o.remaining - q)
  }

  /** The same order, up to what remains of it. */
  predicate SameOrder(x: Order, x': Order) {
    x' == x.(remaining := x'.remaining)
  }

  datatype Swept = Swept(taker: Order, makers: seq<Order>, events: seq<MatchEvent>)

  /** One pass over the makers.  A maker with nothing left stops the pass, as the
      zero-quantity break of the engine does. */
  function Sweep(market: string, taker: Order, makers: seq<Order>): Swept
    decreases |makers|
  {
    if makers == [] || taker.remaining <= 0 then
      Swept(taker, makers, [])
    else
      var m, rest := makers[0], makers[1..];
      if !Eligible(taker, m) then
        var r := Sweep(market, taker, rest);
        r.(makers := [m] + r.makers)
      else
        var q := Min(taker.remaining, m.remaining);
        if q == 0 then Swept(taker, makers, [])
        else
          var e := Fill(market, taker, m, q);
          if m.remaining - q > 0 then
            Swept(Reduce(taker, q), [Reduce(m, q)] + rest, [e])
          else
            var r := Sweep(market, Reduce(taker, q), rest);
            r.(events := [e] + r.events)
  }

  function InsertOrder(b: Book, o: Order): Book {
    WithLevel(b, o.side, Put(o.side, Level(b, o.side), o))
  }

  /** Bids are searched before asks, and the first hit is taken. */
  function RemoveById(b: Book, id: nat): Option<(Order, Book)> {
    var i := IndexOf(b.bids, id);
    if i < |b.bids| then Some((b.bids[i], b.(bids := RemoveAt(b.bids, i))))
    else
      var j := IndexOf(b.asks, id);
      if j < |b.asks| then Some((b.asks[j], b.(asks := RemoveAt(b.asks, j))))
      else None
  }

  /** What is left of a sweep of `b` goes back to the book. */
  function Settle(b: Book, side: Side, r: Swept): Book {
    var b' := WithLevel(b, Opposite(side), r.makers);
    if r.taker.remaining > 0 then InsertOrder(b', r.taker) else b'
  }

  function MatchOrder(b: Book, market: string, id: nat): (Book, seq<MatchEvent>) {
    match RemoveById(b, id)
    case None => (b, [])
    case Some((taker, b')) =>
      var r := Sweep(market, taker, Level(b', Opposite(taker.side)));
      (Settle(b', taker.side, r), r.events)
  }

  /** Insert and match: one placement. */
  function Place(b: Book, o: Order): (Book, seq<MatchEvent>) {
    MatchOrder(InsertOrder(b, o), o.market, o.id)
  }

  /** `retain(|_, o| o.id != id)`. */
  function Without(s: seq<Order>, id: nat): (r: seq<Order>)
    ensures forall x :: x in r <==> x in s && x.id != id
  {
    if s == [] then []
    else
      assert s == [s[0]] + s[1..];
      (if s[0].id == id then [] else [s[0]]) + Without(s[1..], id)
  }

  function CancelOrder(b: Book, id: nat): Book {
    Book(Without(b.bids, id), Without(b.asks, id))
  }

  lemma {:induction false} WithoutSorted(side: Side, s: seq<Order>, id: nat)
    requires Sorted(side, s)
    ensures Sorted(side, Without(s, id))
  {
    if s != [] {
      SortedTail(side, s);
      WithoutSorted(side, s[1..], id);
      if s[0].id != id {
        SortedCons(side, s[0], Without(s[1..], id));
      }
    }
  }

  lemma {:induction false} SweepKeepsTaker(market: string, taker: Order, makers: seq<Order>)
    ensures SameOrder(taker, Sweep(market, taker, makers).taker)
    decreases |makers|
  {
    if makers != [] && taker.remaining > 0 {
      var q := Min(taker.remaining, makers[0].remaining);
      SweepKeepsTaker(market, if Eligible(taker, makers[0]) then Reduce(taker, q) else taker, makers[1..]);
    }
  }

  // ----- the re-scanning loop refines the pass

  /** `iter().find(...)` over the makers: the first eligible position, or the length. */
  function FirstEligible(taker: Order, makers: seq<Order>): (i: nat)
    ensures i <= |makers|
    ensures i < |makers| ==> Eligible(taker, makers[i])
    ensures forall k :: 0 <= k < i ==> !Eligible(taker, makers[k])
  {
    if makers == [] || Eligible(taker, makers[0]) then 0
    else
      var j := FirstEligible(taker, makers[1..]);
      assert forall k :: 0 < k < 1 + j ==> makers[k] == makers[1..][k - 1];
      1 + j
  }

  function After(events: seq<MatchEvent>, r: Swept): Swept {
    r.(events := events + r.events)
  }

  lemma {:induction false} RescanStuck(market: string, taker: Order, makers: seq<Order>)
    requires var j := FirstEligible(taker, makers);
             j == |makers| || taker.remaining <= 0 || Min(taker.remaining, makers[j].remaining) == 0
    ensures Sweep(market, taker, makers) == Swept(taker, makers, [])
  {
    if makers != [] && taker.remaining > 0 && !Eligible(taker, makers[0]) {
      RescanStuck(market, taker, makers[1..]);
      assert makers == [makers[0]] + makers[1..];
    }
  }

  /** The makers after `q` units of the one at `j` are filled. */
  function AfterFill(makers: seq<Order>, j: nat, q: int): seq<Order>
    requires j < |makers|
  {
    if makers[j].remaining - q > 0 then makers[j := Reduce(makers[j], q)] else RemoveAt(makers, j)
  }

  lemma FillHead(market: string, taker: Order, makers: seq<Order>)
    requires taker.remaining > 0 && makers != [] && Eligible(taker, makers[0])
    requires Min(taker.remaining, makers[0].remaining) != 0
    ensures var q := Min(taker.remaining, makers[0].remaining);
            Sweep(market, taker, makers)
            == After([Fill(market, taker, makers[0], q)], Sweep(market, Reduce(taker, q), AfterFill(makers, 0, q)))
  {
    var m := makers[0];
    var q := Min(taker.remaining, m.remaining);
    if m.remaining - q > 0 {
      assert AfterFill(makers, 0, q) == [Reduce(m, q)] + makers[1..];
    } else {
      assert AfterFill(makers, 0, q) == makers[1..];
    }
  }

  lemma SkipHead(market: string, taker: Order, m: Order, makers: seq<Order>)
    requires !Eligible(taker, m)
    ensures var r := Sweep(market, taker, makers);
            Sweep(market, taker, [m] + makers) == r.(makers := [m] + r.makers)
  {
    assert ([m] + makers)[1..] == makers;
  }

  lemma AfterFillTail(h: Order, rest: seq<Order>, j: nat, q: int)
    requires j < |rest|
    ensures AfterFill([h] + rest, j + 1, q) == [h] + AfterFill(rest, j, q)
  {
    var all, m := [h] + rest, Reduce(rest[j], q);
    assert all[j + 1] == rest[j];
    if rest[j].remaining - q > 0 {
      assert all[j + 1 := m] == [h] + rest[j := m];
    } else {
      assert all[..j + 1] == [h] + rest[..j];
      assert all[j + 2..] == rest[j + 1..];
      assert ([h] + rest[..j]) + rest[j + 1..] == [h] + (rest[..j] + rest[j + 1..]);
    }
  }

  lemma EligibleAfter(taker: Order, q: int, m: Order)
    ensures Eligible(Reduce(taker, q), m) == Eligible(taker, m)
    ensures forall market, p :: Fill(market, Reduce(taker, q), m, p) == Fill(market, taker, m, p)
  {
  }

  /** Filling the first eligible maker where it stands and then sweeping again from
      the front is the same as going on from that maker. */
  lemma {:induction false} RescanStep(market: string, taker: Order, makers: seq<Order>)
    requires taker.remaining > 0
    requires var j := FirstEligible(taker, makers);
             j < |makers| && Min(taker.remaining, makers[j].remaining) != 0
    ensures var j := FirstEligible(taker, makers);
            var q := Min(taker.remaining, makers[j].remaining);
            Sweep(market, taker, makers)
            == After([Fill(market, taker, makers[j], q)], Sweep(market, Reduce(taker, q), AfterFill(makers, j, q)))
  {
    hide Sweep, Fill, Eligible, Min, AfterFill;
    var j := FirstEligible(taker, makers);
    if j == 0 {
      FillHead(market, taker, makers);
    } else {
      var h, rest := makers[0], makers[1..];
      var q := Min(taker.remaining, makers[j].remaining);
      RescanStep(market, taker, rest);
      assert makers == [h] + rest && makers[j] == rest[j - 1];
      AfterFillTail(h, rest, j - 1, q);
      SkipHead(market, taker, h, rest);
      EligibleAfter(taker, q, h);
      SkipHead(market, Reduce(taker, q), h, AfterFill(rest, j - 1, q));
    }
  }

  // ----- what a sweep does, in terms of the makers it may trade with

  function EligibleMakers(taker: Order, makers: seq<Order>): seq<Order> {
    if makers == [] then []
    else (if Eligible(taker, makers[0]) then [makers[0]] else []) + EligibleMakers(taker, makers[1..])
  }

  function Bystanders(taker: Order, makers: seq<Order>): seq<Order> {
    if makers == [] then []
    else (if Eligible(taker, makers[0]) then [] else [makers[0]]) + Bystanders(taker, makers[1..])
  }

  function TotalQuantity(events: seq<MatchEvent>): int {
    if events == [] then 0 else events[0].quantity + TotalQuantity(events[1..])
  }

  function TotalRemaining(makers: seq<Order>): int {
    if makers == [] then 0 else makers[0].remaining + TotalRemaining(makers[1..])
  }

  /** Taking `q` units from the front of a queue of orders. */
  function Consume(queue: seq<Order>, q: int): seq<Order> {
    if queue == [] || q <= 0 then queue
    else if queue[0].remaining <= q then Consume(queue[1..], q - queue[0].remaining)
    else [Reduce(queue[0], q)] + queue[1..]
  }

  ghost predicate AllPositive(s: seq<Order>) {
    forall x :: x in s ==> x.remaining > 0
  }

  /** The fills are with a prefix of the eligible makers, in priority order; every one
      but the last takes all of its maker; they stop only when the taker is done or no
      eligible maker is left. */
  ghost predicate FillsInPriority(market: string, taker: Order, queue: seq<Order>, events: seq<MatchEvent>) {
    && |events| <= |queue|
    && (forall i :: 0 <= i < |events| ==> events[i] == Fill(market, taker, queue[i], events[i].quantity))
    && (forall i :: 0 <= i < |events| ==> 0 < events[i].quantity <= queue[i].remaining)
    && (forall i :: 0 <= i < |events| - 1 ==> events[i].quantity == queue[i].remaining)
    && TotalQuantity(events) == Min(if taker.remaining > 0 then taker.remaining else 0, TotalRemaining(queue))
  }

  /** The fills follow priority, the rest of the eligible queue is what `Consume` leaves,
      and makers that do not cross or belong to the taker's user are untouched. */
  ghost predicate Greedy(market: string, taker: Order, makers: seq<Order>, r: Swept) {
    && FillsInPriority(market, taker, EligibleMakers(taker, makers), r.events)
    && EligibleMakers(taker, r.makers) == Consume(EligibleMakers(taker, makers), taker.remaining)
    && Bystanders(taker, r.makers) == Bystanders(taker, makers)
    && r.taker == Reduce(taker, TotalQuantity(r.events))
    && AllPositive(r.makers)
  }

  lemma {:induction false} EligibleIgnoresRemaining(taker: Order, q: int, makers: seq<Order>)
    ensures EligibleMakers(Reduce(taker, q), makers) == EligibleMakers(taker, makers)
    ensures Bystanders(Reduce(taker, q), makers) == Bystanders(taker, makers)
  {
    if makers != [] {
      EligibleIgnoresRemaining(taker, q, makers[1..]);
    }
  }

  lemma {:induction false} TotalRemainingPositive(s: seq<Order>)
    requires AllPositive(s)
    ensures TotalRemaining(s) >= 0
    ensures s != [] ==> TotalRemaining(s) > 0
  {
    if s != [] {
      assert s[0] in s;
      TotalRemainingPositive(s[1..]);
    }
  }

  lemma {:induction false} EligiblePositive(taker: Order, makers: seq<Order>)
    requires AllPositive(makers)
    ensures AllPositive(EligibleMakers(taker, makers))
  {
    if makers != [] {
      assert makers[0] in makers;
      EligiblePositive(taker, makers[1..]);
    }
  }

  /** Price-time priority of a whole sweep. */
  lemma {:induction false} GreedyPriority(market: string, taker: Order, makers: seq<Order>)
    requires AllPositive(makers)
    ensures Greedy(market, taker, makers, Sweep(market, taker, makers))
    decreases |makers|, 1
  {
    if makers == [] || taker.remaining <= 0 {
      EligiblePositive(taker, makers);
      TotalRemainingPositive(EligibleMakers(taker, makers));
    } else {
      hide *;
      var m, rest := makers[0], makers[1..];
      assert makers == [m] + rest;
      PositiveHead(m, rest);
      if !Eligible(taker, m) {
        GreedyPriority(market, taker, rest);
        GreedySkip(market, taker, m, rest);
      } else if m.remaining > taker.remaining {
        GreedyPartial(market, taker, m, rest);
      } else {
        GreedyFull(market, taker, m, rest);
      }
    }
  }

  lemma EligibleHead(taker: Order, m: Order, rest: seq<Order>)
    ensures EligibleMakers(taker, [m] + rest) == (if Eligible(taker, m) then [m] else []) + EligibleMakers(taker, rest)
    ensures Bystanders(taker, [m] + rest) == (if Eligible(taker, m) then [] else [m]) + Bystanders(taker, rest)
  {
    assert ([m] + rest)[1..] == rest;
  }

  lemma QueueHead(m: Order, queue: seq<Order>, n: int)
    requires m.remaining > 0 && n > 0
    ensures TotalRemaining([m] + queue) == m.remaining + TotalRemaining(queue)
    ensures Consume([m] + queue, n)
            == if m.remaining <= n then Consume(queue, n - m.remaining) else [Reduce(m, n)] + queue
  {
    assert ([m] + queue)[1..] == queue;
  }

  lemma QuantityHead(e: MatchEvent, es: seq<MatchEvent>)
    ensures TotalQuantity([e] + es) == e.quantity + TotalQuantity(es)
  {
    assert ([e] + es)[1..] == es;
  }

  lemma PositiveHead(m: Order, rest: seq<Order>)
    ensures AllPositive([m] + rest) <==> m.remaining > 0 && AllPositive(rest)
  {
    assert m in [m] + rest;
    assert forall x :: x in rest ==> x in [m] + rest;
  }

  lemma GreedySkip(market: string, taker: Order, m: Order, rest: seq<Order>)
    requires AllPositive([m] + rest) && !Eligible(taker, m)
    requires Greedy(market, taker, rest, Sweep(market, taker, rest))
    ensures Greedy(market, taker, [m] + rest, Sweep(market, taker, [m] + rest))
  {
    hide Sweep, Eligible, EligibleMakers, Bystanders, FillsInPriority, Consume, TotalQuantity, AllPositive;
    var r := Sweep(market, taker, rest);
    SkipHead(market, taker, m, rest);
    PositiveHead(m, rest);
    PositiveHead(m, r.makers);
    EligibleHead(taker, m, rest);
    EligibleHead(taker, m, r.makers);
    assert [] + EligibleMakers(taker, rest) == EligibleMakers(taker, rest);
    assert [] + EligibleMakers(taker, r.makers) == EligibleMakers(taker, r.makers);
  }

  lemma GreedyPartial(market: string, taker: Order, m: Order, rest: seq<Order>)
    requires AllPositive([m] + rest) && taker.remaining > 0
    requires Eligible(taker, m) && m.remaining > taker.remaining
    ensures Greedy(market, taker, [m] + rest, Sweep(market, taker, [m] + rest))
  {
    var q := taker.remaining;
    var e, m', queue := Fill(market, taker, m, q), Reduce(m, q), EligibleMakers(taker, rest);
    assert ([m] + rest)[1..] == rest;
    var r := Sweep(market, taker, [m] + rest);
    assert r == Swept(Reduce(taker, q), [m'] + rest, [e]);
    hide Sweep, Crosses, EligibleMakers, Bystanders, Consume, TotalQuantity, TotalRemaining, AllPositive;
    PositiveHead(m, rest);
    PositiveHead(m', rest);
    EligibleHead(taker, m, rest);
    assert Eligible(taker, m');
    EligibleHead(taker, m', rest);
    EligiblePositive(taker, rest);
    TotalRemainingPositive(queue);
    QueueHead(m, queue, q);
    QuantityHead(e, []);
    assert [e] + [] == [e];
    assert TotalQuantity([]) == 0;
  }

  lemma PriorityCons(market: string, taker: Order, m: Order, queue: seq<Order>, events: seq<MatchEvent>)
    requires 0 < m.remaining <= taker.remaining && AllPositive(queue)
    requires FillsInPriority(market, Reduce(taker, m.remaining), queue, events)
    ensures FillsInPriority(market, taker, [m] + queue, [Fill(market, taker, m, m.remaining)] + events)
  {
    var e := Fill(market, taker, m, m.remaining);
    var queue', events' := [m] + queue, [e] + events;
    TotalRemainingPositive(queue);
    QueueHead(m, queue, 1);
    QuantityHead(e, events);
    FillQuantity(market, taker, m, m.remaining);
    hide TotalQuantity, TotalRemaining, AllPositive, Fill;
    forall i | 0 <= i < |events'|
      ensures events'[i] == Fill(market, taker, queue'[i], events'[i].quantity)
      ensures 0 < events'[i].quantity <= queue'[i].remaining
      ensures i < |events'| - 1 ==> events'[i].quantity == queue'[i].remaining
    {
      if i > 0 {
        assert events'[i] == events[i - 1] && queue'[i] == queue[i - 1];
        EligibleAfter(taker, m.remaining, queue[i - 1]);
      }
    }
  }

  lemma {:induction false} GreedyFull(market: string, taker: Order, m: Order, rest: seq<Order>)
    requires AllPositive([m] + rest) && taker.remaining > 0
    requires Eligible(taker, m) && m.remaining <= taker.remaining
    ensures Greedy(market, taker, [m] + rest, Sweep(market, taker, [m] + rest))
    decreases |rest|, 2
  {
    var q, t' := m.remaining, Reduce(taker, m.remaining);
    var e, queue := Fill(market, taker, m, q), EligibleMakers(taker, rest);
    PositiveHead(m, rest);
    GreedyPriority(market, t', rest);
    var r := Sweep(market, t', rest);
    FillHead(market, taker, [m] + rest);
    assert AfterFill([m] + rest, 0, q) == rest;
    hide Sweep, Crosses, EligibleMakers, Bystanders, FillsInPriority, Consume, TotalQuantity, TotalRemaining, AllPositive, Fill;
    assert Sweep(market, taker, [m] + rest) == After([e], r);
    EligibleHead(taker, m, rest);
    EligibleIgnoresRemaining(taker, q, rest);
    EligibleIgnoresRemaining(taker, q, r.makers);
    EligiblePositive(taker, rest);
    PriorityCons(market, taker, m, queue, r.events);
    QueueHead(m, queue, taker.remaining);
    QuantityHead(e, r.events);
    assert e.quantity == q by {
      FillQuantity(market, taker, m, q);
    }
    assert [] + Bystanders(taker, rest) == Bystanders(taker, rest);
  }

  lemma FillQuantity(market: string, taker: Order, m: Order, q: int)
    ensures Fill(market, taker, m, q).quantity == q
  {
  }

  /** Every unit the taker gives up is a unit of an event and a unit some maker gives
      up, whatever the orders hold. */
  lemma {:induction false} SweepConserves(market: string, taker: Order, makers: seq<Order>)
    ensures var r := Sweep(market, taker, makers);
            && taker.remaining - r.taker.remaining == TotalQuantity(r.events)
            && TotalRemaining(makers) - TotalRemaining(r.makers) == TotalQuantity(r.events)
    decreases |makers|
  {
    if makers != [] && taker.remaining > 0 {
      var m, rest := makers[0], makers[1..];
      var q := Min(taker.remaining, m.remaining);
      var r := Sweep(market, taker, makers);
      if !Eligible(taker, m) {
        SweepConserves(market, taker, rest);
        assert r.makers[0] == m && r.makers[1..] == Sweep(market, taker, rest).makers;
      } else if q != 0 {
        if m.remaining - q > 0 {
          assert r.makers[1..] == rest && r.events[1..] == [];
        } else {
          SweepConserves(market, Reduce(taker, q), rest);
          assert r.events[1..] == Sweep(market, Reduce(taker, q), rest).events;
        }
      }
    }
  }

  // ----- prices

  /** Price `p` is at least as good for a taker on `side` as price `q`. */
  predicate NoWorse(side: Side, p: int, q: int) {
    match side
    case Buy => p <= q
    case Sell => p >= q
  }

  /** Later events are at no better a price for the taker than earlier ones. */
  ghost predicate PricesWorsen(side: Side, es: seq<MatchEvent>) {
    forall i, j :: 0 <= i < j < |es| ==> NoWorse(side, es[i].price, es[j].price)
  }

  lemma PricesWorsenCons(side: Side, e: MatchEvent, es: seq<MatchEvent>)
    requires PricesWorsen(side, es)
    requires forall x :: x in es ==> NoWorse(side, e.price, x.price)
    ensures PricesWorsen(side, [e] + es)
  {
    var all := [e] + es;
    forall i, j | 0 <= i < j < |all|
      ensures NoWorse(side, all[i].price, all[j].price)
    {
      assert all[j] == es[j - 1];
      if i > 0 {
        assert all[i] == es[i - 1];
      }
    }
  }

  /** Every event of a sweep is a fill of the taker with an eligible maker, so no event
      has one user on both sides. */
  lemma {:induction false} EventsComeFromMakers(market: string, taker: Order, makers: seq<Order>)
    ensures forall e :: e in Sweep(market, taker, makers).events ==>
              && (exists m :: m in makers && Eligible(taker, m) && e == Fill(market, taker, m, e.quantity))
              && e.bidUser != e.askUser
    decreases |makers|
  {
    if makers != [] && taker.remaining > 0 {
      var m, rest := makers[0], makers[1..];
      var q := Min(taker.remaining, m.remaining);
      var t' := if Eligible(taker, m) then Reduce(taker, q) else taker;
      EventsComeFromMakers(market, t', rest);
      forall e | e in Sweep(market, taker, makers).events
        ensures exists x :: x in makers && Eligible(taker, x) && e == Fill(market, taker, x, e.quantity)
      {
        if e in Sweep(market, t', rest).events {
          var x :| x in rest && Eligible(t', x) && e == Fill(market, t', x, e.quantity);
          assert x in makers && Eligible(taker, x) && e == Fill(market, taker, x, e.quantity);
        } else {
          assert m in makers && Eligible(taker, m) && e == Fill(market, taker, m, e.quantity);
        }
      }
    }
  }

  lemma ExecPriceMonotone(taker: Order, m: Order, x: Order)
    requires Before(Opposite(taker.side), KeyOf(m), KeyOf(x))
    requires Eligible(taker, m) && Eligible(taker, x)
    requires taker.price.Some? || (m.price.Some? && x.price.Some?)
    ensures NoWorse(taker.side, ExecPrice(taker, m), ExecPrice(taker, x))
  {
  }

  /** A limit taker never trades through its limit. */
  lemma SweepWithinLimit(market: string, taker: Order, makers: seq<Order>)
    requires taker.price.Some?
    ensures forall e :: e in Sweep(market, taker, makers).events ==>
              NoWorse(taker.side, e.price, taker.price.value)
  {
    EventsComeFromMakers(market, taker, makers);
  }

  /** Execution prices only get worse for the taker as the sweep goes on.  This needs no
      limit when every maker is priced. */
  lemma {:induction false} SweepPricesMonotone(market: string, taker: Order, makers: seq<Order>)
    requires Sorted(Opposite(taker.side), makers)
    requires taker.price.Some? || forall m :: m in makers ==> m.price.Some?
    ensures PricesWorsen(taker.side, Sweep(market, taker, makers).events)
    decreases |makers|
  {
    if makers != [] && taker.remaining > 0 {
      var m, rest := makers[0], makers[1..];
      var q := Min(taker.remaining, m.remaining);
      SortedTail(Opposite(taker.side), makers);
      assert m in makers && forall x :: x in rest ==> x in makers;
      if !Eligible(taker, m) {
        SweepPricesMonotone(market, taker, rest);
      } else if q != 0 && m.remaining - q <= 0 {
        var t' := Reduce(taker, q);
        SweepPricesMonotone(market, t', rest);
        var later := Sweep(market, t', rest).events;
        forall e | e in later
          ensures NoWorse(taker.side, ExecPrice(taker, m), e.price)
        {
          EventsComeFromMakers(market, t', rest);
          var x :| x in rest && Eligible(t', x) && e == Fill(market, t', x, e.quantity);
          ExecPriceMonotone(taker, m, x);
        }
        PricesWorsenCons(taker.side, Fill(market, taker, m, q), later);
      }
    }
  }
}
