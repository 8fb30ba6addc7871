/** When the execution prices of a taker without a limit get better during its sweep. */
module SweepPrices {
  import opened Types
  import opened PriceTime
  import opened Matching

  lemma EligibleAre(taker: Order, makers: seq<Order>, x: Order)
    ensures x in EligibleMakers(taker, makers) <==> x in makers && Eligible(taker, x)
  {
    if makers != [] {
      EligibleAre(taker, makers[1..], x);
      assert makers == [makers[0]] + makers[1..];
    }
  }

  lemma {:induction false} EligibleSorted(taker: Order, side: Side, makers: seq<Order>)
    requires Sorted(side, makers)
    ensures Sorted(side, EligibleMakers(taker, makers))
  {
    if makers != [] {
      SortedTail(side, makers);
      EligibleSorted(taker, side, makers[1..]);
      forall x | x in EligibleMakers(taker, makers[1..]) ensures Before(side, KeyOf(makers[0]), KeyOf(x)) {
        EligibleAre(taker, makers[1..], x);
      }
      hide Sorted, Before, KeyOf, Eligible;
      SortedCons(side, makers[0], EligibleMakers(taker, makers[1..]));
      assert [] + EligibleMakers(taker, makers[1..]) == EligibleMakers(taker, makers[1..]);
    }
  }

  /** How many makers at the front of a queue have a price. */
  function Priced(queue: seq<Order>): (k: nat)
    ensures k <= |queue|
    ensures forall i :: 0 <= i < k ==> queue[i].price.Some?
    ensures k < |queue| ==> queue[k].price == None
  {
    if queue == [] || queue[0].price == None then 0
    else
      assert queue == [queue[0]] + queue[1..];
      1 + Priced(queue[1..])
  }

  /** Unpriced makers come last. */
  lemma UnpricedLast(side: Side, queue: seq<Order>, i: nat)
    requires Sorted(side, queue) && Priced(queue) <= i < |queue|
    ensures queue[i].price == None
  {
    var k := Priced(queue);
    assert k < i ==> Before(side, KeyOf(queue[k]), KeyOf(queue[i]));
  }

  lemma {:induction false} TakeRemaining(queue: seq<Order>, k: nat)
    requires k <= |queue| && AllPositive(queue)
    ensures TotalRemaining(queue[..k]) <= TotalRemaining(queue)
    ensures k < |queue| ==> TotalRemaining(queue[..k]) < TotalRemaining(queue)
  {
    if k == 0 {
      TotalRemainingPositive(queue);
    } else {
      assert queue[0] in queue && queue[..k][1..] == queue[1..][..k - 1];
      TakeRemaining(queue[1..], k - 1);
    }
  }

  lemma {:induction false} TakeTwice(queue: seq<Order>, j: nat, k: nat)
    requires j <= k <= |queue| && AllPositive(queue)
    ensures TotalRemaining(queue[..j]) <= TotalRemaining(queue[..k])
  {
    assert queue[..k][..j] == queue[..j];
    TakeRemaining(queue[..k], j);
  }

  /** What fills take is no more than what their makers had, and at least what the makers
      filled completely had. */
  lemma {:induction false} FillsAgainstQueue(events: seq<MatchEvent>, queue: seq<Order>, k: nat)
    requires |events| <= |queue| && k <= |events|
    requires forall i :: 0 <= i < |events| ==> 0 < events[i].quantity <= queue[i].remaining
    requires forall i :: 0 <= i < k ==> events[i].quantity == queue[i].remaining
    ensures TotalQuantity(events) <= TotalRemaining(queue[..|events|])
    ensures TotalQuantity(events) >= TotalRemaining(queue[..k])
    ensures k < |events| ==> TotalQuantity(events) > TotalRemaining(queue[..k])
  {
    if events != [] {
      assert queue[..|events|][1..] == queue[1..][..|events| - 1];
      if k > 0 {
        assert queue[..k][1..] == queue[1..][..k - 1];
        FillsAgainstQueue(events[1..], queue[1..], k - 1);
      } else {
        FillsAgainstQueue(events[1..], queue[1..], 0);
      }
    }
  }

  /** A sweep gets past the first `k` makers exactly when they cannot fill the taker. */
  lemma ReachesPast(market: string, taker: Order, queue: seq<Order>, events: seq<MatchEvent>, k: nat)
    requires FillsInPriority(market, taker, queue, events) && AllPositive(queue) && k < |queue|
    ensures |events| > k <==> TotalRemaining(queue[..k]) < taker.remaining
  {
    TakeRemaining(queue, k);
    if |events| > k {
      FillsAgainstQueue(events, queue, k);
      TakeRemaining(queue[..k], 0);
    } else {
      FillsAgainstQueue(events, queue, 0);
      TakeTwice(queue, |events|, k);
      TakeRemaining(queue[..k], 0);
      assert queue[..k][..0] == [];
    }
  }

  /** Priced makers that cannot fill the taker, the last of them at a price worse than zero,
      and an unpriced maker behind them. */
  ghost predicate Improves(taker: Order, queue: seq<Order>) {
    var k := Priced(queue);
    && 0 < k < |queue|
    && TotalRemaining(queue[..k]) < taker.remaining
    && !NoWorse(taker.side, queue[k - 1].price.value, 0)
  }

  /** The prices a taker without a limit gets: the makers' own, then zero. */
  lemma MarketPrices(market: string, taker: Order, queue: seq<Order>, events: seq<MatchEvent>)
    requires taker.price == None && Sorted(Opposite(taker.side), queue) && FillsInPriority(market, taker, queue, events)
    ensures forall i :: 0 <= i < |events| ==>
              events[i].price == if i < Priced(queue) then queue[i].price.value else 0
    ensures forall i, j :: 0 <= i < j < Priced(queue) ==> NoWorse(taker.side, queue[i].price.value, queue[j].price.value)
  {
    var k := Priced(queue);
    forall i | 0 <= i < |events| ensures events[i].price == if i < k then queue[i].price.value else 0 {
      assert events[i] == Fill(market, taker, queue[i], events[i].quantity);
      if i >= k {
        UnpricedLast(Opposite(taker.side), queue, i);
      }
    }
    forall i, j | 0 <= i < j < k ensures NoWorse(taker.side, queue[i].price.value, queue[j].price.value) {
      assert Before(Opposite(taker.side), KeyOf(queue[i]), KeyOf(queue[j]));
    }
  }

  /** Prices that are the makers' and then zero worsen throughout unless the step to zero is
      there and is for the better. */
  lemma StepToZero(side: Side, queue: seq<Order>, events: seq<MatchEvent>, k: nat)
    requires k == Priced(queue)
    requires forall i :: 0 <= i < |events| ==> i < |queue| && events[i].price == if i < k then queue[i].price.value else 0
    requires forall i, j :: 0 <= i < j < k ==> NoWorse(side, queue[i].price.value, queue[j].price.value)
    ensures PricesWorsen(side, events) <==> !(0 < k < |events| && !NoWorse(side, queue[k - 1].price.value, 0))
  {
    if 0 < k < |events| && !NoWorse(side, queue[k - 1].price.value, 0) {
      assert !NoWorse(side, events[k - 1].price, events[k].price);
    }
  }

  /** A taker without a limit gets a better price later in its sweep if and only if the priced
      makers it may trade with cannot fill it, an unpriced one stands behind them, and the
      last priced one asks more than zero, or bids less than zero. */
  lemma MarketTakerImproves(market: string, taker: Order, makers: seq<Order>)
    requires taker.price == None && Sorted(Opposite(taker.side), makers) && AllPositive(makers)
    ensures PricesWorsen(taker.side, Sweep(market, taker, makers).events) <==> !Improves(taker, EligibleMakers(taker, makers))
  {
    var queue, events := EligibleMakers(taker, makers), Sweep(market, taker, makers).events;
    GreedyPriority(market, taker, makers);
    assert FillsInPriority(market, taker, queue, events) && |events| <= |queue|;
    hide Sweep, EligibleMakers, Sorted, AllPositive, TotalRemaining, FillsInPriority, Greedy, PricesWorsen, NoWorse;
    EligibleSorted(taker, Opposite(taker.side), makers);
    EligiblePositive(taker, makers);
    MarketPrices(market, taker, queue, events);
    var k := Priced(queue);
    if k < |queue| {
      ReachesPast(market, taker, queue, events, k);
    }
    StepToZero(taker.side, queue, events, k);
  }

  /** One that does: the second of two fills is at zero. */
  lemma MarketTakerMayImprove()
    ensures var taker := Order(9, 2, "M", Buy, Market, None, 2, 2, 5);
            var makers := [Order(1, 1, "M", Sell, Limit, Some(7), 1, 1, 1), Order(2, 1, "M", Sell, Market, None, 1, 1, 2)];
            Sorted(Sell, makers) && !PricesWorsen(Buy, Sweep("M", taker, makers).events)
  {
    var taker := Order(9, 2, "M", Buy, Market, None, 2, 2, 5);
    var a, b := Order(1, 1, "M", Sell, Limit, Some(7), 1, 1, 1), Order(2, 1, "M", Sell, Market, None, 1, 1, 2);
    MarketTakerImproves("M", taker, [a, b]);
    assert EligibleMakers(taker, [b]) == [b] && EligibleMakers(taker, [a, b]) == [a, b];
    assert Priced([b]) == 0 && Priced([a, b]) == 1;
    assert [a, b][..1] == [a] && TotalRemaining([a]) == 1;
  }

  // ----- whether an order trades at all

  /** Neither price keeps the two apart: one of them has none, or the buyer's is high enough. */
  ghost predicate PricesMeet(taker: Order, maker: Order) {
    || taker.price.None? || maker.price.None?
    || (if taker.side == Buy then taker.price.value >= maker.price.value else maker.price.value >= taker.price.value)
  }

  /** The order has something left and there is another user's maker whose price meets it. */
  ghost predicate CanTrade(taker: Order, makers: seq<Order>) {
    taker.remaining > 0 && exists m :: m in makers && m.user != taker.user && PricesMeet(taker, m)
  }

  lemma EligibleMeans(taker: Order, maker: Order)
    ensures Eligible(taker, maker) <==> maker.user != taker.user && PricesMeet(taker, maker)
  {
  }

  lemma SweepTradesIff(market: string, taker: Order, makers: seq<Order>)
    requires AllPositive(makers)
    ensures Sweep(market, taker, makers).events != [] <==> CanTrade(taker, makers)
  {
    var queue := EligibleMakers(taker, makers);
    GreedyPriority(market, taker, makers);
    EligiblePositive(taker, makers);
    TotalRemainingPositive(queue);
    forall m ensures m in queue <==> m in makers && m.user != taker.user && PricesMeet(taker, m) {
      EligibleAre(taker, makers, m);
      EligibleMeans(taker, m);
    }
    hide Sweep, EligibleMakers, Consume, Bystanders, Eligible, PricesMeet;
    assert queue != [] ==> queue[0] in queue;
    assert Sweep(market, taker, makers).events == [] ==> TotalQuantity(Sweep(market, taker, makers).events) == 0;
  }
}
