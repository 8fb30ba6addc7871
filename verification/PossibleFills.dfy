/** Which lists of fills a single placement can give. */
module PossibleFills {
  import opened Types
  import opened Matching
  import opened Replay
  import opened BookRuns
  import opened EngineFacts

  ghost predicate FillsFrom(market: string, b: Book, o: Order, fills: seq<MatchEvent>) {
    && WellFormed(b, market) && AllPositive(b.bids) && AllPositive(b.asks)
    && Fresh(b, o.id) && o.market == market && Place(b, o).1 == fills
  }

  /** Some order placed in some book of the market trades exactly like this. */
  ghost predicate Possible(market: string, fills: seq<MatchEvent>) {
    exists b, o :: FillsFrom(market, b, o, fills)
  }

  lemma PossibleMarket(market: string, fills: seq<MatchEvent>)
    requires Possible(market, fills)
    ensures forall e :: e in fills ==> e.market == market
  {
    var b, o :| FillsFrom(market, b, o, fills);
    PlaceEvents(b, o);
  }

  // ----- fills of any number and any positive size

  /** Asks at one price, one after the other, and a buy that takes `n` of them. */
  function Ask(market: string, q: nat, i: nat): Order {
    Order(i + 1, 2, market, Sell, Limit, Some(1), q, q, i)
  }

  function Asks(market: string, q: nat, n: nat): (s: seq<Order>)
    ensures |s| == n && forall i :: 0 <= i < n ==> s[i] == Ask(market, q, i)
  {
    seq(n, i requires 0 <= i < n => Ask(market, q, i))
  }

  function Buyer(market: string, q: nat, n: nat): Order {
    Order(0, 1, market, Buy, Limit, Some(1), n * q, n * q, 0)
  }

  function FillEach(market: string, taker: Order, makers: seq<Order>, q: int): (es: seq<MatchEvent>)
    ensures |es| == |makers| && forall i :: 0 <= i < |makers| ==> es[i] == Fill(market, taker, makers[i], q)
  {
    seq(|makers|, i requires 0 <= i < |makers| => Fill(market, taker, makers[i], q))
  }

  function Series(market: string, q: nat, n: nat): seq<MatchEvent> {
    FillEach(market, Buyer(market, q, n), Asks(market, q, n), q)
  }

  lemma SweepFirst(market: string, taker: Order, m: Order, rest: seq<Order>, q: int)
    requires q > 0 && taker.remaining >= q && Eligible(taker, m) && m.remaining == q
    ensures Sweep(market, taker, [m] + rest).events == [Fill(market, taker, m, q)] + Sweep(market, Reduce(taker, q), rest).events
  {
    hide Fill, Eligible;
    assert ([m] + rest)[1..] == rest;
  }

  lemma FillEachFirst(market: string, taker: Order, m: Order, rest: seq<Order>, q: int)
    ensures FillEach(market, taker, [m] + rest, q) == [Fill(market, taker, m, q)] + FillEach(market, Reduce(taker, q), rest, q)
  {
    forall i | 0 <= i < |rest| ensures Fill(market, Reduce(taker, q), rest[i], q) == Fill(market, taker, rest[i], q) {
      EligibleAfter(taker, q, rest[i]);
    }
  }

  /** A taker of just the right size fills every maker completely. */
  lemma {:induction false} SweepEach(market: string, taker: Order, makers: seq<Order>, q: int)
    requires q > 0 && taker.remaining == |makers| * q
    requires forall m :: m in makers ==> Eligible(taker, m) && m.remaining == q
    ensures Sweep(market, taker, makers).events == FillEach(market, taker, makers, q)
    decreases |makers|
  {
    if makers != [] {
      var m, rest := makers[0], makers[1..];
      assert makers == [m] + rest && m in makers;
      assert |makers| * q == q + |rest| * q;
      hide Sweep, FillEach, Eligible;
      NonNegativeProduct(|rest|, q);
      forall x | x in rest ensures Eligible(Reduce(taker, q), x) && x.remaining == q {
        EligibleAfter(taker, q, x);
        assert x in makers;
      }
      SweepFirst(market, taker, m, rest, q);
      FillEachFirst(market, taker, m, rest, q);
      SweepEach(market, Reduce(taker, q), rest, q);
    }
  }

  lemma NonNegativeProduct(n: nat, q: int)
    requires q > 0
    ensures n * q >= 0
  {
  }

  lemma AsksWellFormed(market: string, q: nat, n: nat)
    requires q > 0
    ensures WellFormedSide(Sell, market, Asks(market, q, n)) && AllPositive(Asks(market, q, n))
  {
    var s := Asks(market, q, n);
    forall x, y | x in s && y in s && x.id == y.id ensures x == y {
      var i :| 0 <= i < |s| && s[i] == x;
      var j :| 0 <= j < |s| && s[j] == y;
    }
  }

  lemma AsksEligible(market: string, q: nat, n: nat, m: Order)
    requires m in Asks(market, q, n)
    ensures Eligible(Buyer(market, q, n), m) && m.remaining == q && m.id != 0
  {
    var i :| 0 <= i < n && Asks(market, q, n)[i] == m;
  }

  lemma SeriesBook(market: string, q: nat, n: nat)
    requires q > 0
    ensures var b := Book([], Asks(market, q, n));
            WellFormed(b, market) && AllPositive(b.bids) && AllPositive(b.asks) && Fresh(b, 0)
  {
    AsksWellFormed(market, q, n);
    NothingIsWellFormed(market);
    forall m | m in Asks(market, q, n) ensures m.id != 0 {
      AsksEligible(market, q, n, m);
    }
    hide WellFormedSide, AllPositive, Asks;
  }

  /** So a placement can have any number of fills, of any positive size. */
  lemma SeriesIsPossible(market: string, q: nat, n: nat)
    requires q > 0
    ensures Possible(market, Series(market, q, n)) && |Series(market, q, n)| == n
    ensures forall e :: e in Series(market, q, n) ==> e.quantity == q
  {
    var b, o := Book([], Asks(market, q, n)), Buyer(market, q, n);
    SeriesBook(market, q, n);
    hide WellFormed, AllPositive, Asks, Sweep, Fresh, Eligible, Place;
    forall m | m in b.asks ensures Eligible(o, m) && m.remaining == q {
      AsksEligible(market, q, n, m);
    }
    SweepEach(market, o, b.asks, q);
    PlaceIsSweep(b, market, o);
    assert FillsFrom(market, b, o, Series(market, q, n));
  }

  lemma NothingIsWellFormed(market: string)
    ensures WellFormedSide(Buy, market, []) && AllPositive([])
  {
  }
}
