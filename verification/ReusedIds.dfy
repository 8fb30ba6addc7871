/** Placing an order under an id that is already in the book: exactly when that leaves a
    crossed book. */
module ReusedIds {
  import opened Types
  import opened PriceTime
  import opened Matching
  import opened Replay
  import opened BookRuns

  /** `x` is found before `o` when the book, with `o` inserted, is searched for `o.id`. */
  ghost predicate Ahead(b: Book, o: Order, x: Order) {
    && x.id == o.id
    && ((x in b.bids && (o.side == Sell || BidBefore(KeyOf(x), KeyOf(o))))
        || (x in b.asks && o.side == Sell && AskBefore(KeyOf(x), KeyOf(o))))
  }

  /** Whoever is matched in place of `o`: it uses `o` up, or `o` could trade with nobody else. */
  ghost predicate Harmless(b: Book, o: Order) {
    forall x :: Ahead(b, o, x) ==>
      || (x.side != o.side && Eligible(o, x) && o.remaining <= x.remaining)
      || forall y :: y in Level(b, Opposite(o.side)) && Eligible(o, y) ==> y == x
  }

  lemma NoneFound(s: seq<Order>, id: nat)
    requires forall x :: x in s ==> x.id != id
    ensures IndexOf(s, id) == |s|
  {
  }

  // ----- nobody is ahead

  /** The order itself is taken out, of a book with at most fewer orders. */
  lemma TakesItself(b: Book, market: string, o: Order) returns (b': Book)
    requires WellFormed(b, market) && forall x :: !Ahead(b, o, x)
    ensures RemoveById(InsertOrder(b, o), o.id) == Some((o, b'))
    ensures Level(b', Opposite(o.side)) == Level(b, Opposite(o.side))
    ensures forall z :: z in Level(b', o.side) ==> z in Level(b, o.side)
  {
    var s := Level(b, o.side);
    var r := Put(o.side, s, o);
    PutSorted(o.side, s, o);
    forall x | x in r && x.id == o.id && x != o ensures Before(o.side, KeyOf(o), KeyOf(x)) {
      BeforeIsTotalOrder(o.side, KeyOf(x), KeyOf(o), KeyOf(o));
      assert !Ahead(b, o, x);
    }
    FirstHit(o.side, r, o);
    var k := IndexOf(r, o.id);
    RemoveAtSorted(o.side, r, k);
    if o.side == Sell {
      forall x | x in b.bids ensures x.id != o.id {
        assert !Ahead(b, o, x);
      }
      NoneFound(b.bids, o.id);
    }
    b' := WithLevel(InsertOrder(b, o), o.side, RemoveAt(r, k));
    hide Put, RemoveAt, Sorted, Before, KeyOf;
  }

  lemma UncrossedFewer(b: Book, b': Book)
    requires Uncrossed(b) && (forall z :: z in b'.bids ==> z in b.bids) && forall z :: z in b'.asks ==> z in b.asks
    ensures Uncrossed(b')
  {
  }

  lemma AloneIsHarmless(b: Book, market: string, o: Order)
    requires Inv(b, market) && o.market == market && forall x :: !Ahead(b, o, x)
    ensures Uncrossed(Place(b, o).0)
  {
    var b' := TakesItself(b, market, o);
    UncrossedFewer(b, b');
    hide Ahead, InsertOrder, RemoveById;
    SettleUncrossed(b', market, o);
  }

  // ----- an older order is matched instead

  /** In an uncrossed book a resting order finds nobody to trade with. */
  lemma NobodyForResting(market: string, x: Order, makers: seq<Order>)
    requires forall y :: y in makers ==> !Eligible(x, y)
    ensures Sweep(market, x, makers) == Swept(x, makers, [])
  {
    hide Eligible;
    RescanStuck(market, x, makers);
  }

  lemma RestingIneligible(b: Book, market: string, x: Order, y: Order)
    requires Inv(b, market) && x in Level(b, x.side) && y in Level(b, Opposite(x.side))
    ensures !Eligible(x, y)
  {
  }

  lemma OlderFound(b: Book, market: string, o: Order, x: Order)
    requires WellFormed(b, market) && Ahead(b, o, x) && x.side == o.side
    ensures var r := Put(o.side, Level(b, o.side), o);
            var k := IndexOf(r, o.id);
            && x in Level(b, o.side) && k < |r| && r[k] == x && Put(o.side, RemoveAt(r, k), x) == r
            && RemoveById(InsertOrder(b, o), o.id) == Some((x, WithLevel(b, o.side, RemoveAt(r, k))))
  {
    var s := Level(b, o.side);
    var r := Put(o.side, s, o);
    assert x in s && UniqueIds(s);
    BeforeIsTotalOrder(o.side, KeyOf(x), KeyOf(o), KeyOf(o));
    PutSorted(o.side, s, o);
    FirstHit(o.side, r, x);
    var k := IndexOf(r, o.id);
    if o.side == Sell {
      NoneFound(b.bids, o.id);
    }
    PutBack(o.side, r, k, x);
    assert r[k := x] == r;
    hide Put, RemoveAt, Sorted, Before, KeyOf;
  }

  /** An older order on the same side: it is put back and the new one stays where it is. */
  lemma OlderSameSide(b: Book, market: string, o: Order, x: Order)
    requires Inv(b, market) && o.market == market && Ahead(b, o, x) && x.side == o.side
    ensures Place(b, o).0 == InsertOrder(b, o)
  {
    OlderFound(b, market, o, x);
    assert x.remaining > 0;
    hide Put, RemoveAt, Ahead, WellFormed;
    var other := Level(b, Opposite(o.side));
    forall y | y in other ensures !Eligible(x, y) {
      RestingIneligible(b, market, x, y);
    }
    hide Inv, Eligible, RemoveById;
    NobodyForResting(o.market, x, other);
  }

  /** A bid found in place of a new ask it does not trade with: likewise. */
  lemma OlderBidKept(b: Book, market: string, o: Order, x: Order)
    requires Inv(b, market) && o.market == market && o.side == Sell && x in b.bids && x.id == o.id && !Eligible(x, o)
    ensures Place(b, o).0 == InsertOrder(b, o)
  {
    var asks := Put(Sell, b.asks, o);
    BidFound(b, market, o, x);
    var i := IndexOf(b.bids, o.id);
    forall y | y in asks ensures !Eligible(x, y) {
      if y != o {
        RestingIneligible(b, market, x, y);
      }
    }
    assert x.remaining > 0;
    PutBack(Buy, b.bids, i, x);
    assert b.bids[i := x] == b.bids;
    hide Put, RemoveAt, Sorted, Before, KeyOf, Eligible, Inv;
    NobodyForResting(o.market, x, asks);
  }

  lemma BidFound(b: Book, market: string, o: Order, x: Order)
    requires WellFormed(b, market) && o.side == Sell && x in b.bids && x.id == o.id
    ensures var i := IndexOf(b.bids, o.id);
            && i < |b.bids| && b.bids[i] == x
            && RemoveById(InsertOrder(b, o), o.id) == Some((x, Book(RemoveAt(b.bids, i), Put(Sell, b.asks, o))))
  {
    var j :| 0 <= j < |b.bids| && b.bids[j] == x;
    IndexOfUnique(Buy, b.bids, j);
  }

  lemma NobodyElse(x: Order, o: Order, asks: seq<Order>, j: nat, y: Order)
    requires j < |asks| && asks[j] == o && y in asks[..j] + asks[j + 1..]
    requires forall y :: y in asks && y != o ==> !Eligible(x, y)
    requires forall i, k :: 0 <= i < k < |asks| ==> asks[i] != asks[k]
    ensures !Eligible(x, y)
  {
    hide Eligible;
    var rest := asks[..j] + asks[j + 1..];
    var k :| 0 <= k < |rest| && rest[k] == y;
    assert y == asks[if k < j then k else k + 1];
  }

  /** The sweep of a bid that can trade with the new ask only. */
  lemma TradesWithNew(market: string, x: Order, o: Order, asks: seq<Order>) returns (j: nat)
    requires x.remaining > 0 && o.remaining > 0 && Eligible(x, o) && o in asks
    requires forall y :: y in asks && y != o ==> !Eligible(x, y)
    requires forall i, k :: 0 <= i < k < |asks| ==> asks[i] != asks[k]
    ensures j < |asks| && asks[j] == o
    ensures var q := Min(x.remaining, o.remaining);
            Sweep(market, x, asks).taker == Reduce(x, q) && Sweep(market, x, asks).makers == AfterFill(asks, j, q)
  {
    hide Eligible, Sweep, Fill;
    j := FirstEligible(x, asks);
    var h :| 0 <= h < |asks| && asks[h] == o;
    assert j <= h;
    assert asks[j] in asks;
    var q := Min(x.remaining, o.remaining);
    RescanStep(market, x, asks);
    var rest, t := AfterFill(asks, j, q), Reduce(x, q);
    if t.remaining > 0 {
      assert rest == asks[..j] + asks[j + 1..];
      forall y | y in rest ensures !Eligible(t, y) {
        EligibleAfter(x, q, y);
        NobodyElse(x, o, asks, j, y);
      }
      NobodyForResting(market, t, rest);
    } else {
      RescanStuck(market, t, rest);
    }
  }

  lemma SortedDistinct(side: Side, s: seq<Order>)
    requires Sorted(side, s)
    ensures forall i, k :: 0 <= i < k < |s| ==> s[i] != s[k]
  {
    forall i, k | 0 <= i < k < |s| ensures s[i] != s[k] {
      BeforeIsTotalOrder(side, KeyOf(s[i]), KeyOf(s[k]), KeyOf(s[i]));
    }
  }

  lemma AfterFillHas(asks: seq<Order>, j: nat, q: int, y: Order)
    requires j < |asks| && y in AfterFill(asks, j, q) && forall i, k :: 0 <= i < k < |asks| ==> asks[i] != asks[k]
    ensures (y in asks && y != asks[j]) || (asks[j].remaining - q > 0 && y == Reduce(asks[j], q))
  {
    var rest := AfterFill(asks, j, q);
    var k :| 0 <= k < |rest| && rest[k] == y;
    if asks[j].remaining - q <= 0 {
      assert y == asks[if k < j then k else k + 1];
    }
  }

  lemma AfterFillKeeps(asks: seq<Order>, j: nat, q: int)
    requires j < |asks| && asks[j].remaining - q > 0
    ensures Reduce(asks[j], q) in AfterFill(asks, j, q)
  {
    assert AfterFill(asks, j, q)[j] == Reduce(asks[j], q);
  }

  /** What a bid that trades with the new ask leaves: `rest` of the asks, and itself or not. */
  lemma OlderBidTrades(b: Book, market: string, o: Order, x: Order) returns (rest: seq<Order>)
    requires Inv(b, market) && o.market == market && o.side == Sell && o.remaining > 0
    requires x in b.bids && x.id == o.id && Eligible(x, o)
    ensures var i, q := IndexOf(b.bids, o.id), Min(x.remaining, o.remaining);
            && i < |b.bids| && b.bids[i] == x
            && Place(b, o).0 == Book(if x.remaining > q then b.bids[i := Reduce(x, q)] else RemoveAt(b.bids, i), rest)
    ensures forall y :: y in rest ==> (y in b.asks && y != o) || (o.remaining > x.remaining && y == Reduce(o, x.remaining))
    ensures o.remaining > x.remaining ==> Reduce(o, x.remaining) in rest
  {
    var asks := Put(Sell, b.asks, o);
    BidFound(b, market, o, x);
    PutSorted(Sell, b.asks, o);
    SortedDistinct(Sell, asks);
    var i, q := IndexOf(b.bids, o.id), Min(x.remaining, o.remaining);
    forall y | y in asks && y != o ensures !Eligible(x, y) {
      RestingIneligible(b, market, x, y);
    }
    assert x.remaining > 0;
    PutBack(Buy, b.bids, i, Reduce(x, q));
    hide Put, RemoveAt, Sorted, Before, KeyOf, Eligible, Inv;
    var j := TradesWithNew(o.market, x, o, asks);
    rest := AfterFill(asks, j, q);
    forall y | y in rest ensures (y in b.asks && y != o) || (o.remaining > x.remaining && y == Reduce(o, x.remaining)) {
      AfterFillHas(asks, j, q, y);
    }
    if o.remaining > x.remaining {
      AfterFillKeeps(asks, j, q);
    }
    hide AfterFill, Sweep;
  }

  // ----- and the books they leave

  lemma EligibleEitherWay(x: Order, y: Order)
    requires x.side == Opposite(y.side)
    ensures Eligible(x, y) <==> Eligible(y, x)
  {
  }

  /** The book with the new order simply added to it. */
  lemma AddedUncrossed(b: Book, market: string, o: Order)
    requires Inv(b, market)
    ensures Uncrossed(InsertOrder(b, o)) <==> forall y :: y in Level(b, Opposite(o.side)) ==> !Eligible(o, y)
  {
    var b' := InsertOrder(b, o);
    var r := Put(o.side, Level(b, o.side), o);
    hide Uncrossed, Sorted;
    UncrossedMeans(b);
    UncrossedMeans(b');
    if Uncrossed(b') {
      forall y | y in Level(b, Opposite(o.side)) ensures !Eligible(o, y) {
        assert o in r;
      }
    }
    hide Put;
    if forall y :: y in Level(b, Opposite(o.side)) ==> !Eligible(o, y) {
      forall x, y | x in b'.bids && y in b'.asks && x.user != y.user ensures !BuyCrosses(x, y) {
        if o.side == Buy && x == o {
          assert !Eligible(o, y);
        } else if o.side == Sell && y == o {
          assert !Eligible(o, x);
        }
      }
    }
  }

  /** The new ask is used up, and what is left of the bid does not cross. */
  lemma UsedUpUncrossed(b: Book, market: string, o: Order, x: Order)
    requires Inv(b, market) && o.market == market && o.side == Sell && 0 < o.remaining <= x.remaining
    requires x in b.bids && x.id == o.id && Eligible(x, o)
    ensures Uncrossed(Place(b, o).0)
  {
    var rest := OlderBidTrades(b, market, o, x);
    var i, q := IndexOf(b.bids, o.id), Min(x.remaining, o.remaining);
    var b' := Place(b, o).0;
    hide Place, Eligible, Uncrossed;
    UncrossedMeans(b);
    UncrossedMeans(b');
    forall x', y | x' in b'.bids && y in b'.asks && x'.user != y.user ensures !BuyCrosses(x', y) {
      var k :| 0 <= k < |b'.bids| && b'.bids[k] == x';
      if x.remaining > q {
        assert b.bids[k] in b.bids && !BuyCrosses(b.bids[k], y);
      } else {
        assert x' == b.bids[if k < i then k else k + 1];
        assert x' in b.bids;
      }
    }
  }

  /** The bid is used up, and the rest of the new ask meets the other bids. */
  lemma LeftOverUncrossed(b: Book, market: string, o: Order, x: Order)
    requires Inv(b, market) && o.market == market && o.side == Sell && o.remaining > x.remaining
    requires x in b.bids && x.id == o.id && Eligible(x, o)
    ensures Uncrossed(Place(b, o).0) <==> forall y :: y in b.bids && Eligible(o, y) ==> y == x
  {
    assert x.remaining > 0;
    var rest := OlderBidTrades(b, market, o, x);
    var i := IndexOf(b.bids, o.id);
    var b', o' := Place(b, o).0, Reduce(o, x.remaining);
    RemoveAtSorted(Buy, b.bids, i);
    hide Place, RemoveAt, Sorted, Uncrossed;
    UncrossedMeans(b);
    UncrossedMeans(b');
    if Uncrossed(b') {
      forall y | y in b.bids && y != x ensures !Eligible(o, y) {
        assert y in b'.bids && o' in b'.asks;
        assert y.user != o'.user ==> !BuyCrosses(y, o');
      }
    }
    if forall y :: y in b.bids && Eligible(o, y) ==> y == x {
      forall y, z | y in b'.bids && z in b'.asks && y.user != z.user ensures !BuyCrosses(y, z) {
        if z == o' {
          assert !Eligible(o, y);
        } else {
          assert z in b.asks;
        }
      }
    }
  }

  lemma OnlyOneAhead(b: Book, market: string, o: Order, x: Order, y: Order)
    requires WellFormed(b, market) && Ahead(b, o, x) && Ahead(b, o, y)
    ensures x == y
  {
    hide KeyOf;
  }

  lemma AheadSide(b: Book, market: string, o: Order, x: Order)
    requires WellFormed(b, market) && Ahead(b, o, x)
    ensures x in Level(b, x.side) && (x.side != o.side ==> o.side == Sell && x in b.bids)
  {
    hide KeyOf;
  }

  /** With someone ahead, the condition in terms of that one order. */
  lemma HarmlessIs(b: Book, market: string, o: Order, x: Order)
    requires WellFormed(b, market) && Ahead(b, o, x)
    ensures Harmless(b, o) <==>
              || (x.side != o.side && Eligible(o, x) && o.remaining <= x.remaining)
              || forall y :: y in Level(b, Opposite(o.side)) && Eligible(o, y) ==> y == x
  {
    forall y | Ahead(b, o, y) ensures y == x {
      OnlyOneAhead(b, market, o, x, y);
    }
    hide Ahead, Eligible, WellFormed;
  }

  /** A placement under any id, used or not, leaves an uncrossed book uncrossed if and only if
      it is harmless: nobody is found before the new order, or whoever is uses it up, or the
      new order could trade with nobody else. */
  lemma ReusedIdUncrossed(b: Book, market: string, o: Order)
    requires Inv(b, market) && o.market == market && o.remaining > 0
    ensures Uncrossed(Place(b, o).0) <==> Harmless(b, o)
  {
    if x :| Ahead(b, o, x) {
      AheadSide(b, market, o, x);
      HarmlessIs(b, market, o, x);
      EligibleOpposites(b, market, o, x);
      hide Place, Harmless, Eligible, InsertOrder, Uncrossed;
      if x.side == o.side {
        OlderSameSide(b, market, o, x);
        AddedUncrossed(b, market, o);
        OtherSide(b, market, o, x);
      } else if !Eligible(o, x) {
        OlderBidKept(b, market, o, x);
        AddedUncrossed(b, market, o);
      } else if o.remaining <= x.remaining {
        UsedUpUncrossed(b, market, o, x);
      } else {
        LeftOverUncrossed(b, market, o, x);
      }
    } else {
      AloneIsHarmless(b, market, o);
    }
  }

  lemma EligibleOpposites(b: Book, market: string, o: Order, x: Order)
    requires WellFormed(b, market) && Ahead(b, o, x) && x in Level(b, x.side)
    ensures x.side != o.side ==> (Eligible(o, x) <==> Eligible(x, o))
  {
    if x.side != o.side {
      EligibleEitherWay(o, x);
    }
  }

  lemma OtherSide(b: Book, market: string, o: Order, x: Order)
    requires WellFormed(b, market) && x.side == o.side
    ensures x !in Level(b, Opposite(o.side))
  {
  }
}
