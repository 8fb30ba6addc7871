/** Replaying recorded fills into a book.

    `ApplyFill` is the engine's second route to a book state: it knows only the event,
    looks both orders up by id and reduces them.  `ReplayEquivalence` shows that it
    lands on exactly the book that matching leaves. */
module Replay {
  import opened Types
  import opened PriceTime
  import opened Matching

  datatype FillError = NonPositiveQuantity | MissingOrder | MarketMismatch | InsufficientRemaining

  function FillAt(s: seq<Order>, i: nat, q: int): (r: seq<Order>)
    requires i < |s|
  {
    if s[i].remaining == q then RemoveAt(s, i) else s[i := Reduce(s[i], q)]
  }

  function ApplyFill(b: Book, e: MatchEvent): Result<Book, FillError> {
    var i, j := IndexOf(b.bids, e.bidOrder), IndexOf(b.asks, e.askOrder);
    if e.quantity <= 0 then Err(NonPositiveQuantity)
    else if i == |b.bids| || j == |b.asks| then Err(MissingOrder)
    else if b.bids[i].market != e.market || b.asks[j].market != e.market then Err(MarketMismatch)
    else if b.bids[i].remaining < e.quantity || b.asks[j].remaining < e.quantity then Err(InsufficientRemaining)
    else Ok(Book(FillAt(b.bids, i, e.quantity), FillAt(b.asks, j, e.quantity)))
  }

  function ApplyFills(b: Book, es: seq<MatchEvent>): Result<Book, FillError>
    decreases |es|
  {
    if es == [] then Ok(b)
    else
      match ApplyFill(b, es[0])
      case Err(err) => Err(err)
      case Ok(b') => ApplyFills(b', es[1..])
  }

  ghost predicate UniqueIds(s: seq<Order>) {
    forall x, y :: x in s && y in s && x.id == y.id ==> x == y
  }

  /** One side of a book: sorted, one entry per id, all orders of one side and market. */
  ghost predicate WellFormedSide(side: Side, market: string, s: seq<Order>) {
    && Sorted(side, s)
    && UniqueIds(s)
    && forall x :: x in s ==> x.side == side && x.market == market
  }

  ghost predicate WellFormed(b: Book, market: string) {
    && WellFormedSide(Buy, market, b.bids)
    && WellFormedSide(Sell, market, b.asks)
    && (forall x, y :: x in b.bids && y in b.asks ==> x.id != y.id)
  }

  /** The book whose `side` is `own` and whose other side is `other`. */
  function BookOf(side: Side, own: seq<Order>, other: seq<Order>): Book {
    match side
    case Buy => Book(own, other)
    case Sell => Book(other, own)
  }

  lemma IndexOfUnique(side: Side, s: seq<Order>, k: nat)
    requires Sorted(side, s) && UniqueIds(s) && k < |s|
    ensures IndexOf(s, s[k].id) == k
  {
    BeforeIsTotalOrder(side, KeyOf(s[k]), KeyOf(s[k]), KeyOf(s[k]));
    hide Before, KeyOf;
    var i := IndexOf(s, s[k].id);
    assert i <= k && s[i] in s && s[k] in s;
  }

  lemma FillAtWellFormed(side: Side, market: string, s: seq<Order>, i: nat, q: int)
    requires WellFormedSide(side, market, s) && i < |s|
    ensures WellFormedSide(side, market, FillAt(s, i, q))
  {
    hide Before, RemoveAt;
    assert s[i] in s;
    if s[i].remaining == q {
      RemoveAtSorted(side, s, i);
    } else {
      OverwriteSorted(side, s, i, Reduce(s[i], q));
    }
  }

  lemma ApplyOne(side: Side, market: string, own: seq<Order>, k: nat, other: seq<Order>, j: nat, q: int)
    requires WellFormedSide(side, market, own) && WellFormedSide(Opposite(side), market, other)
    requires k < |own| && j < |other|
    requires 0 < q <= own[k].remaining && q <= other[j].remaining
    ensures ApplyFill(BookOf(side, own, other), Fill(market, own[k], other[j], q))
            == Ok(BookOf(side, FillAt(own, k, q), FillAt(other, j, q)))
  {
    IndexOfUnique(side, own, k);
    IndexOfUnique(Opposite(side), other, j);
    assert own[k] in own && other[j] in other;
  }

  /** The taker's side once the taker is down to `taker`. */
  function Left(own: seq<Order>, k: nat, taker: Order): seq<Order>
    requires k < |own|
  {
    if taker.remaining > 0 then own[k := taker] else RemoveAt(own, k)
  }

  /** Replaying the events of a sweep by `own[k]`, with the makers already passed over
      in `pre`, gives the taker's side and the makers' side the sweep leaves. */
  ghost predicate Replays(side: Side, market: string, own: seq<Order>, k: nat, pre: seq<Order>, makers: seq<Order>)
    requires k < |own|
  {
    var r := Sweep(market, own[k], makers);
    ApplyFills(BookOf(side, own, pre + makers), r.events)
    == Ok(BookOf(side, Left(own, k, r.taker), pre + r.makers))
  }

  lemma ApplyNone(b: Book)
    ensures ApplyFills(b, []) == Ok(b)
  {
  }

  lemma ApplyCons(b: Book, e: MatchEvent, es: seq<MatchEvent>)
    requires ApplyFill(b, e).Ok?
    ensures ApplyFills(b, [e] + es) == ApplyFills(ApplyFill(b, e).value, es)
  {
    assert ([e] + es)[1..] == es;
  }

  lemma {:induction false} ReplaySweep(side: Side, market: string, own: seq<Order>, k: nat,
                                       pre: seq<Order>, makers: seq<Order>)
    requires WellFormedSide(side, market, own) && k < |own| && own[k].remaining > 0
    requires WellFormedSide(Opposite(side), market, pre + makers) && AllPositive(makers)
    ensures Replays(side, market, own, k, pre, makers)
    decreases |makers|, 1
  {
    var taker := own[k];
    if makers == [] {
      assert own[k := taker] == own;
    } else {
      var m, rest := makers[0], makers[1..];
      assert m in makers;
      if !Eligible(taker, m) {
        assert pre + makers == (pre + [m]) + rest;
        ReplaySweep(side, market, own, k, pre + [m], rest);
        ReplaySkip(side, market, own, k, pre, makers);
      } else if m.remaining > taker.remaining {
        ReplayPartial(side, market, own, k, pre, makers);
      } else {
        ReplayFull(side, market, own, k, pre, makers);
      }
    }
  }

  lemma ReplaySkip(side: Side, market: string, own: seq<Order>, k: nat, pre: seq<Order>, makers: seq<Order>)
    requires k < |own| && own[k].remaining > 0
    requires makers != [] && !Eligible(own[k], makers[0])
    requires Replays(side, market, own, k, pre + [makers[0]], makers[1..])
    ensures Replays(side, market, own, k, pre, makers)
  {
    var m, rest := makers[0], makers[1..];
    assert pre + makers == (pre + [m]) + rest;
    var r := Sweep(market, own[k], rest);
    assert Sweep(market, own[k], makers) == r.(makers := [m] + r.makers);
    assert (pre + [m]) + r.makers == pre + ([m] + r.makers);
  }

  lemma ReplayPartial(side: Side, market: string, own: seq<Order>, k: nat, pre: seq<Order>, makers: seq<Order>)
    requires WellFormedSide(side, market, own) && k < |own| && own[k].remaining > 0
    requires WellFormedSide(Opposite(side), market, pre + makers)
    requires makers != [] && Eligible(own[k], makers[0]) && makers[0].remaining > own[k].remaining
    ensures Replays(side, market, own, k, pre, makers)
  {
    var taker, other, m, rest := own[k], pre + makers, makers[0], makers[1..];
    var q := taker.remaining;
    assert other[|pre|] == m;
    ApplyOne(side, market, own, k, other, |pre|, q);
    assert Sweep(market, taker, makers) == Swept(Reduce(taker, q), [Reduce(m, q)] + rest, [Fill(market, taker, m, q)]);
    hide Sweep, ApplyFill, ApplyFills, Fill, Eligible, WellFormedSide;
    assert FillAt(other, |pre|, q) == pre + ([Reduce(m, q)] + rest);
    var b, e := BookOf(side, own, other), Fill(market, taker, m, q);
    ApplyCons(b, e, []);
    assert [e] + [] == [e];
    ApplyNone(BookOf(side, FillAt(own, k, q), FillAt(other, |pre|, q)));
  }

  lemma {:induction false} ReplayFull(side: Side, market: string, own: seq<Order>, k: nat,
                                      pre: seq<Order>, makers: seq<Order>)
    requires WellFormedSide(side, market, own) && k < |own| && own[k].remaining > 0
    requires WellFormedSide(Opposite(side), market, pre + makers) && AllPositive(makers)
    requires makers != [] && Eligible(own[k], makers[0]) && makers[0].remaining <= own[k].remaining
    ensures Replays(side, market, own, k, pre, makers)
    decreases |makers|, 0
  {
    var taker, other, m, rest := own[k], pre + makers, makers[0], makers[1..];
    var q := m.remaining;
    assert m in makers && other[|pre|] == m;
    ApplyOne(side, market, own, k, other, |pre|, q);
    FillAtWellFormed(side, market, own, k, q);
    FillAtWellFormed(Opposite(side), market, other, |pre|, q);
    DropHead(pre, m, rest);
    var t', own' := Reduce(taker, q), FillAt(own, k, q);
    var r := Sweep(market, t', rest);
    var b, e := BookOf(side, own, other), Fill(market, taker, m, q);
    assert Sweep(market, taker, makers) == After([e], r);
    assert t'.remaining <= 0 ==> r == Swept(t', rest, []);
    assert AllPositive(rest);
    hide Sweep, ApplyFill, ApplyFills, Fill, Eligible, WellFormedSide, AllPositive;
    ApplyCons(b, e, r.events);
    if t'.remaining > 0 {
      ReplaySweep(side, market, own', k, pre, rest);
      LeftAgain(own, k, t', r.taker);
    } else {
      ApplyNone(BookOf(side, own', pre + rest));
    }
  }

  lemma DropHead(pre: seq<Order>, m: Order, rest: seq<Order>)
    ensures RemoveAt(pre + ([m] + rest), |pre|) == pre + rest
    ensures forall makers :: makers != [] && makers[0] == m && makers[1..] == rest ==> makers == [m] + rest
  {
  }

  lemma LeftAgain(own: seq<Order>, k: nat, t': Order, t: Order)
    requires k < |own|
    ensures Left(own[k := t'], k, t) == Left(own, k, t)
  {
    assert own[k := t'][k := t] == own[k := t];
    assert RemoveAt(own[k := t'], k) == RemoveAt(own, k);
  }

  lemma TakerOf(b: Book, market: string, id: nat)
    requires WellFormed(b, market) && RemoveById(b, id).Some?
    ensures var (taker, b') := RemoveById(b, id).value;
            var own := Level(b, taker.side);
            var k := IndexOf(own, id);
            && k < |own| && own[k] == taker
            && b' == BookOf(taker.side, RemoveAt(own, k), Level(b, Opposite(taker.side)))
            && b == BookOf(taker.side, own, Level(b, Opposite(taker.side)))
  {
    var i := IndexOf(b.bids, id);
    if i < |b.bids| {
      assert b.bids[i] in b.bids;
    } else {
      assert b.asks[IndexOf(b.asks, id)] in b.asks;
    }
  }

  /** Putting the rest of the taker back where matching took it from. */
  lemma SettleInPlace(side: Side, own: seq<Order>, k: nat, other: seq<Order>, r: Swept)
    requires Sorted(side, own) && k < |own| && KeyOf(r.taker) == KeyOf(own[k]) && r.taker.side == side
    ensures Settle(BookOf(side, RemoveAt(own, k), other), side, r) == BookOf(side, Left(own, k, r.taker), r.makers)
  {
    PutBack(side, own, k, r.taker);
  }

  /** A match in terms of the taker's place `k` on its own side. */
  lemma MatchInPlace(b: Book, market: string, id: nat)
    requires WellFormed(b, market) && RemoveById(b, id).Some?
    ensures var side := RemoveById(b, id).value.0.side;
            var own, other := Level(b, side), Level(b, Opposite(side));
            var k := IndexOf(own, id);
            && k < |own| && own[k] == RemoveById(b, id).value.0
            && b == BookOf(side, own, other)
            && var r := Sweep(market, own[k], other);
               MatchOrder(b, market, id) == (BookOf(side, Left(own, k, r.taker), r.makers), r.events)
  {
    TakerOf(b, market, id);
    var taker := RemoveById(b, id).value.0;
    var own, other := Level(b, taker.side), Level(b, Opposite(taker.side));
    SweepKeepsTaker(market, taker, other);
    SettleInPlace(taker.side, own, IndexOf(own, id), other, Sweep(market, taker, other));
  }

  /** Folding `ApplyFill` over the events of a match, from the book the match started
      with, never fails and ends in exactly the book the match leaves. */
  lemma ReplayEquivalence(b: Book, market: string, id: nat)
    requires WellFormed(b, market) && AllPositive(b.bids) && AllPositive(b.asks)
    ensures var (b', es) := MatchOrder(b, market, id);
            ApplyFills(b, es) == Ok(b')
  {
    if RemoveById(b, id).Some? {
      MatchInPlace(b, market, id);
      var side := RemoveById(b, id).value.0.side;
      ReplayInPlace(side, market, Level(b, side), IndexOf(Level(b, side), id), Level(b, Opposite(side)));
    }
  }

  lemma ReplayInPlace(side: Side, market: string, own: seq<Order>, k: nat, other: seq<Order>)
    requires WellFormedSide(side, market, own) && k < |own| && AllPositive(own)
    requires WellFormedSide(Opposite(side), market, other) && AllPositive(other)
    ensures var r := Sweep(market, own[k], other);
            ApplyFills(BookOf(side, own, other), r.events) == Ok(BookOf(side, Left(own, k, r.taker), r.makers))
  {
    assert own[k] in own;
    assert [] + other == other;
    ReplaySweep(side, market, own, k, [], other);
    var r := Sweep(market, own[k], other);
    assert [] + r.makers == r.makers;
  }
}
