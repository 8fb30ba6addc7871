/** What each order has traded, over every run of the engine. */
module OrderAccounts {
  import opened Types
  import opened PriceTime
  import opened Matching
  import opened Replay
  import opened BookRuns
  import opened Rounding

  predicate On(b: Book, x: Order) {
    x in b.bids || x in b.asks
  }

  /** The part of an event's quantity that belongs to one order. */
  function Part(e: MatchEvent, id: nat): int {
    if e.bidOrder == id || e.askOrder == id then e.quantity else 0
  }

  function FilledBy(events: seq<MatchEvent>, id: nat): int {
    if events == [] then 0 else FilledBy(events[..|events| - 1], id) + Part(events[|events| - 1], id)
  }

  lemma FilledSnoc(events: seq<MatchEvent>, e: MatchEvent, id: nat)
    ensures FilledBy(events + [e], id) == FilledBy(events, id) + Part(e, id)
  {
    assert (events + [e])[..|events|] == events;
  }

  // ----- trading

  /** The engine's book with everything that led to it: the events so far, what each order
      was placed with, and which orders were cancelled. */
  datatype Trading = Trading(book: Book, events: seq<MatchEvent>, placed: map<nat, int>, cancelled: set<nat>)

  datatype Move = PlaceMove(order: Order) | CancelMove(id: nat)

  function Next(t: Trading, move: Move): Trading {
    match move
    case PlaceMove(o) =>
      var (b, es) := Place(t.book, o);
      Trading(b, t.events + es, t.placed[o.id := o.remaining], t.cancelled)
    case CancelMove(id) => t.(book := CancelOrder(t.book, id), cancelled := t.cancelled + {id})
  }

  function Traded(t: Trading, moves: seq<Move>): Trading {
    if moves == [] then t else Next(Traded(t, moves[..|moves| - 1]), moves[|moves| - 1])
  }

  const NOTHING := Trading(Book([], []), [], map[], {})

  /** A market and the smallest steps of its prices and quantities. */
  datatype Grid = Grid(market: string, price: nat, qty: nat)

  ghost predicate OrderOnGrid(g: Grid, o: Order)
    requires g.price > 0 && g.qty > 0
  {
    OnGrid(o.remaining, g.qty) && (o.price.Some? ==> OnGrid(o.price.value, g.price))
  }

  /** An event of the market whose amounts lie on its grid. */
  ghost predicate EventOnGrid(g: Grid, e: MatchEvent)
    requires g.price > 0 && g.qty > 0
  {
    OnGrid(e.quantity, g.qty) && OnGrid(e.price, g.price) && Faces(e) && e.market == g.market
  }

  /** Taker and maker are the bid and the ask, one way or the other. */
  predicate Faces(e: MatchEvent) {
    if e.takerSide == Buy then e.takerOrder == e.bidOrder && e.makerOrder == e.askOrder
    else e.takerOrder == e.askOrder && e.makerOrder == e.bidOrder
  }

  /** Every placement uses a new id, is for the market and lies on its grid. */
  ghost predicate Orderly(g: Grid, moves: seq<Move>)
    requires g.price > 0 && g.qty > 0
  {
    if moves == [] then true
    else
      var n := |moves| - 1;
      && Orderly(g, moves[..n])
      && (moves[n].PlaceMove? ==>
            && moves[n].order.id !in Traded(NOTHING, moves[..n]).placed
            && moves[n].order.market == g.market && OrderOnGrid(g, moves[n].order))
  }

  // ----- one order at a time

  function AtLeastZero(x: int): int {
    if x < 0 then 0 else x
  }

  ghost predicate Sound(placed: map<nat, int>, e: MatchEvent) {
    e.quantity > 0 && e.bidOrder != e.askOrder && e.bidOrder in placed && e.askOrder in placed
  }

  ghost predicate Resting(b: Book, id: nat) {
    exists x :: On(b, x) && x.id == id
  }

  /** What a placed order has lost is what the events took from it, never more than it had;
      and an order that is neither resting nor cancelled is used up. */
  ghost predicate Accounted(t: Trading, id: nat)
    requires id in t.placed
  {
    && FilledBy(t.events, id) <= AtLeastZero(t.placed[id])
    && (Resting(t.book, id) || id in t.cancelled || FilledBy(t.events, id) == AtLeastZero(t.placed[id]))
  }

  ghost predicate Remains(t: Trading, x: Order) {
    x.id in t.placed && x.remaining == t.placed[x.id] - FilledBy(t.events, x.id)
  }

  ghost predicate AllSound(t: Trading) {
    forall e :: e in t.events ==> Sound(t.placed, e)
  }

  ghost predicate Tracks(t: Trading) {
    && (forall x :: On(t.book, x) ==> Remains(t, x))
    && (forall id :: id in t.placed ==> Accounted(t, id))
    && AllSound(t)
  }

  /** A side after one of its orders took a fill. */
  lemma FillAtElements(side: Side, market: string, s: seq<Order>, i: nat, q: int, x: Order)
    requires WellFormedSide(side, market, s) && i < |s| && q > 0
    ensures x in FillAt(s, i, q) <==> (x in s && x.id != s[i].id) || (s[i].remaining != q && x == Reduce(s[i], q))
  {
    hide Sorted;
    var r := FillAt(s, i, q);
    IndexOfOthers(side, s, i);
    if x in s && x.id != s[i].id {
      var k :| 0 <= k < |s| && s[k] == x;
      if s[i].remaining == q {
        assert r[if k < i then k else k - 1] == x;
      } else {
        assert r[k] == x;
      }
    }
    if x in r {
      var k :| 0 <= k < |r| && r[k] == x;
      if s[i].remaining == q {
        assert x == s[if k < i then k else k + 1];
      } else {
        assert k != i ==> x == s[k];
      }
    }
    if s[i].remaining != q {
      assert r[i] == Reduce(s[i], q);
    }
  }

  lemma IndexOfOthers(side: Side, s: seq<Order>, i: nat)
    requires Sorted(side, s) && UniqueIds(s) && i < |s|
    ensures forall k :: 0 <= k < |s| && k != i ==> s[k].id != s[i].id
  {
    hide Sorted;
    forall k | 0 <= k < |s| && k != i ensures s[k].id != s[i].id {
      IndexOfUnique(side, s, i);
      IndexOfUnique(side, s, k);
    }
  }

  /** The two orders of a fill, and the book after it. */
  ghost predicate FillsOnly(b: Book, b': Book, x: Order, y: Order, q: int) {
    forall z :: On(b', z) <==>
      || (On(b, z) && z.id != x.id && z.id != y.id)
      || (x.remaining != q && z == Reduce(x, q)) || (y.remaining != q && z == Reduce(y, q))
  }

  lemma ApplyFillElements(b: Book, market: string, e: MatchEvent) returns (x: Order, y: Order)
    requires WellFormed(b, market) && ApplyFill(b, e).Ok?
    ensures x in b.bids && y in b.asks && x.id == e.bidOrder && y.id == e.askOrder && x.id != y.id
    ensures e.quantity > 0 && x.remaining >= e.quantity && y.remaining >= e.quantity
    ensures FillsOnly(b, ApplyFill(b, e).value, x, y, e.quantity)
  {
    var i, j := IndexOf(b.bids, e.bidOrder), IndexOf(b.asks, e.askOrder);
    var b' := ApplyFill(b, e).value;
    x, y := b.bids[i], b.asks[j];
    forall z ensures On(b', z) <==>
        || (On(b, z) && z.id != x.id && z.id != y.id)
        || (x.remaining != e.quantity && z == Reduce(x, e.quantity)) || (y.remaining != e.quantity && z == Reduce(y, e.quantity))
    {
      FillAtElements(Buy, market, b.bids, i, e.quantity, z);
      FillAtElements(Sell, market, b.asks, j, e.quantity, z);
      hide FillAt, WellFormedSide;
    }
  }

  lemma {:induction false} FilledNonNegative(events: seq<MatchEvent>, id: nat)
    requires forall e :: e in events ==> e.quantity > 0
    ensures FilledBy(events, id) >= 0
  {
    if events != [] {
      FilledNonNegative(events[..|events| - 1], id);
    }
  }

  lemma SoundSnoc(t: Trading, e: MatchEvent)
    requires AllSound(t) && Sound(t.placed, e)
    ensures AllSound(t.(events := t.events + [e]))
  {
  }

  /** What remains of an order after a fill, whichever of the three kinds it is. */
  lemma FillRemains(t: Trading, b': Book, x: Order, y: Order, e: MatchEvent, z: Order)
    requires Remains(t, x) && Remains(t, y) && x.id == e.bidOrder && y.id == e.askOrder
    requires (Remains(t, z) && z.id != x.id && z.id != y.id) || z == Reduce(x, e.quantity) || z == Reduce(y, e.quantity)
    ensures Remains(t.(book := b', events := t.events + [e]), z)
  {
    FilledSnoc(t.events, e, z.id);
  }

  lemma FillTracks(t: Trading, market: string, e: MatchEvent)
    requires Tracks(t) && WellFormed(t.book, market) && ApplyFill(t.book, e).Ok?
    ensures Tracks(t.(book := ApplyFill(t.book, e).value, events := t.events + [e]))
  {
    var b' := ApplyFill(t.book, e).value;
    var t' := t.(book := b', events := t.events + [e]);
    var x, y := ApplyFillElements(t.book, market, e);
    assert Remains(t, x) && Remains(t, y);
    hide ApplyFill, WellFormed, FilledBy, FillsOnly, Accounted;
    SoundSnoc(t, e);
    forall id | id in t.placed ensures Accounted(t', id) {
      assert Accounted(t, id);
      FilledNonNegative(t.events, id);
      FillAccounts(t, b', x, y, e, id);
    }
    hide Remains, AllSound;
    forall z | On(b', z) ensures Remains(t', z) {
      AfterFillOn(t.book, b', x, y, e.quantity, z);
      FillRemains(t, b', x, y, e, z);
    }
  }

  lemma AfterFillOn(b: Book, b': Book, x: Order, y: Order, q: int, z: Order)
    requires FillsOnly(b, b', x, y, q) && On(b', z)
    ensures (On(b, z) && z.id != x.id && z.id != y.id) || z == Reduce(x, q) || z == Reduce(y, q)
  {
  }

  lemma FillAccounts(t: Trading, b': Book, x: Order, y: Order, e: MatchEvent, id: nat)
    requires id in t.placed && Accounted(t, id) && FillsOnly(t.book, b', x, y, e.quantity)
    requires On(t.book, x) && On(t.book, y) && x.id == e.bidOrder && y.id == e.askOrder && x.id != y.id
    requires x.remaining >= e.quantity > 0 && y.remaining >= e.quantity
    requires id == x.id ==> x.remaining == t.placed[id] - FilledBy(t.events, id)
    requires id == y.id ==> y.remaining == t.placed[id] - FilledBy(t.events, id)
    requires FilledBy(t.events, id) >= 0
    ensures Accounted(t.(book := b', events := t.events + [e]), id)
  {
    FilledSnoc(t.events, e, id);
    hide FilledBy;
    if id == x.id {
      if x.remaining != e.quantity {
        assert On(b', Reduce(x, e.quantity));
      }
    } else if id == y.id {
      if y.remaining != e.quantity {
        assert On(b', Reduce(y, e.quantity));
      }
    } else if Resting(t.book, id) {
      var z :| On(t.book, z) && z.id == id;
      assert On(b', z);
    }
  }

  lemma {:induction false} FillsTrack(t: Trading, market: string, es: seq<MatchEvent>)
    requires Tracks(t) && WellFormed(t.book, market) && AllPositive(t.book.bids) && AllPositive(t.book.asks)
    requires ApplyFills(t.book, es).Ok?
    ensures Tracks(t.(book := ApplyFills(t.book, es).value, events := t.events + es))
    decreases |es|
  {
    hide Tracks, WellFormed, AllPositive, ApplyFill;
    if es == [] {
      assert t.events + es == t.events;
    } else {
      var t1 := t.(book := ApplyFill(t.book, es[0]).value, events := t.events + [es[0]]);
      FillTracks(t, market, es[0]);
      ApplyFillKeeps(t.book, market, es[0]);
      FillsTrack(t1, market, es[1..]);
      assert t1.events + es[1..] == t.events + es;
    }
  }

  // ----- moves

  lemma UnplacedUnfilled(t: Trading, id: nat)
    requires AllSound(t) && id !in t.placed
    ensures FilledBy(t.events, id) == 0
  {
    NoPart(t.events, id);
  }

  lemma {:induction false} NoPart(events: seq<MatchEvent>, id: nat)
    requires forall e :: e in events ==> e.bidOrder != id && e.askOrder != id
    ensures FilledBy(events, id) == 0
  {
    if events != [] {
      NoPart(events[..|events| - 1], id);
    }
  }

  lemma InsertElements(b: Book, market: string, o: Order, x: Order)
    requires WellFormed(b, market) && Fresh(b, o.id)
    ensures On(InsertOrder(b, o), x) <==> On(b, x) || x == o
  {
    PutSorted(o.side, Level(b, o.side), o);
    hide Put, Sorted;
  }

  lemma TrackedIsFresh(t: Trading, id: nat)
    requires Tracks(t) && id !in t.placed
    ensures Fresh(t.book, id)
  {
    forall x | On(t.book, x) ensures x.id != id {
      assert Remains(t, x);
    }
  }

  /** A new order, before it is matched. */
  lemma InsertTracks(t: Trading, market: string, o: Order)
    requires Tracks(t) && WellFormed(t.book, market) && o.id !in t.placed
    ensures Tracks(t.(book := InsertOrder(t.book, o), placed := t.placed[o.id := o.remaining]))
  {
    var t' := t.(book := InsertOrder(t.book, o), placed := t.placed[o.id := o.remaining]);
    TrackedIsFresh(t, o.id);
    forall x ensures On(t'.book, x) <==> On(t.book, x) || x == o {
      InsertElements(t.book, market, o, x);
    }
    UnplacedUnfilled(t, o.id);
    hide InsertOrder, WellFormed, FilledBy, On;
    assert On(t'.book, o);
    forall id | id in t'.placed ensures Accounted(t', id) {
      if id != o.id {
        assert Accounted(t, id);
        if Resting(t.book, id) {
          var x :| On(t.book, x) && x.id == id;
          assert On(t'.book, x);
        }
      }
    }
  }

  /** An order with nothing to trade leaves no trace but its own row. */
  lemma EmptyOrderTracks(t: Trading, o: Order)
    requires Tracks(t) && o.id !in t.placed && o.remaining <= 0
    ensures Tracks(t.(placed := t.placed[o.id := o.remaining]))
  {
    var t' := t.(placed := t.placed[o.id := o.remaining]);
    UnplacedUnfilled(t, o.id);
    hide FilledBy;
    forall id | id in t'.placed ensures Accounted(t', id) {
      if id != o.id {
        assert Accounted(t, id);
      }
    }
  }

  lemma CancelTracks(t: Trading, id: nat)
    requires Tracks(t)
    ensures Tracks(Next(t, CancelMove(id)))
  {
    var t' := Next(t, CancelMove(id));
    hide FilledBy;
    forall x ensures On(t'.book, x) <==> On(t.book, x) && x.id != id {
    }
    forall n | n in t'.placed ensures Accounted(t', n) {
      assert Accounted(t, n);
      if n != id && Resting(t.book, n) {
        var x :| On(t.book, x) && x.id == n;
        assert On(t'.book, x);
      }
    }
    forall x | On(t'.book, x) ensures Remains(t', x) {
      assert Remains(t, x);
    }
  }

  lemma PlaceTracks(t: Trading, market: string, o: Order)
    requires Tracks(t) && Inv(t.book, market) && o.id !in t.placed && o.market == market
    ensures Tracks(Next(t, PlaceMove(o))) && Inv(Next(t, PlaceMove(o)).book, market)
  {
    TrackedIsFresh(t, o.id);
    PlaceKeeps(t.book, market, o);
    if o.remaining <= 0 {
      EmptyOrderTracks(t, o);
      assert t.events + [] == t.events;
    } else {
      InsertTracks(t, market, o);
      InsertWellFormed(t.book, market, o);
      InsertPositive(t.book, market, o);
      var b := InsertOrder(t.book, o);
      hide Tracks, InsertOrder, WellFormed, AllPositive, MatchOrder, Fresh;
      ReplayEquivalence(b, market, o.id);
      FillsTrack(t.(book := b, placed := t.placed[o.id := o.remaining]), market, Place(t.book, o).1);
    }
  }

  lemma InsertPositive(b: Book, market: string, o: Order)
    requires WellFormed(b, market) && Fresh(b, o.id) && AllPositive(b.bids) && AllPositive(b.asks) && o.remaining > 0
    ensures AllPositive(InsertOrder(b, o).bids) && AllPositive(InsertOrder(b, o).asks)
  {
    forall x | On(InsertOrder(b, o), x) ensures x.remaining > 0 {
      InsertElements(b, market, o, x);
    }
  }

  // ----- the grid

  ghost predicate AllOnGrid(g: Grid, s: seq<Order>)
    requires g.price > 0 && g.qty > 0
  {
    forall x :: x in s ==> OrderOnGrid(g, x)
  }

  lemma ReduceOnGrid(g: Grid, o: Order, q: int)
    requires g.price > 0 && g.qty > 0 && OrderOnGrid(g, o) && OnGrid(q, g.qty)
    ensures OrderOnGrid(g, Reduce(o, q))
  {
    GridNegation(q, g.qty);
    GridSum(o.remaining, -q, g.qty);
  }

  /** A sweep over orders on the grid trades on the grid and leaves orders on the grid. */
  lemma {:induction false} SweepOnGrid(g: Grid, taker: Order, makers: seq<Order>)
    requires g.price > 0 && g.qty > 0 && OrderOnGrid(g, taker) && AllOnGrid(g, makers)
    ensures var r := Sweep(g.market, taker, makers);
            && OrderOnGrid(g, r.taker) && AllOnGrid(g, r.makers)
            && forall e :: e in r.events ==> EventOnGrid(g, e)
    decreases |makers|
  {
    if makers != [] && taker.remaining > 0 {
      var m, rest := makers[0], makers[1..];
      var q := Min(taker.remaining, m.remaining);
      assert m in makers && AllOnGrid(g, rest);
      if Eligible(taker, m) {
        assert EventOnGrid(g, Fill(g.market, taker, m, q));
        ReduceOnGrid(g, taker, q);
        ReduceOnGrid(g, m, q);
        hide OrderOnGrid, EventOnGrid;
        if q != 0 && m.remaining - q <= 0 {
          SweepOnGrid(g, Reduce(taker, q), rest);
        }
      } else {
        hide OrderOnGrid, EventOnGrid;
        SweepOnGrid(g, taker, rest);
      }
    }
  }

  ghost predicate TradesOnGrid(g: Grid, t: Trading)
    requires g.price > 0 && g.qty > 0
  {
    && AllOnGrid(g, t.book.bids) && AllOnGrid(g, t.book.asks)
    && forall e :: e in t.events ==> EventOnGrid(g, e)
  }

  lemma PlaceOnGrid(g: Grid, t: Trading, o: Order)
    requires g.price > 0 && g.qty > 0 && TradesOnGrid(g, t) && OrderOnGrid(g, o)
    requires WellFormed(t.book, g.market) && Fresh(t.book, o.id) && o.market == g.market
    ensures TradesOnGrid(g, Next(t, PlaceMove(o)))
  {
    PlaceIsSweep(t.book, g.market, o);
    SweepOnGrid(g, o, Level(t.book, Opposite(o.side)));
    var r := Sweep(g.market, o, Level(t.book, Opposite(o.side)));
    SweepKeepsTaker(g.market, o, Level(t.book, Opposite(o.side)));
    hide Sweep, MatchOrder, OrderOnGrid, EventOnGrid;
    forall x | On(Settle(t.book, o.side, r), x) ensures OrderOnGrid(g, x) {
      SettledElements(t.book, g.market, o.side, r, x);
    }
  }

  lemma SettledElements(b: Book, market: string, side: Side, r: Swept, x: Order)
    requires WellFormed(b, market) && r.taker.side == side && On(Settle(b, side, r), x)
    ensures On(b, x) || x in r.makers || x == r.taker
  {
    if r.taker.remaining > 0 {
      PutSorted(side, Level(b, side), r.taker);
    }
    hide Put, Sorted;
  }

  lemma CancelOnGrid(g: Grid, t: Trading, id: nat)
    requires g.price > 0 && g.qty > 0 && TradesOnGrid(g, t)
    ensures TradesOnGrid(g, Next(t, CancelMove(id)))
  {
    hide OrderOnGrid, EventOnGrid;
  }

  ghost predicate Good(g: Grid, t: Trading)
    requires g.price > 0 && g.qty > 0
  {
    Tracks(t) && Inv(t.book, g.market) && TradesOnGrid(g, t)
  }

  lemma NothingIsGood(g: Grid)
    requires g.price > 0 && g.qty > 0
    ensures Good(g, NOTHING)
  {
  }

  /** Over every orderly run: what remains of each resting order is what it was placed with
      less what the events took, no order is ever filled beyond what it was placed with, an
      order that is gone without being cancelled is filled exactly, and every event lies on
      the market's grid. */
  lemma {:induction false} OrdersAreConserved(g: Grid, moves: seq<Move>)
    requires g.price > 0 && g.qty > 0 && Orderly(g, moves)
    ensures Good(g, Traded(NOTHING, moves))
  {
    if moves == [] {
      NothingIsGood(g);
    } else {
      var n := |moves| - 1;
      OrdersAreConserved(g, moves[..n]);
      var t := Traded(NOTHING, moves[..n]);
      hide Tracks, Inv, TradesOnGrid;
      match moves[n]
      case PlaceMove(o) =>
        PlaceTracks(t, g.market, o);
        TrackedIsFresh(t, o.id);
        InvIsWellFormed(t.book, g.market);
        PlaceOnGrid(g, t, o);
      case CancelMove(id) =>
        CancelTracks(t, id);
        CancelKeeps(t.book, g.market, id);
        CancelOnGrid(g, t, id);
    }
  }

  lemma InvIsWellFormed(b: Book, market: string)
    requires Inv(b, market)
    ensures WellFormed(b, market)
  {
  }

  // ----- the outcome of replaying one fill

  ghost predicate Rests(s: seq<Order>, id: nat) {
    exists x :: x in s && x.id == id
  }

  /** What replaying a fill does, order by order: the error, in the order of the checks, or the
      two orders reduced, gone if nothing is left, and all others as they were. */
  lemma FillOutcome(b: Book, market: string, e: MatchEvent)
    requires WellFormed(b, market)
    ensures var r := ApplyFill(b, e);
            if e.quantity <= 0 then r == Err(NonPositiveQuantity)
            else if !Rests(b.bids, e.bidOrder) || !Rests(b.asks, e.askOrder) then r == Err(MissingOrder)
            else if e.market != market then r == Err(MarketMismatch)
            else forall x, y :: x in b.bids && x.id == e.bidOrder && y in b.asks && y.id == e.askOrder ==>
              if x.remaining < e.quantity || y.remaining < e.quantity then r == Err(InsufficientRemaining)
              else r.Ok? && FillsOnly(b, r.value, x, y, e.quantity)
  {
    var i, j := IndexOf(b.bids, e.bidOrder), IndexOf(b.asks, e.askOrder);
    assert i < |b.bids| ==> b.bids[i] in b.bids;
    assert j < |b.asks| ==> b.asks[j] in b.asks;
    hide Sorted;
    if e.quantity > 0 && Rests(b.bids, e.bidOrder) && Rests(b.asks, e.askOrder) {
      hide FillAt, FillsOnly;
      if ApplyFill(b, e).Ok? {
        var x, y := ApplyFillElements(b, market, e);
      }
    }
  }
}
