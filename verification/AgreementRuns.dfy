/** The order table after a run of the settlement worker, and the engine's books. */
module AgreementRuns {
  import opened Types
  import opened Rounding
  import opened Settlement
  import opened SettlementWorker
  import opened SettlementRuns
  import OA = OrderAccounts
  import AG = Agreement

  // ----- the orders follow the commits

  function QtyOf(markets: map<string, MarketRow>, p: Payload): int {
    if p.symbol in markets && p.qty.Some? then RoundDown(p.qty.value, markets[p.symbol].qtyUnit) else 0
  }

  /** The order table after settling these payloads in this order. */
  function FillLog(markets: map<string, MarketRow>, orders: map<nat, OrderRow>, ps: seq<Payload>): Option<map<nat, OrderRow>> {
    if ps == [] then Some(orders)
    else
      var p := ps[|ps| - 1];
      match FillLog(markets, orders, ps[..|ps| - 1])
      case None => None
      case Some(o) => FillOrders(o, p.takerOrder, p.makerOrder, QtyOf(markets, p))
  }

  /** What a tick commits, if anything. */
  function Committed(h: Hashes, w: WorkerState, broken: bool): seq<Payload> {
    var i := NextRow(w.events);
    if !w.halted && i < |w.events| && Attempt(h, w.db, w.events[i], broken).Ok? then [w.events[i].payload] else []
  }

  /** The payloads committed by a run, in order. */
  function CommitLog(h: Hashes, s: State, actions: seq<Action>): seq<Payload> {
    if actions == [] then []
    else
      var n := |actions| - 1;
      CommitLog(h, s, actions[..n]) + if actions[n].Work? then Committed(h, Run(h, s, actions[..n]).worker, actions[n].fault.broken) else []
  }

  lemma CommitFills(h: Hashes, db: Db, row: EventRow)
    requires Process(h, db, row).Ok? && RowsOf(db.ledger, row.id) == []
    ensures var db' := Process(h, db, row).value.0;
            && db'.markets == db.markets
            && FillOrders(db.orders, row.payload.takerOrder, row.payload.makerOrder, QtyOf(db.markets, row.payload)) == Some(db'.orders)
  {
    hide ApplyUpdates, TotalsAgree, ChainHolds, AnyNegative, FillOrders, Refusal, Deltas, Updates, RowsOf, FirstHash, RoundDown, TradeValue, FeeOf;
  }

  lemma FillLogSnoc(markets: map<string, MarketRow>, orders: map<nat, OrderRow>, ps: seq<Payload>, p: Payload)
    ensures FillLog(markets, orders, ps + [p])
            == match FillLog(markets, orders, ps) case None => None case Some(o) => FillOrders(o, p.takerOrder, p.makerOrder, QtyOf(markets, p))
  {
    assert (ps + [p])[..|ps|] == ps;
  }

  /** Whether and what a tick commits. */
  lemma TickOrders(h: Hashes, s: State, fault: Fault, opening: nat, start: map<nat, OrderRow>, log: seq<Payload>)
    requires Once(s, opening) && FillLog(s.worker.db.markets, start, log) == Some(s.worker.db.orders)
    ensures var w' := Tick(h, s.worker, fault);
            && w'.db.markets == s.worker.db.markets
            && FillLog(w'.db.markets, start, log + Committed(h, s.worker, fault.broken)) == Some(w'.db.orders)
  {
    var w := s.worker;
    var i := NextRow(w.events);
    if !w.halted && i < |w.events| && Attempt(h, w.db, w.events[i], fault.broken).Ok? {
      assert w.events[i] in w.events && RowsMatch(w.db, w.events[i]);
      CommitFills(h, w.db, w.events[i]);
      hide Process, FillOrders, Once, RowsMatch, QtyOf;
      FillLogSnoc(w.db.markets, start, log, w.events[i].payload);
    } else {
      hide Process, Once;
      assert log + [] == log;
    }
  }

  /** The order table is at every moment what the commits so far have made of it. */
  lemma {:induction false} OrdersFollowCommits(h: Hashes, s: State, actions: seq<Action>, opening: nat)
    requires Once(s, opening)
    ensures var db := Run(h, s, actions).worker.db;
            && db.markets == s.worker.db.markets
            && FillLog(db.markets, s.worker.db.orders, CommitLog(h, s, actions)) == Some(db.orders)
  {
    if actions != [] {
      var n := |actions| - 1;
      OrdersFollowCommits(h, s, actions[..n], opening);
      ExactlyOnce(h, s, actions[..n], opening);
      var before := Run(h, s, actions[..n]);
      hide Once, Tick, FillLog, Committed;
      if actions[n].Work? {
        TickOrders(h, before, actions[n].fault, opening, s.worker.db.orders, CommitLog(h, s, actions[..n]));
      } else {
        assert CommitLog(h, s, actions[..n]) + [] == CommitLog(h, s, actions[..n]);
      }
    }
  }

  // ----- the commits are the processed events

  function SettledPayloads(events: seq<EventRow>): seq<Payload> {
    if events == [] then []
    else
      var last := events[|events| - 1];
      SettledPayloads(events[..|events| - 1]) + if last.status == Processed then [last.payload] else []
  }

  lemma {:induction false} SameSettled(a: seq<EventRow>, b: seq<EventRow>)
    requires |a| == |b|
    requires forall i :: 0 <= i < |a| ==> (a[i].status == Processed <==> b[i].status == Processed)
                                          && (a[i].status == Processed ==> a[i].payload == b[i].payload)
    ensures SettledPayloads(a) == SettledPayloads(b)
  {
    if a != [] {
      SameSettled(a[..|a| - 1], b[..|b| - 1]);
    }
  }

  lemma {:induction false} WithoutSettled(events: seq<EventRow>, status: Status)
    requires status != Processed
    ensures SettledPayloads(Without(events, status)) == SettledPayloads(events)
  {
    if events != [] {
      var n := |events| - 1;
      WithoutSettled(events[..n], status);
      var before := Without(events[..n], status);
      assert (before + [events[n]])[..|before|] == before && before + [] == before;
    }
  }

  lemma SettledSnoc(events: seq<EventRow>)
    requires events != []
    ensures var last := events[|events| - 1];
            multiset(SettledPayloads(events))
            == multiset(SettledPayloads(events[..|events| - 1])) + if last.status == Processed then multiset{last.payload} else multiset{}
  {
  }

  lemma {:induction false} OneMoreSettled(events: seq<EventRow>, i: nat, row: EventRow)
    requires i < |events| && events[i].status != Processed && row.status == Processed
    ensures multiset(SettledPayloads(events[i := row])) == multiset(SettledPayloads(events)) + multiset{row.payload}
  {
    hide SettledPayloads;
    var n := |events| - 1;
    SettledSnoc(events);
    SettledSnoc(events[i := row]);
    if i == n {
      assert events[i := row][..n] == events[..n];
    } else {
      assert events[i := row][..n] == events[..n][i := row];
      OneMoreSettled(events[..n], i, row);
    }
  }

  lemma ActionSettles(h: Hashes, s: State, a: Action)
    ensures multiset(SettledPayloads(Do(h, s, a).worker.events))
            == multiset(SettledPayloads(s.worker.events)) + multiset(if a.Work? then Committed(h, s.worker, a.fault.broken) else [])
  {
    hide Process;
    var events := s.worker.events;
    match a
    case Work(fault) =>
      var i := NextRow(events);
      if !s.worker.halted && i < |events| {
        var r := Attempt(h, s.worker.db, events[i], fault.broken);
        if r.Ok? {
          OneMoreSettled(events, i, MarkProcessed(events[i], r.value.1));
        } else {
          SameSettled(events, events[i := Recorded(events[i], r.error, fault.cut)]);
        }
      }
    case Stall =>
    case Arrive(p) =>
      var row := EventRow(s.nextId, p, Pending, 0, None);
      assert (events + [row])[..|events|] == events;
    case RetryFailed => SameSettled(events, RetryAll(events));
    case DeleteFailed => WithoutSettled(events, Failed);
    case Unstick(max) => SameSettled(events, UnstickAbove(events, max));
    case DeletePending => WithoutSettled(events, Pending);
    case CloseCircuit =>
  }

  /** The events processed after a run are those processed before and those it committed. */
  lemma {:induction false} CommitsAreSettled(h: Hashes, s: State, actions: seq<Action>)
    ensures multiset(SettledPayloads(Run(h, s, actions).worker.events))
            == multiset(SettledPayloads(s.worker.events)) + multiset(CommitLog(h, s, actions))
  {
    if actions != [] {
      var n := |actions| - 1;
      CommitsAreSettled(h, s, actions[..n]);
      hide Do, Committed, SettledPayloads;
      ActionSettles(h, Run(h, s, actions[..n]), actions[n]);
    }
  }

  // ----- from payloads back to the engine's events

  function PayloadsOf(events: seq<MatchEvent>): (ps: seq<Payload>)
    ensures |ps| == |events|
    ensures forall i :: 0 <= i < |events| ==> ps[i] == AG.PayloadOf(events[i])
  {
    seq(|events|, i requires 0 <= i < |events| => AG.PayloadOf(events[i]))
  }

  lemma PayloadsSplit(events: seq<MatchEvent>, k: nat)
    requires k < |events|
    ensures PayloadsOf(events[..k] + events[k + 1..]) == PayloadsOf(events)[..k] + PayloadsOf(events)[k + 1..]
    ensures multiset(PayloadsOf(events)) == multiset(PayloadsOf(events[..k] + events[k + 1..])) + multiset{AG.PayloadOf(events[k])}
  {
    var ps := PayloadsOf(events);
    assert ps == ps[..k] + [ps[k]] + ps[k + 1..];
  }

  lemma SnocMultiset<T>(s: seq<T>, x: T)
    ensures multiset(s + [x]) == multiset(s) + multiset{x}
  {
  }

  lemma Cancel(a: multiset<Payload>, b: multiset<Payload>, x: Payload)
    requires a + multiset{x} <= b + multiset{x}
    ensures a <= b
    ensures a + multiset{x} == b + multiset{x} ==> a == b
  {
    var a', b' := a + multiset{x}, b + multiset{x};
    forall y ensures a[y] <= b[y] && (a' == b' ==> a[y] == b[y]) {
      assert a'[y] <= b'[y];
    }
  }

  lemma NoPayloads(events: seq<MatchEvent>)
    requires multiset(PayloadsOf(events)) == multiset{}
    ensures events == []
  {
    assert |multiset(PayloadsOf(events))| == |events|;
  }

  lemma FindPayload(events: seq<MatchEvent>, p: Payload) returns (k: nat)
    requires p in multiset(PayloadsOf(events))
    ensures k < |events| && AG.PayloadOf(events[k]) == p
  {
    k :| 0 <= k < |events| && PayloadsOf(events)[k] == p;
  }

  lemma PayloadsSnoc(es: seq<MatchEvent>, e: MatchEvent)
    ensures PayloadsOf(es + [e]) == PayloadsOf(es) + [AG.PayloadOf(e)]
  {
  }

  /** Payloads that came from these events came from them in some order. */
  lemma {:induction false} PullBack(ps: seq<Payload>, events: seq<MatchEvent>) returns (es: seq<MatchEvent>)
    requires multiset(ps) <= multiset(PayloadsOf(events))
    ensures PayloadsOf(es) == ps && multiset(es) <= multiset(events)
    ensures multiset(ps) == multiset(PayloadsOf(events)) ==> multiset(es) == multiset(events)
    decreases |ps|
  {
    hide PayloadsOf, AG.PayloadOf;
    if ps == [] {
      es := [];
      if multiset(PayloadsOf(events)) == multiset{} {
        NoPayloads(events);
      }
    } else {
      var n := |ps| - 1;
      assert ps == ps[..n] + [ps[n]];
      SnocMultiset(ps[..n], ps[n]);
      var k := FindPayload(events, ps[n]);
      var rest := events[..k] + events[k + 1..];
      PayloadsSplit(events, k);
      Cancel(multiset(ps[..n]), multiset(PayloadsOf(rest)), ps[n]);
      var before := PullBack(ps[..n], rest);
      es := before + [events[k]];
      PayloadsSnoc(before, events[k]);
      SnocMultiset(before, events[k]);
      AG.MultisetRemove(events, k);
      assert events[k] in multiset(events);
    }
  }

  /** On the market's grid, settling payloads is settling the engine's events. */
  lemma {:induction false} FillLogIsFillAll(markets: map<string, MarketRow>, g: OA.Grid, start: map<nat, OrderRow>, es: seq<MatchEvent>)
    requires g.qty > 0 && g.market in markets && markets[g.market].qtyUnit == g.qty
    requires forall e :: e in es ==> e.market == g.market
    ensures FillLog(markets, start, PayloadsOf(es)) == AG.FillAll(start, es, g.qty)
  {
    if es != [] {
      var n := |es| - 1;
      FillLogIsFillAll(markets, g, start, es[..n]);
      assert PayloadsOf(es)[..n] == PayloadsOf(es[..n]) && es[n] in es;
    }
  }

  // ----- the fills of some orders among all the others

  predicate Touches(ids: set<nat>, p: Payload) {
    p.takerOrder in ids || p.makerOrder in ids
  }

  /** The payloads that touch one of these orders. */
  function Touching(ids: set<nat>, ps: seq<Payload>): seq<Payload> {
    if ps == [] then []
    else
      var n := |ps| - 1;
      Touching(ids, ps[..n]) + if Touches(ids, ps[n]) then [ps[n]] else []
  }

  lemma {:induction false} TouchingCount(ids: set<nat>, ps: seq<Payload>, p: Payload)
    ensures multiset(Touching(ids, ps))[p] == if Touches(ids, p) then multiset(ps)[p] else 0
  {
    if ps != [] {
      var n := |ps| - 1;
      TouchingCount(ids, ps[..n], p);
      assert ps == ps[..n] + [ps[n]];
      SnocMultiset(ps[..n], ps[n]);
      SnocMultiset(Touching(ids, ps[..n]), ps[n]);
    }
  }

  /** Nothing passes between these orders and the others. */
  ghost predicate Within(ids: set<nat>, ps: seq<Payload>) {
    forall p :: p in ps && Touches(ids, p) ==> p.takerOrder in ids && p.makerOrder in ids
  }

  ghost predicate SameOn(ids: set<nat>, a: map<nat, OrderRow>, b: map<nat, OrderRow>) {
    forall id :: id in ids ==> (id in a <==> id in b) && (id in a ==> a[id] == b[id])
  }

  lemma FillAlike(ids: set<nat>, a: map<nat, OrderRow>, b: map<nat, OrderRow>, p: Payload, q: int)
    requires SameOn(ids, a, b) && p.takerOrder in ids && p.makerOrder in ids
    requires FillOrders(a, p.takerOrder, p.makerOrder, q).Some?
    ensures var b' := FillOrders(b, p.takerOrder, p.makerOrder, q);
            b'.Some? && SameOn(ids, FillOrders(a, p.takerOrder, p.makerOrder, q).value, b'.value)
  {
  }

  lemma FillElsewhere(ids: set<nat>, a: map<nat, OrderRow>, b: map<nat, OrderRow>, p: Payload, q: int)
    requires SameOn(ids, a, b) && !Touches(ids, p) && FillOrders(a, p.takerOrder, p.makerOrder, q).Some?
    ensures SameOn(ids, FillOrders(a, p.takerOrder, p.makerOrder, q).value, b)
  {
  }

  /** The rows of these orders depend on the payloads that touch them and on no others. */
  lemma {:induction false} FillLogTouching(markets: map<string, MarketRow>, start: map<nat, OrderRow>, ps: seq<Payload>, ids: set<nat>)
    requires Within(ids, ps) && FillLog(markets, start, ps).Some?
    ensures var some := FillLog(markets, start, Touching(ids, ps));
            some.Some? && SameOn(ids, FillLog(markets, start, ps).value, some.value)
  {
    if ps != [] {
      var n := |ps| - 1;
      var p := ps[n];
      assert p in ps;
      FillLogTouching(markets, start, ps[..n], ids);
      var all, some := FillLog(markets, start, ps[..n]).value, FillLog(markets, start, Touching(ids, ps[..n])).value;
      hide FillOrders, SameOn, QtyOf;
      if Touches(ids, p) {
        FillAlike(ids, all, some, p, QtyOf(markets, p));
        FillLogSnoc(markets, start, Touching(ids, ps[..n]), p);
      } else {
        FillElsewhere(ids, all, some, p, QtyOf(markets, p));
        assert Touching(ids, ps) == Touching(ids, ps[..n]);
      }
    }
  }

  lemma TouchingWithin(ids: set<nat>, ps: seq<Payload>, events: seq<MatchEvent>)
    requires multiset(Touching(ids, ps)) <= multiset(PayloadsOf(events))
    requires forall e :: e in events ==> e.takerOrder in ids && e.makerOrder in ids
    ensures Within(ids, ps)
  {
    forall p | p in ps && Touches(ids, p) ensures p.takerOrder in ids && p.makerOrder in ids {
      TouchingCount(ids, ps, p);
      assert p in multiset(ps) && p in multiset(Touching(ids, ps)) && p in multiset(PayloadsOf(events));
      var k := FindPayload(events, p);
    }
  }

  lemma TouchingSum(ids: set<nat>, whole: seq<Payload>, first: seq<Payload>, rest: seq<Payload>)
    requires multiset(whole) == multiset(first) + multiset(rest)
    ensures multiset(Touching(ids, whole)) == multiset(Touching(ids, first)) + multiset(Touching(ids, rest))
  {
    forall p ensures multiset(Touching(ids, whole))[p] == multiset(Touching(ids, first))[p] + multiset(Touching(ids, rest))[p] {
      TouchingCount(ids, whole, p);
      TouchingCount(ids, first, p);
      TouchingCount(ids, rest, p);
    }
  }

  lemma EventsOfMarket(g: OA.Grid, moves: seq<OA.Move>)
    requires g.price > 0 && g.qty > 0 && OA.Orderly(g, moves)
    ensures var t := OA.Traded(OA.NOTHING, moves);
            && (forall e :: e in t.events ==> e.market == g.market && e.takerOrder in t.placed && e.makerOrder in t.placed)
            && (forall x :: OA.On(t.book, x) ==> x.id in t.placed)
  {
    var t := OA.Traded(OA.NOTHING, moves);
    OA.OrdersAreConserved(g, moves);
    hide OA.Traded, OA.Orderly;
    forall e | e in t.events ensures e.market == g.market && e.takerOrder in t.placed && e.makerOrder in t.placed {
      assert OA.EventOnGrid(g, e) && OA.Sound(t.placed, e);
    }
    forall x | OA.On(t.book, x) ensures x.id in t.placed {
      assert OA.Remains(t, x);
    }
  }

  lemma SameMarket(es: seq<MatchEvent>, events: seq<MatchEvent>, market: string)
    requires multiset(es) <= multiset(events) && forall e :: e in events ==> e.market == market
    ensures forall e :: e in es ==> e.market == market
  {
    forall e | e in es ensures e.market == market {
      assert e in multiset(es) && e in multiset(events);
    }
  }

  /** Run the worker in any way at all, with failures, crashes, resets and deletes in between,
      and with any other events, of this market or others, that touch none of these orders.
      Once the processed events that touch them are exactly the engine's, the order table
      holds for every resting order what the engine has left of it, and every used-up order
      is marked filled. */
  lemma WorkerAgreesWithEngine(h: Hashes, g: OA.Grid, moves: seq<OA.Move>, s: State, actions: seq<Action>, opening: nat)
    requires g.price > 0 && g.qty > 0 && OA.Orderly(g, moves) && Once(s, opening)
    requires g.market in s.worker.db.markets && s.worker.db.markets[g.market].qtyUnit == g.qty
    requires var t := OA.Traded(OA.NOTHING, moves);
             && AG.Listed(t, s.worker.db.orders)
             && Touching(t.placed.Keys, SettledPayloads(s.worker.events)) == []
             && multiset(Touching(t.placed.Keys, SettledPayloads(Run(h, s, actions).worker.events))) == multiset(PayloadsOf(t.events))
    ensures var t, o := OA.Traded(OA.NOTHING, moves), Run(h, s, actions).worker.db.orders;
            && (forall x :: OA.On(t.book, x) ==> x.id in o && o[x.id].remaining == x.remaining)
            && (forall id :: id in t.placed && t.placed[id] > 0 && !OA.Resting(t.book, id) && id !in t.cancelled ==>
                  id in o && o[id].remaining == 0 && o[id].status == Filled)
  {
    OrdersFollowCommits(h, s, actions, opening);
    CommitsAreSettled(h, s, actions);
    EventsOfMarket(g, moves);
    var log, t := CommitLog(h, s, actions), OA.Traded(OA.NOTHING, moves);
    var ids, start, markets := t.placed.Keys, s.worker.db.orders, s.worker.db.markets;
    hide Run, CommitLog, Once, OA.Traded, OA.Orderly, AG.Listed, AG.FillAll, FillLog, PayloadsOf, Touching;
    TouchingSum(ids, SettledPayloads(Run(h, s, actions).worker.events), SettledPayloads(s.worker.events), log);
    assert multiset(Touching(ids, log)) == multiset(PayloadsOf(t.events));
    TouchingWithin(ids, log, t.events);
    FillLogTouching(markets, start, log, ids);
    var es := PullBack(Touching(ids, log), t.events);
    SameMarket(es, t.events, g.market);
    FillLogIsFillAll(markets, g, start, es);
    AG.EngineAndSettlementAgree(g, moves, start, es);
  }
}
