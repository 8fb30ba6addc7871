/** Plain placements: their book is stored before they take their event ids. */
module PlainPlacements {
  import opened Types
  import opened EventBuffer
  import opened Wal
  import opened Engine
  import opened PossibleFills
  import opened CrashProtocol

  /** Two plain placements of one market, both with ids, the one stored first with the lower. */
  ghost predicate Ranked(a: Ticket, b: Ticket) {
    a.market == b.market && a.start.Some? && b.start.Some? ==> a.start.value < b.start.value
  }

  /** Each market's plain placements have taken ids in the order its book took their fills. */
  ghost predicate InTurn(tickets: seq<Ticket>) {
    forall j, k :: 0 <= j < k < |tickets| ==> Ranked(tickets[j], tickets[k])
  }

  // ----- when the ids follow the book

  ghost predicate Settled(tickets: seq<Ticket>, market: string) {
    forall k :: k in tickets && k.market == market ==> k.start.Some?
  }

  /** A run in which no plain placement stores its book while another of its market waits for
      its ids. */
  ghost predicate PatientRun(c: Config, s: State, actions: seq<Action>)
    decreases |actions|
  {
    if actions == [] then true
    else
      && Enabled(s, actions[0])
      && (actions[0].StorePlain? ==> Settled(s.tickets, actions[0].market))
      && PatientRun(c, Do(c, s, actions[0]), actions[1..])
  }

  /** Only the last ticket of a market can be without ids, and the counter is past the rest. */
  ghost predicate Turns(tickets: seq<Ticket>, next: nat) {
    && InTurn(tickets)
    && (forall j, k :: 0 <= j < k < |tickets| && tickets[j].market == tickets[k].market ==> tickets[j].start.Some?)
    && (forall k :: k in tickets ==> k.fills != [] && (k.start.Some? ==> k.start.value < next))
  }

  lemma BackgroundTickets(c: Config, s: State, a: Action)
    requires Enabled(s, a) && Background(a)
    ensures Do(c, s, a).tickets == s.tickets && Do(c, s, a).next == s.next && Do(c, s, a).alive == s.alive
  {
    hide Lines, Noting, Numbered, Streamed, Compact, Possible, PairsOf, AfterSending, Locks, Ids, WalRows;
  }

  lemma PlacementTickets(c: Config, s: State, a: Action)
    requires Enabled(s, a) && !Background(a) && !a.StorePlain? && !a.NumberPlain? && !a.Crash? && !a.Recover?
    ensures Do(c, s, a).tickets == s.tickets && s.next <= Do(c, s, a).next && Do(c, s, a).alive == s.alive
  {
    hide Lines, Noting, Numbered, Streamed, Compact, Possible, PairsOf, AfterSending, Locks, Ids, WalRows;
  }

  lemma RestartTickets(c: Config, s: State, a: Action)
    requires Enabled(s, a) && (a.Crash? || a.Recover?)
    ensures a.Crash? ==> Do(c, s, a).tickets == []
    ensures a.Recover? ==> !s.alive && Do(c, s, a).tickets == s.tickets
  {
    hide Scan, ReplayLog, Noting, Entries;
  }

  lemma OneMoreTicket(tickets: seq<Ticket>, next: nat, k: Ticket)
    requires Turns(tickets, next) && Settled(tickets, k.market) && k.start.None? && k.fills != []
    ensures Turns(tickets + [k], next)
  {
    var all := tickets + [k];
    forall i, j | 0 <= i < j < |all| ensures Ranked(all[i], all[j]) && (all[i].market == all[j].market ==> all[i].start.Some?) {
      assert tickets[i] in tickets;
    }
  }

  lemma TicketNumbered(tickets: seq<Ticket>, next: nat, n: nat)
    requires Turns(tickets, next) && n < |tickets| && tickets[n].start.None?
    ensures Turns(tickets[n := tickets[n].(start := Some(next))], next + |tickets[n].fills|)
  {
    var after, next' := tickets[n := tickets[n].(start := Some(next))], next + |tickets[n].fills|;
    assert tickets[n] in tickets;
    forall j, k | 0 <= j < k < |after| ensures Ranked(after[j], after[k]) {
      assert tickets[j] in tickets && tickets[k] in tickets && Ranked(tickets[j], tickets[k]);
    }
    forall k | k in after ensures k.fills != [] && (k.start.Some? ==> k.start.value < next') {
      var i :| 0 <= i < |after| && after[i] == k;
      assert tickets[i] in tickets;
    }
  }

  lemma StoredTicket(c: Config, s: State, t: nat)
    requires Inv(c, s) && t in s.threads && s.threads[t].Stored?
    ensures s.threads[t].ticket < |s.tickets| && s.tickets[s.threads[t].ticket].start.None?
  {
    hide Core, Disjoint, TicketInv;
  }

  lemma StoresFills(s: State, a: Action)
    requires Enabled(s, a) && a.StorePlain?
    ensures a.fills != []
  {
  }

  lemma ActionKeepsTurns(c: Config, s: State, a: Action)
    requires Inv(c, s) && Turns(s.tickets, s.next) && Enabled(s, a) && (a.StorePlain? ==> Settled(s.tickets, a.market))
    ensures Turns(Do(c, s, a).tickets, Do(c, s, a).next)
  {
    hide Do, Enabled, Inv;
    if a.StorePlain? {
      hide Turns;
      StorePlainIs(c, s, a.t, a.market, a.fills);
      StoresFills(s, a);
      OneMoreTicket(s.tickets, s.next, Ticket(a.market, a.fills, None));
    } else if a.NumberPlain? {
      hide Turns;
      NumberPlainIs(c, s, a.t);
      StoredTicket(c, s, a.t);
      TicketNumbered(s.tickets, s.next, s.threads[a.t].ticket);
    } else if Background(a) {
      BackgroundTickets(c, s, a);
    } else if a.Crash? || a.Recover? {
      RestartTickets(c, s, a);
      if !s.alive {
        DownIsEmpty(c, s);
      }
    } else {
      PlacementTickets(c, s, a);
    }
  }

  lemma {:induction false} RunKeepsTurns(c: Config, s: State, actions: seq<Action>)
    requires Inv(c, s) && Turns(s.tickets, s.next) && PatientRun(c, s, actions) && FreshRun(c, s, actions)
    ensures Run(c, s, actions) && Turns(After(c, s, actions).tickets, After(c, s, actions).next)
    decreases |actions|
  {
    if actions != [] {
      hide Inv, Turns, Enabled, Do, FreshCounter, Settled;
      ActionKeeps(c, s, actions[0]);
      ActionKeepsTurns(c, s, actions[0]);
      RunKeepsTurns(c, Do(c, s, actions[0]), actions[1..]);
    }
  }

  /** Plain placements take ids in the order their market's book took their fills, as long as
      none stores its book while another of the market still waits for its ids. */
  lemma PlainIdsInOrder(c: Config, actions: seq<Action>)
    requires PatientRun(c, CrashProtocol.INITIAL, actions) && FreshRun(c, CrashProtocol.INITIAL, actions)
    ensures Run(c, CrashProtocol.INITIAL, actions) && InTurn(After(c, CrashProtocol.INITIAL, actions).tickets)
  {
    InitialInv(c);
    hide Inv, Enabled, Do;
    RunKeepsTurns(c, CrashProtocol.INITIAL, actions);
  }

  // ----- when they need not

  /** The overtaking placement: it stores its book and takes its ids, then the first does. */
  function Overtaking(t: nat, u: nat, m: string): seq<Action> {
    [StorePlain(u, m, Series(m, 1, 1)), NumberPlain(u), NumberPlain(t)]
  }

  lemma RunFirst(c: Config, s: State, a: Action, s': State, rest: seq<Action>)
    requires Enabled(s, a) && Do(c, s, a) == s' && Run(c, s', rest)
    ensures Run(c, s, [a] + rest) && After(c, s, [a] + rest) == After(c, s', rest)
  {
    hide Enabled, Do;
    assert ([a] + rest)[1..] == rest;
  }

  lemma NumberStep(c: Config, s: State, t: nat, k: nat, s': State)
    requires t in s.threads && s.threads[t] == Stored(k) && k < |s.tickets|
    requires s' == s.(threads := s.threads - {t}, tickets := s.tickets[k := s.tickets[k].(start := Some(s.next))],
                      next := s.next + |s.tickets[k].fills|)
    ensures Enabled(s, NumberPlain(t)) && Do(c, s, NumberPlain(t)) == s'
  {
  }

  lemma StoreStep(c: Config, s: State, t: nat, m: string, fills: seq<MatchEvent>)
    requires s.alive && t !in s.threads && fills != [] && Possible(m, fills) && forall v :: v in s.threads ==> !Locks(s.threads[v], m)
    ensures Enabled(s, StorePlain(t, m, fills))
  {
    hide Possible, Locks;
  }

  /** Whenever a plain placement has stored its book and not taken its ids, the market being
      unlocked, another can overtake it: the ids then go against the order of the book. */
  lemma PlainMayOvertake(c: Config, s: State, t: nat, u: nat)
    requires s.alive && t in s.threads && u !in s.threads && s.threads[t].Stored? && s.threads[t].ticket < |s.tickets|
    requires forall v :: v in s.threads ==> !Locks(s.threads[v], s.tickets[s.threads[t].ticket].market)
    ensures var m := s.tickets[s.threads[t].ticket].market;
            Run(c, s, Overtaking(t, u, m)) && !InTurn(After(c, s, Overtaking(t, u, m)).tickets)
  {
    hide Do, Enabled, Locks, InTurn, Run, After;
    var m, n := s.tickets[s.threads[t].ticket].market, |s.tickets|;
    var fills := Series(m, 1, 1);
    SeriesIsPossible(m, 1, 1);
    hide Series, Possible;
    StoreStep(c, s, u, m, fills);
    StorePlainIs(c, s, u, m, fills);
    var s1 := Do(c, s, StorePlain(u, m, fills));
    var s3 := Overtake(c, s1, t, u);
    RunFirst(c, s, StorePlain(u, m, fills), s1, [NumberPlain(u), NumberPlain(t)]);
    assert [StorePlain(u, m, fills)] + [NumberPlain(u), NumberPlain(t)] == Overtaking(t, u, m);
  }

  /** Two that wait, and the later one goes first. */
  lemma Overtake(c: Config, s: State, t: nat, u: nat) returns (s': State)
    requires t in s.threads && u in s.threads && t != u && s.threads[t].Stored? && s.threads[u].Stored?
    requires s.threads[t].ticket < s.threads[u].ticket < |s.tickets|
    requires s.tickets[s.threads[t].ticket].market == s.tickets[s.threads[u].ticket].market
    ensures Run(c, s, [NumberPlain(u), NumberPlain(t)]) && After(c, s, [NumberPlain(u), NumberPlain(t)]) == s' && !InTurn(s'.tickets)
  {
    hide Do, Enabled, Run, After;
    var k, n := s.threads[t].ticket, s.threads[u].ticket;
    var s2 := s.(threads := s.threads - {u}, tickets := s.tickets[n := s.tickets[n].(start := Some(s.next))],
                 next := s.next + |s.tickets[n].fills|);
    s' := s2.(threads := s2.threads - {t}, tickets := s2.tickets[k := s2.tickets[k].(start := Some(s2.next))],
              next := s2.next + |s2.tickets[k].fills|);
    NumberStep(c, s, u, n, s2);
    NumberStep(c, s2, t, k, s');
    RunNone(c, s');
    RunFirst(c, s2, NumberPlain(t), s', []);
    assert [NumberPlain(t)] + [] == [NumberPlain(t)];
    RunFirst(c, s, NumberPlain(u), s2, [NumberPlain(t)]);
    assert [NumberPlain(u)] + [NumberPlain(t)] == [NumberPlain(u), NumberPlain(t)];
    assert !Ranked(s'.tickets[k], s'.tickets[n]);
  }

  lemma RunNone(c: Config, s: State)
    ensures Run(c, s, []) && After(c, s, []) == s
  {
  }

  /** Two plain placements of a market, from the start: the second to reach the book takes the
      lower id. */
  lemma PlainDisorder(c: Config)
    ensures var actions := [StorePlain(0, "M", Series("M", 1, 1))] + Overtaking(0, 1, "M");
            Run(c, CrashProtocol.INITIAL, actions) && !InTurn(After(c, CrashProtocol.INITIAL, actions).tickets)
  {
    var s := CrashProtocol.INITIAL;
    var fills := Series("M", 1, 1);
    SeriesIsPossible("M", 1, 1);
    hide Series, Possible;
    StoreStep(c, s, 0, "M", fills);
    StorePlainIs(c, s, 0, "M", fills);
    var s1 := Do(c, s, StorePlain(0, "M", fills));
    hide Do, Enabled, InTurn, Overtaking;
    PlainMayOvertake(c, s1, 0, 1);
    RunFirst(c, s, StorePlain(0, "M", fills), s1, Overtaking(0, 1, "M"));
  }
}
