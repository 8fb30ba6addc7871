/** Two exact conditions on restarts: when a market's ids stay in order, and which restored
    counters are safe. */
module CrashRestarts {
  import opened Types
  import opened EventBuffer
  import opened Wal
  import opened Engine
  import opened PossibleFills
  import opened CrashProtocol

  // ----- the order in which a market's book takes ids

  ghost predicate InOrder(log: map<string, seq<nat>>) {
    forall m :: m in log ==> Rising(log[m])
  }

  /** Every row the restored books do not hold comes after all those its market's book holds. */
  ghost predicate Above(saved: map<string, seq<nat>>, rows: seq<Row>) {
    forall r :: r in rows && r.id !in Applied(saved) ==> AllBelow(LogOf(saved, r.event.market), r.id)
  }

  ghost predicate AllBelow(ids: seq<nat>, bound: nat) {
    forall id :: id in ids ==> id < bound
  }

  lemma RisingSnoc(ids: seq<nat>, id: nat)
    requires Rising(ids) && AllBelow(ids, id)
    ensures Rising(ids + [id])
  {
    var all := ids + [id];
    forall i, j | 0 <= i < j < |all| ensures all[i] < all[j] {
      assert ids[i] in ids;
    }
  }

  lemma AboveFewer(saved: map<string, seq<nat>>, rows: seq<Row>)
    requires Above(saved, rows) && rows != []
    ensures Above(saved, rows[..|rows| - 1])
  {
    hide Applied, AllBelow;
  }

  lemma {:induction false} ReplayInOrder(saved: map<string, seq<nat>>, rows: seq<Row>)
    requires InOrder(saved) && Ascending(rows) && Above(saved, rows)
    ensures InOrder(ReplayLog(saved, rows))
  {
    if rows != [] {
      var n := |rows| - 1;
      var r, log := rows[n], ReplayLog(saved, rows[..n]);
      AboveFewer(saved, rows);
      ReplayInOrder(saved, rows[..n]);
      if r.id !in Applied(saved) {
        var ids := LogOf(log, r.event.market);
        ReplayDraws(saved, rows[..n]);
        assert r in rows;
        forall id | id in ids ensures id < r.id {
          if id !in LogOf(saved, r.event.market) {
            LastRowIsNew(rows, id);
          }
        }
        RisingSnoc(ids, r.id);
      }
    }
  }

  /** Replay goes on from what was saved. */
  lemma {:induction false} ReplayKeepsSaved(saved: map<string, seq<nat>>, rows: seq<Row>, m: string)
    ensures LogOf(saved, m) <= LogOf(ReplayLog(saved, rows), m)
  {
    if rows != [] {
      ReplayKeepsSaved(saved, rows[..|rows| - 1], m);
      hide Applied;
    }
  }

  lemma {:induction false} ReplayTakes(saved: map<string, seq<nat>>, rows: seq<Row>, r: Row)
    requires r in rows && r.id !in Applied(saved)
    ensures r.id in LogOf(ReplayLog(saved, rows), r.event.market)
  {
    var n := |rows| - 1;
    assert rows == rows[..n] + [rows[n]];
    if r != rows[n] {
      ReplayTakes(saved, rows[..n], r);
    }
    hide Applied;
  }

  /** A restart keeps each market's ids in order if and only if every scanned row that the
      restored books do not hold comes after all those its market's book holds. */
  lemma RestartOrder(c: Config, s: State, counter: nat)
    requires !s.alive && InOrder(s.saved)
    ensures InOrder(Do(c, s, Recover(counter)).bookLog) <==> Above(s.saved, Scan(c.engine, s.journal))
  {
    var rows := Scan(c.engine, s.journal);
    ScanAnswers(c.engine, s.journal, 0);
    RecoverIs(c, s, counter);
    hide Scan, Do, InOrder, Above, Entries, Noting, ReplayLog;
    if Above(s.saved, rows) {
      ReplayInOrder(s.saved, rows);
    }
    if InOrder(ReplayLog(s.saved, rows)) {
      OrderedReplay(s.saved, rows);
    }
  }

  lemma OrderedReplay(saved: map<string, seq<nat>>, rows: seq<Row>)
    requires InOrder(ReplayLog(saved, rows))
    ensures Above(saved, rows)
  {
    forall r | r in rows && r.id !in Applied(saved) ensures AllBelow(LogOf(saved, r.event.market), r.id) {
      ReplayTakes(saved, rows, r);
      ReplayKeepsSaved(saved, rows, r.event.market);
      hide ReplayLog, Applied;
      SavedBelow(LogOf(saved, r.event.market), LogOf(ReplayLog(saved, rows), r.event.market), r.id, saved, r.event.market);
    }
  }

  lemma SavedBelow(before: seq<nat>, all: seq<nat>, id: nat, saved: map<string, seq<nat>>, m: string)
    requires before <= all && Rising(all) && id in all && before == LogOf(saved, m) && id !in Applied(saved)
    ensures AllBelow(before, id)
  {
    var j :| 0 <= j < |all| && all[j] == id;
    if j < |before| {
      assert before[j] == id;
      AppliedHas(saved, m, id);
    }
    forall k | k in before ensures k < id {
      var i :| 0 <= i < |before| && before[i] == k;
      assert all[i] == k;
    }
  }

  /** A run in which every restart also finds its unreplayed rows above the restored ids. */
  ghost predicate OrderedRun(c: Config, s: State, actions: seq<Action>)
    decreases |actions|
  {
    if actions == [] then true
    else
      && Enabled(s, actions[0])
      && (actions[0].Recover? ==> FreshCounter(s, actions[0].counter) && Above(s.saved, Scan(c.engine, s.journal)))
      && OrderedRun(c, Do(c, s, actions[0]), actions[1..])
  }

  lemma CommitInOrder(c: Config, s: State, t: nat)
    requires ThreadsInv(c, s) && Enabled(s, CommitBook(t)) && InOrder(s.bookLog)
    ensures InOrder(Do(c, s, CommitBook(t)).bookLog)
  {
    var p := s.threads[t];
    assert ThreadInv(c, s, p);
    hide Latest, Noting;
    RisingAppend(LogOf(s.bookLog, p.market), p.pairs);
  }

  lemma BackgroundLogs(c: Config, s: State, a: Action)
    requires Enabled(s, a) && Background(a) && !a.Snapshot?
    ensures Do(c, s, a).bookLog == s.bookLog && Do(c, s, a).saved == s.saved
  {
    hide Lines, Noting, Numbered, Streamed, Compact, Possible, PairsOf, AfterSending, Locks, Ids, WalRows;
  }

  lemma PlacementLogs(c: Config, s: State, a: Action)
    requires Enabled(s, a) && !Background(a) && !a.CommitBook? && !a.Crash? && !a.Recover?
    ensures Do(c, s, a).bookLog == s.bookLog && Do(c, s, a).saved == s.saved
  {
    hide Lines, Noting, Numbered, Streamed, Compact, Possible, PairsOf, AfterSending, Locks, Ids, WalRows;
  }

  /** Only commits, snapshots, crashes and restarts touch the logs. */
  lemma LogsUntouched(c: Config, s: State, a: Action)
    requires Enabled(s, a) && !a.CommitBook? && !a.Snapshot? && !a.Crash? && !a.Recover?
    ensures Do(c, s, a).bookLog == s.bookLog && Do(c, s, a).saved == s.saved
  {
    hide *;
    if Background(a) {
      BackgroundLogs(c, s, a);
    } else {
      PlacementLogs(c, s, a);
    }
  }

  lemma LogsTouched(c: Config, s: State, a: Action)
    requires Enabled(s, a)
    ensures a.Snapshot? ==> Do(c, s, a).bookLog == s.bookLog && Do(c, s, a).saved == s.bookLog
    ensures a.Crash? ==> Do(c, s, a).bookLog == map[] && Do(c, s, a).saved == s.saved
    ensures a.Recover? || a.CommitBook? ==> Do(c, s, a).saved == s.saved
    ensures a.Recover? ==> !s.alive
  {
    hide Lines, Noting, Numbered, Streamed, Compact, Possible, PairsOf, AfterSending, Locks, Holds, Ids, Scan, ReplayLog, LogOf, IdsOf, Entries, WalRows;
  }

  lemma NothingInOrder()
    ensures InOrder(map[])
  {
  }

  lemma ActionKeepsOrder(c: Config, s: State, a: Action)
    requires ThreadsInv(c, s) && Enabled(s, a) && InOrder(s.bookLog) && InOrder(s.saved)
    requires a.Recover? ==> Above(s.saved, Scan(c.engine, s.journal))
    ensures InOrder(Do(c, s, a).bookLog) && InOrder(Do(c, s, a).saved)
  {
    hide *;
    NothingInOrder();
    LogsTouched(c, s, a);
    if a.CommitBook? {
      CommitInOrder(c, s, a.t);
    } else if a.Recover? {
      RestartOrder(c, s, a.counter);
    } else if !a.Snapshot? && !a.Crash? {
      LogsUntouched(c, s, a);
    }
  }

  lemma {:induction false} RunKeepsOrder(c: Config, s: State, actions: seq<Action>)
    requires Inv(c, s) && InOrder(s.bookLog) && InOrder(s.saved) && OrderedRun(c, s, actions)
    ensures FreshRun(c, s, actions) && Run(c, s, actions) && InOrder(After(c, s, actions).bookLog)
    decreases |actions|
  {
    if actions != [] {
      ActionKeeps(c, s, actions[0]);
      assert ThreadsInv(c, s);
      hide Inv, Enabled, Do, FreshCounter, InOrder, Above, Scan, ThreadsInv;
      ActionKeepsOrder(c, s, actions[0]);
      RunKeepsOrder(c, Do(c, s, actions[0]), actions[1..]);
    }
  }

  /** Each market's book takes ids in increasing order, over placements, snapshots, crashes and
      restarts, as long as no restart replays a row behind what it restored. */
  lemma IdsInOrder(c: Config, actions: seq<Action>)
    requires OrderedRun(c, CrashProtocol.INITIAL, actions)
    ensures Run(c, CrashProtocol.INITIAL, actions) && InOrder(After(c, CrashProtocol.INITIAL, actions).bookLog)
  {
    InitialInv(c);
    hide Inv, Do, Enabled;
    RunKeepsOrder(c, CrashProtocol.INITIAL, actions);
  }

  // ----- the counter condition is exact

  /** Every run after this restart, with fresh counters at any later one, is safe. */
  ghost predicate SafeFrom(c: Config, s: State) {
    forall actions :: FreshRun(c, s, actions) && Run(c, s, actions) ==> Safe(c, After(c, s, actions))
  }

  /** One step of a run; a restart in it has a fresh counter. */
  ghost predicate Goes(c: Config, s: State, a: Action, s': State) {
    Enabled(s, a) && (a.Recover? ==> FreshCounter(s, a.counter)) && Do(c, s, a) == s'
  }

  lemma RunCons(c: Config, s: State, a: Action, s': State, rest: seq<Action>)
    requires Goes(c, s, a, s') && Run(c, s', rest) && FreshRun(c, s', rest)
    ensures Run(c, s, [a] + rest) && FreshRun(c, s, [a] + rest)
    ensures After(c, s, [a] + rest) == After(c, s', rest)
  {
    hide Enabled, Do, FreshCounter;
    assert ([a] + rest)[1..] == rest;
  }

  /** One more step before an unsafe future. */
  lemma UnsafeBefore(c: Config, s: State, a: Action, s': State)
    requires Goes(c, s, a, s') && !SafeFrom(c, s')
    ensures !SafeFrom(c, s)
  {
    hide Goes, Safe;
    var rest :| FreshRun(c, s', rest) && Run(c, s', rest) && !Safe(c, After(c, s', rest));
    RunCons(c, s, a, s', rest);
    assert !Safe(c, After(c, s, [a] + rest));
  }

  lemma UnsafeNow(c: Config, s: State)
    requires !Safe(c, s)
    ensures !SafeFrom(c, s)
  {
    assert Run(c, s, []) && FreshRun(c, s, []) && After(c, s, []) == s;
  }

  /** The ids and fills of one new placement whose last id is `id`. */
  function Reusing(start: nat, id: nat, q: nat): (pairs: seq<Entry>)
    requires start <= id
    ensures |pairs| == id - start + 1
  {
    Numbered(start, Series("M", q, id - start + 1))
  }

  lemma NumberedSizes(start: nat, fills: seq<MatchEvent>, q: int)
    requires forall e :: e in fills ==> e.quantity == q
    ensures forall x :: x in Numbered(start, fills) ==> x.1.quantity == q
  {
    var pairs := Numbered(start, fills);
    forall x | x in pairs ensures x.1.quantity == q {
      var i :| 0 <= i < |pairs| && pairs[i] == x;
      assert fills[i] in fills;
    }
  }

  lemma ReusingIs(start: nat, id: nat, q: nat)
    requires start <= id && q > 0
    ensures var pairs := Reusing(start, id, q);
            && Ordered(pairs) && id in Ids(pairs) && pairs[id - start].0 == id
            && forall x :: x in pairs ==> x.1.quantity == q
  {
    var fills := Series("M", q, id - start + 1);
    SeriesIsPossible("M", q, id - start + 1);
    hide Series, Possible;
    NumberedSizes(start, fills, q);
    NumberedAbove(start, fills);
    var pairs := Reusing(start, id, q);
    assert pairs[id - start] in pairs;
    hide Ordered;
  }

  /** A placement with these fills, alone, with its rows in the journal. */
  ghost function LoggedAlone(c: Config, s: State, market: string, fills: seq<MatchEvent>): State {
    var pairs := Numbered(s.next, fills);
    s.(threads := map[0 := Logged(market, pairs)], next := s.next + |fills|, journal := s.journal + Lines(c, pairs),
       written := s.written + pairs, used := Noting(s.used, pairs))
  }

  ghost function Reused(c: Config, s: State, id: nat, q: nat): State
    requires s.next <= id
  {
    LoggedAlone(c, s, "M", Series("M", q, id - s.next + 1))
  }

  lemma GoesBegin(c: Config, s: State, market: string, fills: seq<MatchEvent>)
    requires s.alive && s.threads == map[] && fills != [] && Possible(market, fills)
    ensures Goes(c, s, Begin(0, market, fills), s.(threads := map[0 := Matched(market, fills)]))
  {
    hide Possible;
  }

  lemma GoesAllocate(c: Config, s: State, market: string, fills: seq<MatchEvent>)
    requires s.threads == map[0 := Matched(market, fills)]
    ensures Goes(c, s, Allocate(0), s.(threads := map[0 := Allocated(market, Numbered(s.next, fills), 0)], next := s.next + |fills|))
  {
    hide Numbered;
    var p := Allocated(market, Numbered(s.next, fills), 0);
    assert s.threads[0 := p] == map[0 := p];
  }

  lemma GoesAppend(c: Config, s: State, market: string, pairs: seq<Entry>)
    requires s.threads == map[0 := Allocated(market, pairs, 0)]
    ensures Goes(c, s, AppendOk(0), s.(threads := map[0 := Logged(market, pairs)], journal := s.journal + Lines(c, pairs),
                                       written := s.written + pairs, used := Noting(s.used, pairs)))
  {
    hide Lines, Noting;
    assert s.threads[0 := Logged(market, pairs)] == map[0 := Logged(market, pairs)];
  }

  /** A placement, step by step, up to its rows being in the journal. */
  lemma PlacingAlone(c: Config, s: State, market: string, fills: seq<MatchEvent>) returns (s1: State, s2: State)
    requires s.alive && s.threads == map[] && fills != [] && Possible(market, fills)
    ensures Goes(c, s, Begin(0, market, fills), s1) && Goes(c, s1, Allocate(0), s2)
    ensures Goes(c, s2, AppendOk(0), LoggedAlone(c, s, market, fills))
  {
    hide Possible, Lines, Noting, Numbered, Goes;
    var pairs := Numbered(s.next, fills);
    s1 := s.(threads := map[0 := Matched(market, fills)]);
    s2 := s.(threads := map[0 := Allocated(market, pairs, 0)], next := s.next + |fills|);
    GoesBegin(c, s, market, fills);
    GoesAllocate(c, s1, market, fills);
    GoesAppend(c, s2, market, pairs);
  }

  lemma SeriesBegins(id: nat, start: nat, q: nat)
    requires start <= id && q > 0
    ensures var fills := Series("M", q, id - start + 1); fills != [] && Possible("M", fills)
  {
    SeriesIsPossible("M", q, id - start + 1);
    hide Series, Possible;
  }

  lemma ReuseReachesLogged(c: Config, s: State, id: nat, q: nat)
    requires s.alive && s.threads == map[] && s.next <= id && q > 0 && !SafeFrom(c, Reused(c, s, id, q))
    ensures !SafeFrom(c, s)
  {
    var fills := Series("M", q, id - s.next + 1);
    SeriesBegins(id, s.next, q);
    hide SafeFrom, Goes, LoggedAlone, Series, Possible;
    var s1, s2 := PlacingAlone(c, s, "M", fills);
    UnsafeBefore(c, s2, AppendOk(0), LoggedAlone(c, s, "M", fills));
    UnsafeBefore(c, s1, Allocate(0), s2);
    UnsafeBefore(c, s, Begin(0, "M", fills), s1);
  }

  /** The reused id is published already: the stream drops the new event as a duplicate, the
      acknowledgement hides its row, and the book commits a fill nobody will hear of. */
  lemma ReuseOfPublishedId(c: Config, s: State, id: nat, q: nat)
    requires s.alive && s.threads == map[] && s.next <= id && q > 0
    requires id in Ids(s.stream) && forall x :: x in s.stream && x.0 == id ==> x.1.quantity != q
    ensures !SafeFrom(c, s)
  {
    hide SafeFrom, Lines, Noting, Ordered, Reusing, Reused;
    var pairs := Reusing(s.next, id, q);
    ReusingIs(s.next, id, q);
    ReusedIs(c, s, id, q);
    var x := pairs[id - s.next];
    assert x in pairs;
    ReuseEndsUnsafe(c, Reused(c, s, id, q), id, x.1, pairs, id - s.next);
    ReuseReachesLogged(c, s, id, q);
  }

  lemma ReusedIs(c: Config, s: State, id: nat, q: nat)
    requires s.next <= id
    ensures Reused(c, s, id, q).threads == map[0 := Logged("M", Reusing(s.next, id, q))] && Reused(c, s, id, q).stream == s.stream
  {
    hide Lines, Noting, Numbered, Series;
  }

  lemma GoesPublish(c: Config, s: State, m: string, pairs: seq<Entry>, n: nat)
    requires s.threads == map[0 := Logged(m, pairs)] && n < |pairs|
    ensures Goes(c, s, PublishNow(0, n), s.(stream := Streamed(s.stream, pairs[n])))
  {
    hide Streamed;
  }

  lemma GoesAck(c: Config, s: State, m: string, pairs: seq<Entry>, n: nat)
    requires s.threads == map[0 := Logged(m, pairs)] && n < |pairs| && pairs[n].0 in Ids(s.stream)
    ensures Goes(c, s, AckNow(0, n), s.(journal := s.journal + [Ack(pairs[n].0)]))
  {
  }

  lemma GoesCommit(c: Config, s: State, m: string, pairs: seq<Entry>)
    requires s.threads == map[0 := Logged(m, pairs)]
    ensures Goes(c, s, CommitBook(0), s.(threads := map[0 := Enqueuing(pairs)], committed := Noting(s.committed, pairs),
                                         bookLog := s.bookLog[m := LogOf(s.bookLog, m) + IdsOf(pairs)]))
  {
    hide Noting, LogOf;
    assert s.threads[0 := Enqueuing(pairs)] == map[0 := Enqueuing(pairs)];
  }

  /** From the logged placement: publish (a duplicate), acknowledge, commit. */
  lemma ReuseEndsUnsafe(c: Config, s: State, id: nat, e: MatchEvent, pairs: seq<Entry>, n: nat)
    requires s.threads == map[0 := Logged("M", pairs)] && Ordered(pairs) && n < |pairs| && pairs[n] == (id, e)
    requires id in Ids(s.stream) && (id, e) !in s.stream
    ensures !SafeFrom(c, s)
  {
    GoesPublish(c, s, "M", pairs, n);
    assert Streamed(s.stream, pairs[n]) == s.stream;
    var s2 := s.(journal := s.journal + [Ack(id)]);
    var s3 := s2.(threads := map[0 := Enqueuing(pairs)], committed := Noting(s.committed, pairs),
                  bookLog := s.bookLog["M" := LogOf(s.bookLog, "M") + IdsOf(pairs)]);
    GoesAck(c, s, "M", pairs, n);
    GoesCommit(c, s2, "M", pairs);
    hide SafeFrom, Noting, Ordered, Goes, Safe, LogOf, IdsOf;
    AckedIsUnsafe(c, s, s3, id, e, pairs, n);
    UnsafeNow(c, s3);
    UnsafeBefore(c, s2, CommitBook(0), s3);
    UnsafeBefore(c, s, AckNow(0, n), s2);
    UnsafeBefore(c, s, PublishNow(0, n), s);
  }

  lemma AckedIsUnsafe(c: Config, s: State, s': State, id: nat, e: MatchEvent, pairs: seq<Entry>, n: nat)
    requires Ordered(pairs) && n < |pairs| && pairs[n] == (id, e) && (id, e) !in s.stream
    requires s'.journal == s.journal + [Ack(id)] && s'.stream == s.stream
    requires s'.committed == Noting(s.committed, pairs)
    ensures !Safe(c, s')
  {
    AckAnswers(c, s.journal, id, id);
    NotingIs(s.committed, pairs);
    assert pairs[n] in pairs && Known(s'.committed, pairs[n]);
    hide Scan, Acked, Latest, Noting, Ordered;
    forall r | r in Scan(c.engine, s'.journal) ensures r.id != id {
      ScanRowIsLatest(c.engine, s'.journal, r);
    }
  }

  /** The reused id is only in the journal: the new row replaces the old one there. */
  lemma ReuseOfJournaledId(c: Config, s: State, id: nat, q: nat)
    requires s.alive && s.threads == map[] && s.next <= id && q > 0
    requires id in s.committed && s.committed[id].quantity != q && id !in Ids(s.stream)
    ensures !SafeFrom(c, s)
  {
    ReplacedIsUnsafe(c, s, id, q);
    UnsafeNow(c, Reused(c, s, id, q));
    hide SafeFrom, Reused;
    ReuseReachesLogged(c, s, id, q);
  }

  lemma ReplacedIsUnsafe(c: Config, s: State, id: nat, q: nat)
    requires s.next <= id && q > 0 && id in s.committed && s.committed[id].quantity != q && id !in Ids(s.stream)
    ensures !Safe(c, Reused(c, s, id, q))
  {
    hide Lines, Noting, Ordered, Acked, Latest, Scan, Numbered, Series;
    ReusingIs(s.next, id, q);
    var pairs := Reusing(s.next, id, q);
    var journal := s.journal + Lines(c, pairs);
    AppendedAnswers(c, s.journal, pairs, id);
    forall r | r in Scan(c.engine, journal) && r.id == id ensures r.event.quantity == q {
      ScanRowIsLatest(c.engine, journal, r);
    }
    var s' := Reused(c, s, id, q);
    assert s'.journal == journal && s'.committed == s.committed;
    assert (id, s.committed[id]) !in s'.stream;
  }

  /** Restarting with a given counter keeps every later run safe if and only if the counter
      is beyond every id that had reached the journal.  Neither restoring a snapshot nor
      replaying the journal raises the counter by itself. */
  lemma CounterCondition(c: Config, s: State, counter: nat)
    requires Inv(c, s) && !s.alive
    ensures SafeFrom(c, Do(c, s, Recover(counter))) <==> FreshCounter(s, counter)
  {
    var s' := Do(c, s, Recover(counter));
    if FreshCounter(s, counter) {
      RecoverKeeps(c, s, counter);
      forall actions | FreshRun(c, s', actions) && Run(c, s', actions) ensures Safe(c, After(c, s', actions)) {
        RunKeeps(c, s', actions);
        InvIsSafe(c, After(c, s', actions));
      }
    } else {
      var id :| id in s.used && counter <= id;
      var q := if s.used[id].quantity == 1 then 2 else 1;
      if id in Ids(s.stream) {
        forall x | x in s'.stream && x.0 == id ensures x.1.quantity != q {
          assert Known(s.used, x);
        }
        ReuseOfPublishedId(c, s', id, q);
      } else {
        ScanCommits(c, s, counter, id);
        ReuseOfJournaledId(c, s', id, q);
      }
    }
  }

  lemma ScannedRow(c: Config, s: State, id: nat)
    requires JournalInv(c, s) && id in s.used && id !in Ids(s.stream)
    ensures (id, s.used[id]) in Entries(Scan(c.engine, s.journal))
  {
    var rows := Scan(c.engine, s.journal);
    ScanAnswers(c.engine, s.journal, id);
    assert CrashProtocol.Durable(c, s, id);
    LookupIn(rows, id);
    hide Scan, Acked, Latest, Lookup;
    var r := Latest(c.engine, s.journal, id).value;
    assert r in rows && r.id == id && Known(s.used, (id, r.event));
    var i :| 0 <= i < |rows| && rows[i] == r;
    assert Entries(rows)[i] == (id, s.used[id]);
  }

  lemma ScanCommits(c: Config, s: State, counter: nat, id: nat)
    requires Inv(c, s) && !s.alive && id in s.used && id !in Ids(s.stream)
    ensures var s' := Do(c, s, Recover(counter)); id in s'.committed && s'.committed[id] == s.used[id]
  {
    ScannedRow(c, s, id);
    ScanRows(c, s);
    hide Inv, JournalInv, Scan, Noting, Entries, ReplayLog;
    var pairs := Entries(Scan(c.engine, s.journal));
    NotingIs(s.committed, pairs);
    assert Known(Noting(s.committed, pairs), (id, s.used[id]));
  }

  // ----- a run out of order

  /** Some run with fresh counters ends with a market's ids out of order. */
  ghost predicate MayDisorder(c: Config, s: State) {
    exists actions :: FreshRun(c, s, actions) && Run(c, s, actions) && !InOrder(After(c, s, actions).bookLog)
  }

  lemma DisorderNow(c: Config, s: State)
    requires !InOrder(s.bookLog)
    ensures MayDisorder(c, s)
  {
    assert Run(c, s, []) && FreshRun(c, s, []) && After(c, s, []) == s;
  }

  lemma DisorderBefore(c: Config, s: State, a: Action, s': State)
    requires Goes(c, s, a, s') && MayDisorder(c, s')
    ensures MayDisorder(c, s)
  {
    hide Goes, InOrder;
    var rest :| FreshRun(c, s', rest) && Run(c, s', rest) && !InOrder(After(c, s', rest).bookLog);
    RunCons(c, s, a, s', rest);
    assert !InOrder(After(c, s, [a] + rest).bookLog);
  }

  /** Restarting there puts id 1 behind id 2: 2 is in the snapshot, 1 is only in the journal. */
  lemma LateRow(c: Config, s: State, x: Entry)
    requires !s.alive && s.saved == map["M" := [2]] && x.0 == 1 && x.1.market == "M"
    requires Latest(c.engine, s.journal, 1).Some? && Latest(c.engine, s.journal, 1).value.event == x.1 && 1 !in Acked(s.journal)
    ensures !InOrder(Do(c, s, Recover(3)).bookLog)
  {
    var rows := Scan(c.engine, s.journal);
    RestartOrder(c, s, 3);
    ScanAnswers(c.engine, s.journal, 1);
    LookupIn(rows, 1);
    hide Scan, Latest, Acked, Do;
    var r := Lookup(rows, 1).value;
    assert r in rows && r.id == 1 && r.event.market == "M" && r.id !in Applied(s.saved);
    assert 2 in LogOf(s.saved, "M");
  }

  /** The journal then still answers for id 1. */
  lemma LateJournal(c: Config, x: Entry, y: Entry)
    requires x.0 == 1 && y.0 == 2
    ensures var journal := Lines(c, [x]) + Lines(c, [y]) + [Ack(2)];
            && Latest(c.engine, journal, 1).Some? && Latest(c.engine, journal, 1).value.event == x.1
            && 1 !in Acked(journal)
  {
    assert [] + Lines(c, [x]) == Lines(c, [x]);
    AppendedAnswers(c, [], [x], 1);
    AppendedAnswers(c, Lines(c, [x]), [y], 1);
    AckAnswers(c, Lines(c, [x]) + Lines(c, [y]), 2, 1);
    hide Lines;
  }

  lemma GoesSnapshot(c: Config, s: State)
    requires s.alive
    ensures Goes(c, s, Snapshot, s.(saved := s.bookLog))
    ensures Goes(c, s, Crash, s.(alive := false, threads := map[], queue := [], delivered := {}, bookLog := map[], tickets := []))
  {
  }

  lemma GoesGiveUp(c: Config, s: State, m: string, pairs: seq<Entry>)
    requires s.threads == map[0 := Logged(m, pairs)]
    ensures Goes(c, s, GiveUp(0), s.(threads := map[]))
  {
    assert s.threads - {0} == map[];
  }

  /** Publish, acknowledge, commit, snapshot, crash. */
  lemma SecondHalf(c: Config, s: State, y: Entry, s': State)
    requires s.alive && s.threads == map[0 := Logged("M", [y])] && y.0 == 2
    requires s.stream == [] && s.committed == map[] && s.bookLog == map[] && s.queue == [] && s.delivered == {}
    requires s' == s.(alive := false, threads := map[], stream := [y], committed := Noting(map[], [y]), saved := map["M" := [2]],
                      journal := s.journal + [Ack(2)], tickets := [])
    requires MayDisorder(c, s')
    ensures MayDisorder(c, s)
  {
    var s1 := s.(stream := [y]);
    var s2 := s1.(journal := s.journal + [Ack(2)]);
    var s3 := s2.(threads := map[0 := Enqueuing([y])], committed := Noting(map[], [y]), bookLog := map["M" := [2]]);
    var s4 := s3.(saved := map["M" := [2]]);
    assert y in [y] && Streamed([], y) == [y];
    assert LogOf(s.bookLog, "M") + IdsOf([y]) == [2];
    assert s.bookLog["M" := [2]] == map["M" := [2]];
    hide Noting, MayDisorder, Goes, Streamed, LogOf, IdsOf;
    GoesPublish(c, s, "M", [y], 0);
    GoesAck(c, s1, "M", [y], 0);
    GoesCommit(c, s2, "M", [y]);
    GoesSnapshot(c, s3);
    GoesSnapshot(c, s4);
    DisorderBefore(c, s4, Crash, s');
    DisorderBefore(c, s3, Snapshot, s4);
    DisorderBefore(c, s2, CommitBook(0), s3);
    DisorderBefore(c, s1, AckNow(0, 0), s2);
    DisorderBefore(c, s, PublishNow(0, 0), s1);
  }

  /** One placement, journalled, before a future out of order. */
  lemma PlacingDisorders(c: Config, s: State, fills: seq<MatchEvent>)
    requires s.alive && s.threads == map[] && fills != [] && Possible("M", fills)
    requires MayDisorder(c, LoggedAlone(c, s, "M", fills))
    ensures MayDisorder(c, s)
  {
    hide Possible, MayDisorder, Goes, LoggedAlone;
    var s1, s2 := PlacingAlone(c, s, "M", fills);
    DisorderBefore(c, s2, AppendOk(0), LoggedAlone(c, s, "M", fills));
    DisorderBefore(c, s1, Allocate(0), s2);
    DisorderBefore(c, s, Begin(0, "M", fills), s1);
  }

  lemma NotingOne(used: map<nat, MatchEvent>, x: Entry)
    ensures Noting(used, [x]) == used[x.0 := x.1]
  {
    assert [x][..0] == [];
  }

  lemma GoesRecover(c: Config, s: State, counter: nat)
    requires !s.alive && FreshCounter(s, counter)
    ensures Goes(c, s, Recover(counter), Do(c, s, Recover(counter)))
  {
    hide Do;
  }

  lemma EndsLate(c: Config, s: State, x: Entry, y: Entry)
    requires !s.alive && s.saved == map["M" := [2]] && s.used.Keys == {1, 2}
    requires x.0 == 1 && x.1.market == "M" && y.0 == 2 && s.journal == Lines(c, [x]) + Lines(c, [y]) + [Ack(2)]
    ensures MayDisorder(c, s)
  {
    assert FreshCounter(s, 3);
    LateJournal(c, x, y);
    hide Goes, MayDisorder, Lines, InOrder, Do, Latest, Acked;
    LateRow(c, s, x);
    DisorderNow(c, Do(c, s, Recover(3)));
    GoesRecover(c, s, 3);
    DisorderBefore(c, s, Recover(3), Do(c, s, Recover(3)));
  }

  /** Once the first placement is in the journal and given up. */
  lemma FirstGivenUp(c: Config, s: State, fills: seq<MatchEvent>)
    requires |fills| == 1 && Possible("M", fills) && fills[0].market == "M"
    requires s.alive && s.threads == map[] && s.next == 2 && s.journal == Lines(c, [(1, fills[0])]) && s.used.Keys == {1}
    requires s.stream == [] && s.committed == map[] && s.bookLog == map[] && s.queue == [] && s.delivered == {}
    ensures MayDisorder(c, s)
  {
    hide Possible, Goes, MayDisorder, Lines;
    var x, y := (1, fills[0]), (2, fills[0]);
    assert Numbered(2, fills) == [y];
    NotingOne(s.used, y);
    hide Numbered, Noting;
    var s3 := LoggedAlone(c, s, "M", fills);
    var s' := s3.(alive := false, threads := map[], stream := [y], committed := Noting(map[], [y]), saved := map["M" := [2]],
                  journal := s3.journal + [Ack(2)], tickets := []);
    EndsLate(c, s', x, y);
    SecondHalf(c, s3, y, s');
    PlacingDisorders(c, s, fills);
  }

  /** Once it is in the journal. */
  lemma FirstJournalled(c: Config, s: State, fills: seq<MatchEvent>)
    requires |fills| == 1 && Possible("M", fills) && fills[0].market == "M"
    requires s.alive && s.threads == map[0 := Logged("M", [(1, fills[0])])] && s.next == 2
    requires s.journal == Lines(c, [(1, fills[0])]) && s.used.Keys == {1}
    requires s.stream == [] && s.committed == map[] && s.bookLog == map[] && s.queue == [] && s.delivered == {}
    ensures MayDisorder(c, s)
  {
    hide Possible, Goes, MayDisorder, Lines;
    FirstGivenUp(c, s.(threads := map[]), fills);
    GoesGiveUp(c, s, "M", [(1, fills[0])]);
    DisorderBefore(c, s, GiveUp(0), s.(threads := map[]));
  }

  lemma FirstPlaced(c: Config, s: State, fills: seq<MatchEvent>)
    requires |fills| == 1 && Possible("M", fills) && fills[0].market == "M"
    requires s.alive && s.threads == map[] && s.next == 1 && s.journal == [] && s.used == map[]
    requires s.stream == [] && s.committed == map[] && s.bookLog == map[] && s.queue == [] && s.delivered == {}
    ensures MayDisorder(c, s)
  {
    var x := (1, fills[0]);
    assert Numbered(1, fills) == [x];
    NotingOne(s.used, x);
    hide Possible, Goes, MayDisorder, Lines, Noting, Numbered;
    var s3 := LoggedAlone(c, s, "M", fills);
    assert [] + Lines(c, [x]) == Lines(c, [x]);
    FirstJournalled(c, s3, fills);
    PlacingDisorders(c, s, fills);
  }

  /** A placement is journalled and given up; the next one is journalled, published,
      acknowledged and committed, and a snapshot is taken; the process crashes.  Recovery then
      applies the first placement's row after the second's: the ids are out of order. */
  lemma OutOfOrderRestart(c: Config)
    ensures MayDisorder(c, CrashProtocol.INITIAL)
  {
    var fills := Series("M", 1, 1);
    SeriesIsPossible("M", 1, 1);
    PossibleMarket("M", fills);
    hide Series, Possible, MayDisorder;
    assert fills[0] in fills;
    FirstPlaced(c, CrashProtocol.INITIAL, fills);
  }

  // ----- what a restarted book holds

  /** A used id that some saved log has is in its own market's. */
  lemma SavedUnderItsMarket(used: map<nat, MatchEvent>, saved: map<string, seq<nat>>, id: nat)
    requires LogInv(used, saved) && id in Applied(saved)
    ensures id in used && id in LogOf(saved, used[id].market)
  {
    var m :| m in saved && id in saved[m];
    assert Owns(used, m, saved[m]);
  }

  /** After a restart a market's book holds the fill of an id exactly when the snapshot had it
      or the journal scan returns its row. */
  lemma RestoredIff(c: Config, s: State, counter: nat, id: nat)
    requires Inv(c, s) && !s.alive && id in s.used
    ensures id in LogOf(Do(c, s, Recover(counter)).bookLog, s.used[id].market)
            <==> id in LogOf(s.saved, s.used[id].market) || HasRow(Scan(c.engine, s.journal), id)
  {
    var rows, m := Scan(c.engine, s.journal), s.used[id].market;
    RecoverIs(c, s, counter);
    ReplayDraws(s.saved, rows);
    ReplayKeepsSaved(s.saved, rows, m);
    assert LogInv(s.used, s.saved) && JournalInv(c, s);
    hide Inv, JournalInv, Do, Scan, ReplayLog, Noting, Entries, LogInv, Applied;
    if HasRow(rows, id) {
      var i :| 0 <= i < |rows| && rows[i].id == id;
      ScannedKnown(c, s, rows[i]);
      if id in Applied(s.saved) {
        SavedUnderItsMarket(s.used, s.saved, id);
      } else {
        ReplayTakes(s.saved, rows, rows[i]);
      }
    }
  }

  /** A running engine whose book lacks a fill it had committed. */
  ghost predicate Forgetful(s: State) {
    s.alive && exists id :: id in s.committed && id !in LogOf(s.bookLog, s.committed[id].market)
  }

  ghost predicate MayForget(c: Config, s: State) {
    exists actions :: FreshRun(c, s, actions) && Run(c, s, actions) && Forgetful(After(c, s, actions))
  }

  lemma ForgetNow(c: Config, s: State)
    requires Forgetful(s)
    ensures MayForget(c, s)
  {
    assert Run(c, s, []) && FreshRun(c, s, []) && After(c, s, []) == s;
  }

  lemma ForgetBefore(c: Config, s: State, a: Action, s': State)
    requires Goes(c, s, a, s') && MayForget(c, s')
    ensures MayForget(c, s)
  {
    hide Goes, Forgetful;
    var rest :| FreshRun(c, s', rest) && Run(c, s', rest) && Forgetful(After(c, s', rest));
    RunCons(c, s, a, s', rest);
    assert Forgetful(After(c, s, [a] + rest));
  }

  lemma {:induction false} NotingGrows(used: map<nat, MatchEvent>, pairs: seq<Entry>, id: nat)
    requires id in used
    ensures id in Noting(used, pairs)
  {
    if pairs != [] {
      NotingGrows(used, pairs[..|pairs| - 1], id);
    }
  }

  /** A fill that is acknowledged and in no snapshot is not restored. */
  lemma AckedIsForgotten(c: Config, s: State, counter: nat, id: nat)
    requires !s.alive && s.saved == map[] && id in Acked(s.journal) && id in s.committed && FreshCounter(s, counter)
    ensures MayForget(c, s)
  {
    var rows, s' := Scan(c.engine, s.journal), Do(c, s, Recover(counter));
    RecoverIs(c, s, counter);
    ReplayDraws(s.saved, rows);
    GoesRecover(c, s, counter);
    NotingGrows(s.committed, Entries(rows), id);
    hide Do, Noting, ReplayLog, Latest, Acked, Scan, Entries;
    forall i | 0 <= i < |rows| ensures rows[i].id != id {
      ScanRowIsLatest(c.engine, s.journal, rows[i]);
    }
    assert !HasRow(rows, id);
    assert id !in LogOf(s'.bookLog, s'.committed[id].market);
    hide Goes, MayForget;
    ForgetNow(c, s');
    ForgetBefore(c, s, Recover(counter), s');
  }

  /** Publish, acknowledge, commit, crash. */
  lemma AcknowledgedThenCrash(c: Config, s: State, x: Entry)
    requires s.alive && s.threads == map[0 := Logged("M", [x])] && s.stream == [] && s.saved == map[]
    requires s.used.Keys == {x.0} && s.committed == map[]
    ensures MayForget(c, s)
  {
    var s1 := s.(stream := [x]);
    var s2 := s1.(journal := s.journal + [Ack(x.0)]);
    var s3 := s2.(threads := map[0 := Enqueuing([x])], committed := Noting(map[], [x]),
                  bookLog := s.bookLog["M" := LogOf(s.bookLog, "M") + IdsOf([x])]);
    var s4 := s3.(alive := false, threads := map[], queue := [], delivered := {}, bookLog := map[], tickets := []);
    assert x in [x] && Streamed([], x) == [x];
    NotingOne(map[], x);
    AckAnswers(c, s.journal, x.0, x.0);
    assert FreshCounter(s4, x.0 + 1);
    hide Noting, MayForget, Goes, Streamed, LogOf, IdsOf, Acked;
    GoesPublish(c, s, "M", [x], 0);
    GoesAck(c, s1, "M", [x], 0);
    GoesCommit(c, s2, "M", [x]);
    GoesSnapshot(c, s3);
    AckedIsForgotten(c, s4, x.0 + 1, x.0);
    ForgetBefore(c, s3, Crash, s4);
    ForgetBefore(c, s2, CommitBook(0), s3);
    ForgetBefore(c, s1, AckNow(0, 0), s2);
    ForgetBefore(c, s, PublishNow(0, 0), s1);
  }

  /** One placement is journalled, published, acknowledged and committed, and the process
      crashes before the next snapshot: the restarted book does not have the fill, so the
      orders it used up rest again. */
  lemma ForgottenFill(c: Config)
    ensures MayForget(c, CrashProtocol.INITIAL)
  {
    var s, fills := CrashProtocol.INITIAL, Series("M", 1, 1);
    SeriesIsPossible("M", 1, 1);
    var x := (1, fills[0]);
    assert Numbered(1, fills) == [x];
    NotingOne(s.used, x);
    hide Series, Possible, MayForget, Goes, Lines, Noting, Numbered;
    var s3 := LoggedAlone(c, s, "M", fills);
    AcknowledgedThenCrash(c, s3, x);
    var s1, s2 := PlacingAlone(c, s, "M", fills);
    ForgetBefore(c, s2, AppendOk(0), s3);
    ForgetBefore(c, s1, Allocate(0), s2);
    ForgetBefore(c, s, Begin(0, "M", fills), s1);
  }

  // ----- working off what a restart finds

  /** Every row the scan returns is waiting in the queue. */
  ghost predicate AllQueued(c: Config, s: State) {
    forall r :: r in Scan(c.engine, s.journal) ==> HasRow(s.queue, r.id)
  }

  /** Nothing left to recover, and every committed fill published. */
  ghost predicate Drained(c: Config, s: State) {
    Scan(c.engine, s.journal) == [] && forall id :: id in s.committed ==> (id, s.committed[id]) in s.stream
  }

  ghost predicate PublisherOnly(actions: seq<Action>) {
    forall a: Action :: a in actions ==> a.Publish? || a.AckDelivered?
  }

  /** The publisher alone can get there. */
  ghost predicate MayDrain(c: Config, s: State) {
    exists actions ::
      FreshRun(c, s, actions) && Run(c, s, actions) && PublisherOnly(actions) && Drained(c, After(c, s, actions))
  }

  lemma DrainedNow(c: Config, s: State)
    requires Inv(c, s) && AllQueued(c, s) && s.queue == []
    ensures MayDrain(c, s)
  {
    InvIsSafe(c, s);
    hide Inv, Scan;
    var rows := Scan(c.engine, s.journal);
    assert forall r :: r !in rows;
    if rows != [] {
      SomeRow(rows);
    }
    assert Drained(c, s);
    assert Run(c, s, []) && FreshRun(c, s, []) && PublisherOnly([]) && After(c, s, []) == s;
  }

  lemma SomeRow(rows: seq<Row>)
    requires rows != []
    ensures exists r :: r in rows
  {
    assert rows[0] in rows;
  }

  lemma DrainBefore(c: Config, s: State, a: Action, s': State)
    requires Goes(c, s, a, s') && MayDrain(c, s') && (a.Publish? || a.AckDelivered?)
    ensures MayDrain(c, s)
  {
    hide Goes, Drained;
    var rest :| FreshRun(c, s', rest) && Run(c, s', rest) && PublisherOnly(rest) && Drained(c, After(c, s', rest));
    RunCons(c, s, a, s', rest);
    assert PublisherOnly([a] + rest);
    assert Drained(c, After(c, s, [a] + rest));
  }

  /** The front of the queue is published and acknowledged. */
  ghost function Sent(s: State): State
    requires s.queue != []
  {
    var r := s.queue[0];
    s.(queue := s.queue[1..], stream := Streamed(s.stream, (r.id, r.event)), delivered := s.delivered + {r.id})
  }

  lemma GoesSend(c: Config, s: State)
    requires s.queue != []
    ensures Goes(c, s, Publish(0), Sent(s))
  {
    hide Streamed;
    assert s.queue[..0] + s.queue[1..] == s.queue[1..];
  }

  lemma GoesAckDelivered(c: Config, s: State, id: nat)
    requires id in s.delivered
    ensures Goes(c, s, AckDelivered(id), s.(delivered := s.delivered - {id}, journal := s.journal + [Ack(id)]))
  {
  }

  lemma AckedLeavesScan(c: Config, s: State, s': State)
    requires AllQueued(c, s) && s.queue != [] && s'.journal == s.journal + [Ack(s.queue[0].id)] && s'.queue == s.queue[1..]
    ensures AllQueued(c, s')
  {
    var id := s.queue[0].id;
    forall r | r in Scan(c.engine, s'.journal) ensures HasRow(s'.queue, r.id) {
      ScanRowIsLatest(c.engine, s'.journal, r);
      AckAnswers(c, s.journal, id, r.id);
      ScanAnswers(c.engine, s.journal, r.id);
      LookupIn(Scan(c.engine, s.journal), r.id);
      hide Scan, Latest, Acked, Lookup;
      assert r in Scan(c.engine, s.journal) && HasRow(s.queue, r.id);
      var i :| 0 <= i < |s.queue| && s.queue[i].id == r.id;
      assert i > 0 && s'.queue[i - 1].id == r.id;
    }
  }

  lemma {:induction false} QueueDrains(c: Config, s: State)
    requires Inv(c, s) && AllQueued(c, s)
    ensures MayDrain(c, s)
    decreases |s.queue|
  {
    if s.queue == [] {
      DrainedNow(c, s);
    } else {
      var id := s.queue[0].id;
      var s1 := Sent(s);
      var s2 := s1.(delivered := s1.delivered - {id}, journal := s1.journal + [Ack(id)]);
      GoesSend(c, s);
      GoesAckDelivered(c, s1, id);
      AckedLeavesScan(c, s, s2);
      hide AllQueued, MayDrain, Inv, Streamed;
      StepKeeps(c, s, Publish(0), s1);
      StepKeeps(c, s1, AckDelivered(id), s2);
      hide Goes;
      QueueDrains(c, s2);
      DrainBefore(c, s1, AckDelivered(id), s2);
      DrainBefore(c, s, Publish(0), s1);
    }
  }

  lemma StepKeeps(c: Config, s: State, a: Action, s': State)
    requires Inv(c, s) && Goes(c, s, a, s')
    ensures Inv(c, s')
  {
    hide Inv, Do, Enabled, FreshCounter;
    ActionKeeps(c, s, a);
  }

  /** After a restart with a fresh counter the publisher alone can work off everything: there
      is a run of publishes and acknowledgements at whose end the scan is empty and every
      fill ever committed is on the stream. */
  lemma RecoveryDrains(c: Config, s: State, counter: nat)
    requires Inv(c, s) && !s.alive && FreshCounter(s, counter)
    ensures MayDrain(c, Do(c, s, Recover(counter)))
  {
    var s' := Do(c, s, Recover(counter));
    RecoverIs(c, s, counter);
    RecoverKeeps(c, s, counter);
    ActionKeeps(c, s, Recover(counter));
    hide Inv, Do, Scan, ReplayLog, Noting, Entries, MayDrain;
    forall r | r in Scan(c.engine, s'.journal) ensures HasRow(s'.queue, r.id) {
      var i :| 0 <= i < |s'.queue| && s'.queue[i] == r;
    }
    QueueDrains(c, s');
  }

  // ----- what gives up and what is forgotten

  /** Giving up on a publish takes one row out of the queue and nothing else: the event is on
      the stream already or the next restart finds it. */
  lemma FailedPublishIsKept(c: Config, s: State, i: nat)
    requires Inv(c, s) && i < |s.queue|
    ensures var s', r := Do(c, s, PublishFails(i)), s.queue[i];
            && s'.queue == s.queue[..i] + s.queue[i + 1..] && s' == s.(queue := s'.queue)
            && ((r.id, r.event) in s'.stream || exists x :: x in Scan(c.engine, s'.journal) && x.id == r.id && x.event == r.event)
  {
    var r := s.queue[i];
    QueueWithout(s, i);
    assert Known(s.used, (r.id, r.event)) && CrashProtocol.Durable(c, s, r.id) && JournalInv(c, s);
    hide Inv;
    if r.id in Ids(s.stream) {
      var x :| x in s.stream && x.0 == r.id;
      assert Known(s.used, x);
    } else {
      ScannedRow(c, s, r.id);
      var rows := Scan(c.engine, s.journal);
      var k :| 0 <= k < |rows| && Entries(rows)[k] == (r.id, r.event);
      assert rows[k] in rows;
    }
  }

  /** Giving up on an acknowledgement forgets it: the event is on the stream, the journal is as
      it was, and a restart will only publish it once more, which the stream ignores. */
  lemma FailedAckIsHarmless(c: Config, s: State, id: nat)
    requires Inv(c, s) && id in s.delivered
    ensures var s' := Do(c, s, AckFails(id));
            && id !in s'.delivered && s' == s.(delivered := s'.delivered)
            && exists x :: x in s'.stream && x.0 == id && Streamed(s'.stream, x) == s'.stream
  {
    assert id in Ids(s.stream);
    hide Inv;
    var x :| x in s.stream && x.0 == id;
    assert Streamed(s.stream, x) == s.stream;
  }

  /** Compaction leaves one line per row the scan returns, in the scan's order, and no
      acknowledgements; the scan is as before. */
  lemma CompactionLeavesScan(c: Config, s: State)
    requires !s.alive
    ensures var s', rows := Do(c, s, CompactFile), Scan(c.engine, s.journal);
            && Scan(c.engine, s'.journal) == rows && Acked(s'.journal) == {} && |s'.journal| == |rows|
            && forall i :: 0 <= i < |rows| ==> s'.journal[i] == Evt(c.engine, rows[i])
  {
    CompactKeepsScan(c.engine, s.journal);
    CompactAnswers(c.engine, s.journal, c.engine, 0);
    hide Scan, Acked;
  }
}
