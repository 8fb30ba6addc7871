/** Placements, journal, publisher and crashes as one protocol.

    Any number of placements run at once, in four ways.  Three match under their market's
    lock, take event ids there, and commit the book last: after appending journal rows, after
    journal rows, publishing and acknowledging, or after publishing alone.  The plain way
    stores the book first and takes its ids when it has let the lock go.  The process may
    crash between any two steps; the journal and the stream survive, and so does the last
    snapshot; everything else is lost.  The fills of a placement are any that some book and
    order give. */
module CrashProtocol {
  import opened Types
  import opened EventBuffer
  import opened Wal
  import opened Engine
  import opened PossibleFills

  /** The engine's instance id and the subject its markets publish under. */
  datatype Config = Config(engine: string, subject: string -> string)

  /** An allocated placement without a journal has published its first `sent` events.  A logged
      one has all its events in the journal or on the stream. */
  datatype Phase =
    | Matched(market: string, fills: seq<MatchEvent>)
    | Allocated(market: string, pairs: seq<Entry>, sent: nat)
    | Logged(market: string, pairs: seq<Entry>)
    | Enqueuing(pairs: seq<Entry>)
    | Stored(ticket: nat)

  /** The fills of a plain placement and, once it has taken its ids, the first of them. */
  datatype Ticket = Ticket(market: string, fills: seq<MatchEvent>, start: Option<nat>)

  /** `bookLog` lists, for each market, the ids that locked placements committed to its book, in
      order; `saved` is what the last snapshot kept of that.  `tickets` lists the plain
      placements in the order the books took them.  `written` lists every event that has ever
      reached the journal or the stream and `used` holds the same events by id. */
  datatype State = State(
    alive: bool,
    next: nat,
    threads: map<nat, Phase>,
    queue: seq<Row>,
    delivered: set<nat>,
    committed: map<nat, MatchEvent>,
    bookLog: map<string, seq<nat>>,
    saved: map<string, seq<nat>>,
    journal: seq<Line>,
    stream: seq<Entry>,
    written: seq<Entry>,
    used: map<nat, MatchEvent>,
    tickets: seq<Ticket>)

  datatype Action =
    | Begin(t: nat, market: string, fills: seq<MatchEvent>)
    | Allocate(t: nat)
    | AppendOk(t: nat)
    | AppendFails(t: nat, written: nat)
    | PublishFirst(t: nat)
    | CommitBook(t: nat)
    | Enqueue(t: nat)
    | EnqueueFails(t: nat)
    | PublishNow(t: nat, i: nat)
    | AckNow(t: nat, i: nat)
    | GiveUp(t: nat)
    | Publish(i: nat)
    | PublishFails(i: nat)
    | AckDelivered(id: nat)
    | AckFails(id: nat)
    | Snapshot
    | Crash
    | CompactFile
    | Recover(counter: nat)
    | RecoveryExits
    | StorePlain(t: nat, market: string, fills: seq<MatchEvent>)
    | NumberPlain(t: nat)
    | PublishPlain(k: nat, i: nat)

  predicate Holds(p: Phase) {
    !p.Enqueuing? && !p.Stored?
  }

  predicate Locks(p: Phase, market: string) {
    Holds(p) && p.market == market
  }

  /** The ids a placement has taken that are not in the journal or on the stream yet. */
  function Unlogged(p: Phase): seq<Entry> {
    if p.Allocated? && p.sent <= |p.pairs| then p.pairs[p.sent..] else []
  }

  function PairsOf(k: Ticket): seq<Entry> {
    if k.start.Some? then Numbered(k.start.value, k.fills) else []
  }

  function Streamed(stream: seq<Entry>, x: Entry): seq<Entry> {
    if x.0 in Ids(stream) then stream else stream + [x]
  }

  function Lines(c: Config, pairs: seq<Entry>): seq<Line> {
    EvtLines(c.engine, WalRows(c.subject, pairs))
  }

  function Noting(used: map<nat, MatchEvent>, pairs: seq<Entry>): map<nat, MatchEvent> {
    if pairs == [] then used
    else
      var n := |pairs| - 1;
      Noting(used, pairs[..n])[pairs[n].0 := pairs[n].1]
  }

  function IdsOf(pairs: seq<Entry>): (ids: seq<nat>)
    ensures |ids| == |pairs|
    ensures forall i :: 0 <= i < |ids| ==> ids[i] == pairs[i].0
  {
    seq(|pairs|, i requires 0 <= i < |pairs| => pairs[i].0)
  }

  function LogOf(log: map<string, seq<nat>>, market: string): seq<nat> {
    if market in log then log[market] else []
  }

  function Entries(rows: seq<Row>): (pairs: seq<Entry>)
    ensures |pairs| == |rows|
    ensures forall i :: 0 <= i < |rows| ==> pairs[i] == (rows[i].id, rows[i].event)
  {
    seq(|rows|, i requires 0 <= i < |rows| => (rows[i].id, rows[i].event))
  }

  /** The ids a snapshot's books hold. */
  function Applied(log: map<string, seq<nat>>): set<nat> {
    set m, id | m in log && id in log[m] :: id
  }

  /** Rows the restored books do not hold yet reach the books of their markets in scan order. */
  function ReplayLog(saved: map<string, seq<nat>>, rows: seq<Row>): map<string, seq<nat>> {
    if rows == [] then saved
    else
      var r := rows[|rows| - 1];
      var log := ReplayLog(saved, rows[..|rows| - 1]);
      if r.id in Applied(saved) then log else log[r.event.market := LogOf(log, r.event.market) + [r.id]]
  }

  /** An event with no journal row reaches the stream. */
  function Sending(s: State, x: Entry): State {
    s.(stream := Streamed(s.stream, x), written := s.written + [x], used := s.used[x.0 := x.1])
  }

  function AfterSending(p: Phase): Phase
    requires p.Allocated?
  {
    if p.sent + 1 == |p.pairs| then Logged(p.market, p.pairs) else p.(sent := p.sent + 1)
  }

  ghost predicate Enabled(s: State, a: Action) {
    match a
    case Begin(t, m, fills) =>
      && s.alive && t !in s.threads && fills != [] && Possible(m, fills)
      && forall u :: u in s.threads ==> !Locks(s.threads[u], m)
    case Allocate(t) => t in s.threads && s.threads[t].Matched?
    case AppendOk(t) => t in s.threads && s.threads[t].Allocated? && s.threads[t].sent == 0
    case AppendFails(t, _) => t in s.threads && s.threads[t].Allocated? && s.threads[t].sent == 0
    case PublishFirst(t) => t in s.threads && s.threads[t].Allocated? && s.threads[t].sent < |s.threads[t].pairs|
    case CommitBook(t) => t in s.threads && s.threads[t].Logged?
    case Enqueue(t) => t in s.threads && s.threads[t].Enqueuing? && s.threads[t].pairs != []
    case EnqueueFails(t) => t in s.threads && s.threads[t].Enqueuing?
    case PublishNow(t, i) => t in s.threads && s.threads[t].Logged? && i < |s.threads[t].pairs|
    case AckNow(t, i) =>
      t in s.threads && s.threads[t].Logged? && i < |s.threads[t].pairs| && s.threads[t].pairs[i].0 in Ids(s.stream)
    case GiveUp(t) => t in s.threads && (s.threads[t].Logged? || s.threads[t].Allocated?)
    case Publish(i) => i < |s.queue|
    case PublishFails(i) => i < |s.queue|
    case AckDelivered(id) => id in s.delivered
    case AckFails(id) => id in s.delivered
    case Snapshot => s.alive
    case Crash => s.alive
    case CompactFile => !s.alive
    case Recover(_) => !s.alive
    case RecoveryExits => !s.alive
    case StorePlain(t, m, fills) =>
      && s.alive && t !in s.threads && fills != [] && Possible(m, fills)
      && forall u :: u in s.threads ==> !Locks(s.threads[u], m)
    case NumberPlain(t) => t in s.threads && s.threads[t].Stored? && s.threads[t].ticket < |s.tickets|
    case PublishPlain(k, i) =>
      k < |s.tickets| && i < |PairsOf(s.tickets[k])| && PairsOf(s.tickets[k])[i].0 !in s.used
  }

  ghost function Do(c: Config, s: State, a: Action): State
    requires Enabled(s, a)
  {
    match a
    case Begin(t, m, fills) => s.(threads := s.threads[t := Matched(m, fills)])
    case Allocate(t) =>
      var p := s.threads[t];
      s.(threads := s.threads[t := Allocated(p.market, Numbered(s.next, p.fills), 0)], next := s.next + |p.fills|)
    case AppendOk(t) =>
      var p := s.threads[t];
      s.(threads := s.threads[t := Logged(p.market, p.pairs)],
         journal := s.journal + Lines(c, p.pairs), written := s.written + p.pairs, used := Noting(s.used, p.pairs))
    case AppendFails(t, written) =>
      var p := s.threads[t];
      var durable := p.pairs[..Min(written, |p.pairs|)];
      s.(threads := s.threads - {t},
         journal := s.journal + Lines(c, durable), written := s.written + durable, used := Noting(s.used, durable))
    case PublishFirst(t) =>
      var p := s.threads[t];
      Sending(s, p.pairs[p.sent]).(threads := s.threads[t := AfterSending(p)])
    case CommitBook(t) =>
      var p := s.threads[t];
      s.(threads := s.threads[t := Enqueuing(p.pairs)], committed := Noting(s.committed, p.pairs),
         bookLog := s.bookLog[p.market := LogOf(s.bookLog, p.market) + IdsOf(p.pairs)])
    case Enqueue(t) =>
      var p := s.threads[t];
      s.(threads := s.threads[t := Enqueuing(p.pairs[1..])], queue := s.queue + WalRows(c.subject, p.pairs[..1]))
    case EnqueueFails(t) => s.(threads := s.threads - {t})
    case PublishNow(t, i) => s.(stream := Streamed(s.stream, s.threads[t].pairs[i]))
    case AckNow(t, i) => s.(journal := s.journal + [Ack(s.threads[t].pairs[i].0)])
    case GiveUp(t) => s.(threads := s.threads - {t})
    case Publish(i) =>
      var r := s.queue[i];
      s.(queue := s.queue[..i] + s.queue[i + 1..], stream := Streamed(s.stream, (r.id, r.event)),
         delivered := s.delivered + {r.id})
    case PublishFails(i) => s.(queue := s.queue[..i] + s.queue[i + 1..])
    case AckDelivered(id) => s.(delivered := s.delivered - {id}, journal := s.journal + [Ack(id)])
    case AckFails(id) => s.(delivered := s.delivered - {id})
    case Snapshot => s.(saved := s.bookLog)
    case Crash => s.(alive := false, threads := map[], queue := [], delivered := {}, bookLog := map[], tickets := [])
    case CompactFile => s.(journal := Compact(c.engine, s.journal))
    case Recover(counter) =>
      var rows := Scan(c.engine, s.journal);
      s.(alive := true, next := counter, queue := rows, bookLog := ReplayLog(s.saved, rows),
         committed := Noting(s.committed, Entries(rows)))
    // A row that does not apply to the restored book ends the process before it publishes.
    case RecoveryExits => s
    case StorePlain(t, m, fills) =>
      s.(threads := s.threads[t := Stored(|s.tickets|)], tickets := s.tickets + [Ticket(m, fills, None)])
    case NumberPlain(t) =>
      var k := s.threads[t].ticket;
      s.(threads := s.threads - {t}, tickets := s.tickets[k := s.tickets[k].(start := Some(s.next))],
         next := s.next + |s.tickets[k].fills|)
    case PublishPlain(k, i) => Sending(s, PairsOf(s.tickets[k])[i])
  }

  /** The restored counter is beyond every id that has reached the journal. */
  ghost predicate FreshCounter(s: State, counter: nat) {
    forall id :: id in s.used ==> id < counter
  }

  ghost predicate Run(c: Config, s: State, actions: seq<Action>)
    decreases |actions|
  {
    if actions == [] then true
    else Enabled(s, actions[0]) && Run(c, Do(c, s, actions[0]), actions[1..])
  }

  /** A run in which every restart restores a counter beyond the ids used before it. */
  ghost predicate FreshRun(c: Config, s: State, actions: seq<Action>)
    decreases |actions|
  {
    if actions == [] then true
    else
      && Enabled(s, actions[0])
      && (actions[0].Recover? ==> FreshCounter(s, actions[0].counter))
      && FreshRun(c, Do(c, s, actions[0]), actions[1..])
  }

  ghost function After(c: Config, s: State, actions: seq<Action>): State
    requires Run(c, s, actions)
    decreases |actions|
  {
    if actions == [] then s else After(c, Do(c, s, actions[0]), actions[1..])
  }

  const INITIAL := State(true, 1, map[], [], {}, map[], map[], map[], [], [], [], map[], [])

  /** Every fill that reached a book is on the stream, or the journal scan returns it. */
  ghost predicate Safe(c: Config, s: State) {
    forall id :: id in s.committed ==>
      (id, s.committed[id]) in s.stream
      || exists r :: r in Scan(c.engine, s.journal) && r.id == id && r.event == s.committed[id]
  }

  // ----- the invariant

  ghost predicate Known(used: map<nat, MatchEvent>, x: Entry) {
    x.0 in used && used[x.0] == x.1
  }

  ghost predicate AllKnown(used: map<nat, MatchEvent>, pairs: seq<Entry>) {
    forall x :: x in pairs ==> Known(used, x)
  }

  /** The journal still has a row for `id`, or the stream has the event. */
  ghost predicate Durable(c: Config, s: State, id: nat) {
    Latest(c.engine, s.journal, id).Some? || id in Ids(s.stream)
  }

  ghost predicate JournalInv(c: Config, s: State) {
    && (forall id :: Latest(c.engine, s.journal, id).Some? ==>
          Known(s.used, (id, Latest(c.engine, s.journal, id).value.event)))
    && Acked(s.journal) <= Ids(s.stream)
    && NoRepeats(s.stream)
    && AllKnown(s.used, s.stream)
    && (forall id :: id in s.used ==> Durable(c, s, id))
    && NoRepeats(s.written) && Ids(s.written) == s.used.Keys && AllKnown(s.used, s.written)
  }

  ghost predicate MemoryInv(s: State) {
    && AllKnown(s.used, Entries(s.queue))
    && s.delivered <= Ids(s.stream)
    && (s.alive ==> FreshCounter(s, s.next))
    && (!s.alive ==> s.threads == map[])
  }

  ghost predicate Rising(ids: seq<nat>) {
    forall i, j :: 0 <= i < j < |ids| ==> ids[i] < ids[j]
  }

  ghost predicate Distinct(ids: seq<nat>) {
    forall i, j :: 0 <= i < j < |ids| ==> ids[i] != ids[j]
  }

  /** Events of one market only. */
  ghost predicate Owns(used: map<nat, MatchEvent>, market: string, ids: seq<nat>) {
    forall id :: id in ids ==> id in used && used[id].market == market
  }

  ghost predicate LogInv(used: map<nat, MatchEvent>, log: map<string, seq<nat>>) {
    forall m :: m in log ==> Distinct(log[m]) && Owns(used, m, log[m])
  }

  ghost predicate BookInv(c: Config, s: State) {
    && (forall id :: id in s.committed ==> Known(s.used, (id, s.committed[id])) && Durable(c, s, id))
    && LogInv(s.used, s.bookLog) && LogInv(s.used, s.saved)
  }

  ghost predicate OfMarket(market: string, pairs: seq<Entry>) {
    forall x :: x in pairs ==> x.1.market == market
  }

  /** The ids of `pairs` come after everything `market`'s book has taken. */
  ghost predicate Later(s: State, market: string, pairs: seq<Entry>) {
    forall id, x :: id in LogOf(s.bookLog, market) && x in pairs ==> id < x.0
  }

  ghost predicate ThreadInv(c: Config, s: State, p: Phase) {
    match p
    case Matched(m, fills) => forall e :: e in fills ==> e.market == m
    case Allocated(m, pairs, sent) =>
      && Ordered(pairs) && Later(s, m, pairs) && OfMarket(m, pairs) && sent <= |pairs|
      && AllKnown(s.used, pairs[..sent]) && (forall x :: x in pairs[..sent] ==> Durable(c, s, x.0))
      && (forall x :: x in pairs[sent..] ==> x.0 < s.next && x.0 !in s.used)
    case Logged(m, pairs) =>
      && Ordered(pairs) && Later(s, m, pairs) && OfMarket(m, pairs) && AllKnown(s.used, pairs)
      && (forall x :: x in pairs ==> Durable(c, s, x.0))
    case Enqueuing(pairs) => AllKnown(s.used, pairs)
    case Stored(_) => true
  }

  /** Two threads do not hold one market's lock, and share no unlogged id. */
  ghost predicate Apart(p: Phase, q: Phase) {
    && (Holds(p) && Holds(q) ==> p.market != q.market)
    && Ids(Unlogged(p)) !! Ids(Unlogged(q))
  }

  ghost predicate ThreadsInv(c: Config, s: State) {
    && (forall t :: t in s.threads ==> ThreadInv(c, s, s.threads[t]))
    && (forall t, u :: t in s.threads && u in s.threads && t != u ==> Apart(s.threads[t], s.threads[u]))
  }

  function Held(p: Phase): seq<Entry> {
    if p.Allocated? || p.Logged? then p.pairs else []
  }

  /** An id that a locked placement holds or has committed. */
  ghost predicate Mine(s: State, id: nat) {
    || (exists t :: t in s.threads && id in Ids(Held(s.threads[t])))
    || (exists m :: m in s.bookLog && id in s.bookLog[m])
  }

  ghost predicate TicketInv(s: State, k: Ticket) {
    forall x :: x in PairsOf(k) ==> x.0 < s.next && (x.0 in s.used ==> Known(s.used, x)) && !Mine(s, x.0)
  }

  /** Plain placements that wait for their ids, each with a ticket of its own. */
  ghost predicate Waiting(threads: map<nat, Phase>, tickets: seq<Ticket>) {
    && (forall t :: t in threads && threads[t].Stored? ==>
          threads[t].ticket < |tickets| && tickets[threads[t].ticket].start.None?)
    && (forall t, u :: t in threads && u in threads && t != u && threads[t].Stored? && threads[u].Stored? ==>
          threads[t].ticket != threads[u].ticket)
  }

  ghost predicate Disjoint(tickets: seq<Ticket>) {
    forall j, k :: 0 <= j < k < |tickets| ==> Ids(PairsOf(tickets[j])) !! Ids(PairsOf(tickets[k]))
  }

  ghost predicate PlainInv(s: State) {
    && (!s.alive ==> s.tickets == [])
    && (forall k :: k in s.tickets ==> TicketInv(s, k))
    && Disjoint(s.tickets) && Waiting(s.threads, s.tickets)
  }

  ghost predicate Core(c: Config, s: State) {
    JournalInv(c, s) && MemoryInv(s) && BookInv(c, s) && ThreadsInv(c, s)
  }

  ghost predicate Inv(c: Config, s: State) {
    Core(c, s) && PlainInv(s)
  }

  /** The invariant gives the promise. */
  lemma InvIsSafe(c: Config, s: State)
    requires JournalInv(c, s) && BookInv(c, s)
    ensures Safe(c, s)
  {
    forall id | id in s.committed && (id, s.committed[id]) !in s.stream
      ensures exists r :: r in Scan(c.engine, s.journal) && r.id == id && r.event == s.committed[id]
    {
      assert Durable(c, s, id) && Known(s.used, (id, s.committed[id]));
      var r := Latest(c.engine, s.journal, id).value;
      LatestHasId(c.engine, s.journal, id);
      ScanAnswers(c.engine, s.journal, id);
      LookupFinds(Scan(c.engine, s.journal), r);
    }
  }

  lemma {:induction false} LatestHasId(engine: string, log: seq<Line>, id: nat)
    ensures Latest(engine, log, id).Some? ==> Latest(engine, log, id).value.id == id
  {
    if log != [] {
      LatestHasId(engine, log[..|log| - 1], id);
    }
  }

  lemma ScanRowIsLatest(engine: string, log: seq<Line>, r: Row)
    requires r in Scan(engine, log)
    ensures Latest(engine, log, r.id) == Some(r) && r.id !in Acked(log)
  {
    ScanAnswers(engine, log, r.id);
    LookupFinds(Scan(engine, log), r);
  }

  // ----- appending rows

  lemma IdsSnoc(pairs: seq<Entry>, x: Entry)
    ensures Ids(pairs + [x]) == Ids(pairs) + {x.0}
  {
    assert forall y :: y in pairs + [x] <==> y in pairs || y == x;
  }

  /** `m` is `used` with `pairs` recorded. */
  ghost predicate Records(used: map<nat, MatchEvent>, pairs: seq<Entry>, m: map<nat, MatchEvent>) {
    && m.Keys == used.Keys + Ids(pairs)
    && AllKnown(m, pairs)
    && (forall id :: id in used && id !in Ids(pairs) ==> m[id] == used[id])
  }

  lemma RecordsSnoc(used: map<nat, MatchEvent>, before: seq<Entry>, last: Entry, m: map<nat, MatchEvent>)
    requires Records(used, before, m) && last.0 !in Ids(before)
    ensures Records(used, before + [last], m[last.0 := last.1])
  {
    IdsSnoc(before, last);
    var m', pairs := m[last.0 := last.1], before + [last];
    forall x | x in pairs ensures Known(m', x) {
      if x in before {
        assert x.0 in Ids(before) && Known(m, x);
      }
    }
  }

  lemma OrderedSnoc(pairs: seq<Entry>)
    requires Ordered(pairs) && pairs != []
    ensures var n := |pairs| - 1;
            Ordered(pairs[..n]) && pairs[n].0 !in Ids(pairs[..n]) && pairs == pairs[..n] + [pairs[n]]
  {
  }

  lemma {:induction false} NotingIs(used: map<nat, MatchEvent>, pairs: seq<Entry>)
    requires Ordered(pairs)
    ensures Records(used, pairs, Noting(used, pairs))
  {
    if pairs != [] {
      var n := |pairs| - 1;
      OrderedSnoc(pairs);
      NotingIs(used, pairs[..n]);
      hide Ordered, Records;
      RecordsSnoc(used, pairs[..n], pairs[n], Noting(used, pairs[..n]));
    }
  }

  lemma LookupRows(c: Config, pairs: seq<Entry>, id: nat)
    requires Ordered(pairs)
    ensures Ascending(WalRows(c.subject, pairs))
    ensures Lookup(WalRows(c.subject, pairs), id).Some? <==> id in Ids(pairs)
    ensures Lookup(WalRows(c.subject, pairs), id).Some? ==> (id, Lookup(WalRows(c.subject, pairs), id).value.event) in pairs
  {
    var rows := WalRows(c.subject, pairs);
    LookupIn(rows, id);
    if Lookup(rows, id).Some? {
      var i :| 0 <= i < |rows| && rows[i] == Lookup(rows, id).value;
      assert pairs[i] in pairs;
    }
    if id in Ids(pairs) {
      var x :| x in pairs && x.0 == id;
      var i :| 0 <= i < |pairs| && pairs[i] == x;
      LookupFinds(rows, rows[i]);
    }
  }

  /** What the journal answers after rows for `pairs` are appended. */
  lemma AppendedAnswers(c: Config, journal: seq<Line>, pairs: seq<Entry>, id: nat)
    requires Ordered(pairs)
    ensures Acked(journal + Lines(c, pairs)) == Acked(journal)
    ensures var now := Latest(c.engine, journal + Lines(c, pairs), id);
            if id in Ids(pairs) then now.Some? && (id, now.value.event) in pairs
            else now == Latest(c.engine, journal, id)
  {
    LookupRows(c, pairs, id);
    var rows := WalRows(c.subject, pairs);
    EvtLinesAnswer(c.engine, rows, c.engine, id);
    AckedAppend(journal, Lines(c, pairs));
    LatestAppend(c.engine, journal, Lines(c, pairs), id);
  }

  /** New rows are under new ids. */
  lemma WrittenOnce(written: seq<Entry>, pairs: seq<Entry>)
    requires NoRepeats(written) && Ordered(pairs) && forall x :: x in pairs ==> x.0 !in Ids(written)
    ensures NoRepeats(written + pairs) && Ids(written + pairs) == Ids(written) + Ids(pairs)
  {
    var all := written + pairs;
    forall i, j | 0 <= i < j < |all| ensures all[i].0 != all[j].0 {
      if i < |written| <= j {
        assert written[i] in written && pairs[j - |written|] in pairs;
      }
    }
    assert forall x :: x in all <==> x in written || x in pairs;
  }

  /** `s'` is `s` after rows for the new `pairs` were appended. */
  ghost predicate Appended(c: Config, s: State, pairs: seq<Entry>, s': State) {
    && s' == s.(journal := s'.journal, written := s'.written, used := s'.used)
    && NoRepeats(s'.written) && Ids(s'.written) == s'.used.Keys && AllKnown(s'.used, s'.written)
    && Acked(s'.journal) == Acked(s.journal)
    && s'.used.Keys == s.used.Keys + Ids(pairs)
    && AllKnown(s'.used, pairs)
    && (forall id :: id in s.used ==> Known(s'.used, (id, s.used[id])))
    && (forall id :: Latest(c.engine, s.journal, id).Some? ==> Latest(c.engine, s'.journal, id).Some?)
    && (forall id :: id in Ids(pairs) ==> Latest(c.engine, s'.journal, id).Some?)
    && (forall id :: Latest(c.engine, s'.journal, id).Some? ==>
          Known(s'.used, (id, Latest(c.engine, s'.journal, id).value.event)))
  }

  lemma AppendIs(c: Config, s: State, pairs: seq<Entry>, s': State)
    requires JournalInv(c, s) && Ordered(pairs) && forall x :: x in pairs ==> x.0 !in s.used
    requires s' == s.(journal := s.journal + Lines(c, pairs), written := s.written + pairs, used := Noting(s.used, pairs))
    ensures Appended(c, s, pairs, s')
  {
    NotingIs(s.used, pairs);
    AppendedAnswers(c, s.journal, pairs, 0);
    WrittenOnce(s.written, pairs);
    hide Latest, Acked, Noting, Lines, Ordered;
    forall id ensures Latest(c.engine, s.journal, id).Some? ==> Latest(c.engine, s'.journal, id).Some?
      ensures id in Ids(pairs) ==> Latest(c.engine, s'.journal, id).Some?
      ensures Latest(c.engine, s'.journal, id).Some? ==>
                Known(s'.used, (id, Latest(c.engine, s'.journal, id).value.event))
    {
      AppendedAnswers(c, s.journal, pairs, id);
      if id !in Ids(pairs) && Latest(c.engine, s'.journal, id).Some? {
        assert Known(s.used, (id, Latest(c.engine, s.journal, id).value.event));
      }
    }
  }

  lemma LogGrows(used: map<nat, MatchEvent>, used': map<nat, MatchEvent>, log: map<string, seq<nat>>)
    requires LogInv(used, log) && forall x :: Known(used, x) ==> Known(used', x)
    ensures LogInv(used', log)
  {
    hide Distinct;
    forall m | m in log ensures Owns(used', m, log[m]) {
      forall id | id in log[m] ensures id in used' && used'[id].market == m {
        assert Known(used, (id, used[id]));
      }
    }
  }

  lemma AppendKeeps(c: Config, s: State, pairs: seq<Entry>, s': State)
    requires JournalInv(c, s) && MemoryInv(s) && BookInv(c, s) && Appended(c, s, pairs, s')
    requires forall x :: x in pairs ==> x.0 < s.next
    ensures JournalInv(c, s') && MemoryInv(s') && BookInv(c, s')
    ensures forall x :: Known(s.used, x) ==> Known(s'.used, x)
    ensures forall id :: Durable(c, s, id) ==> Durable(c, s', id)
  {
    hide Latest, Acked, NoRepeats;
    forall x | Known(s.used, x) ensures Known(s'.used, x) {
      assert Known(s'.used, (x.0, s.used[x.0]));
    }
    LogGrows(s.used, s'.used, s.bookLog);
    LogGrows(s.used, s'.used, s.saved);
    forall id | id in s'.used && s.alive ensures id < s.next {
      if id !in s.used {
        var x :| x in pairs && x.0 == id;
      }
    }
  }

  // ----- threads

  /** `s'` knows, keeps and has committed all that `s` has, and has used no id that a thread
      still holds unlogged. */
  ghost predicate Grows(c: Config, s: State, s': State) {
    && s.next <= s'.next && s'.bookLog == s.bookLog
    && (forall x :: Known(s.used, x) ==> Known(s'.used, x))
    && (forall id :: Durable(c, s, id) ==> Durable(c, s', id))
  }

  ghost predicate Unused(s: State, p: Phase) {
    forall x :: x in Unlogged(p) ==> x.0 !in s.used
  }

  lemma ThreadGrows(c: Config, s: State, s': State, p: Phase)
    requires ThreadInv(c, s, p) && Grows(c, s, s')
    requires Unused(s', p)
    ensures ThreadInv(c, s', p)
  {
    hide Durable, Known, Ordered;
  }

  /** Replace thread `t` by phase `p` while the rest of the state grows. */
  lemma SetThread(c: Config, s: State, s': State, t: nat, p: Phase)
    requires ThreadsInv(c, s) && Grows(c, s, s') && s'.threads == s.threads[t := p]
    requires ThreadInv(c, s', p)
    requires forall u :: u in s.threads && u != t ==> Apart(p, s.threads[u]) && Apart(s.threads[u], p)
    requires forall u :: u in s.threads && u != t ==> Unused(s', s.threads[u])
    ensures ThreadsInv(c, s')
  {
    hide ThreadInv, Apart, Grows, Unused;
    forall u | u in s'.threads ensures ThreadInv(c, s', s'.threads[u]) {
      if u != t {
        ThreadGrows(c, s, s', s.threads[u]);
      }
    }
  }

  lemma DropThread(c: Config, s: State, s': State, t: nat)
    requires ThreadsInv(c, s) && Grows(c, s, s') && s'.threads == s.threads - {t}
    requires forall u :: u in s.threads && u != t ==> Unused(s', s.threads[u])
    ensures ThreadsInv(c, s')
  {
    hide ThreadInv, Apart, Grows, Unused;
    forall u | u in s'.threads ensures ThreadInv(c, s', s'.threads[u]) {
      ThreadGrows(c, s, s', s.threads[u]);
    }
  }

  lemma SameThreads(c: Config, s: State, s': State)
    requires ThreadsInv(c, s) && Grows(c, s, s') && s'.threads == s.threads && s'.used == s.used
    ensures ThreadsInv(c, s')
  {
    hide Apart, Grows, ThreadInv;
    forall u | u in s'.threads ensures ThreadInv(c, s', s'.threads[u]) {
      UnloggedUnused(c, s, u);
      ThreadGrows(c, s, s', s.threads[u]);
    }
  }

  lemma UnloggedUnused(c: Config, s: State, t: nat)
    requires ThreadsInv(c, s) && t in s.threads
    ensures Unused(s, s.threads[t]) && forall x :: x in Unlogged(s.threads[t]) ==> x.0 < s.next
  {
    assert ThreadInv(c, s, s.threads[t]);
  }

  /** Only the threads differ. */
  lemma ExceptThreads(c: Config, s: State, s': State)
    requires JournalInv(c, s) && MemoryInv(s) && BookInv(c, s)
    requires s' == s.(threads := s'.threads) && s.alive
    ensures JournalInv(c, s') && MemoryInv(s') && BookInv(c, s')
    ensures forall id :: Durable(c, s', id) <==> Durable(c, s, id)
  {
    hide Latest, Acked, NoRepeats;
  }

  lemma LoggedInv(c: Config, s: State, s': State, m: string, pairs: seq<Entry>)
    requires ThreadInv(c, s, Allocated(m, pairs, 0)) && s'.bookLog == s.bookLog
    requires AllKnown(s'.used, pairs) && forall id :: id in Ids(pairs) ==> Latest(c.engine, s'.journal, id).Some?
    ensures ThreadInv(c, s', Logged(m, pairs))
  {
    hide Latest, Ordered;
    forall x | x in pairs ensures Durable(c, s', x.0) {
      assert x.0 in Ids(pairs);
    }
  }

  // ----- one action at a time

  lemma BeginIs(c: Config, s: State, t: nat, m: string, fills: seq<MatchEvent>)
    requires Enabled(s, Begin(t, m, fills))
    ensures s.alive && t !in s.threads && Possible(m, fills) && forall u :: u in s.threads ==> !Locks(s.threads[u], m)
    ensures Do(c, s, Begin(t, m, fills)) == s.(threads := s.threads[t := Matched(m, fills)])
  {
  }

  lemma BeginKeeps(c: Config, s: State, t: nat, m: string, fills: seq<MatchEvent>)
    requires Core(c, s) && Enabled(s, Begin(t, m, fills))
    ensures Core(c, Do(c, s, Begin(t, m, fills)))
  {
    BeginIs(c, s, t, m, fills);
    hide Possible, Do, Enabled, JournalInv, MemoryInv, BookInv, Durable;
    PossibleMarket(m, fills);
    var s' := s.(threads := s.threads[t := Matched(m, fills)]);
    TicketsMove(c, s, s');
    forall u | u in s.threads ensures Unused(s, s.threads[u]) {
      UnloggedUnused(c, s, u);
    }
    hide Grows;
    SetThread(c, s, s', t, Matched(m, fills));
  }

  lemma NumberedAbove(start: nat, fills: seq<MatchEvent>)
    ensures Ordered(Numbered(start, fills))
    ensures forall x :: x in Numbered(start, fills) ==> start <= x.0 < start + |fills|
  {
  }

  lemma AllocateIs(c: Config, s: State, t: nat)
    requires Enabled(s, Allocate(t))
    ensures t in s.threads && s.threads[t].Matched?
    ensures var p := s.threads[t];
            Do(c, s, Allocate(t)) == s.(threads := s.threads[t := Allocated(p.market, Numbered(s.next, p.fills), 0)], next := s.next + |p.fills|)
  {
  }

  lemma NumberedOf(market: string, start: nat, fills: seq<MatchEvent>)
    requires forall e :: e in fills ==> e.market == market
    ensures OfMarket(market, Numbered(start, fills))
  {
    var pairs := Numbered(start, fills);
    forall x | x in pairs ensures x.1.market == market {
      var i :| 0 <= i < |pairs| && pairs[i] == x;
      assert fills[i] in fills;
    }
  }

  /** Ids from the counter come after everything in any log. */
  lemma CounterIsLater(c: Config, s: State, m: string, pairs: seq<Entry>)
    requires BookInv(c, s) && FreshCounter(s, s.next) && forall x :: x in pairs ==> s.next <= x.0
    ensures Later(s, m, pairs) && forall x :: x in pairs ==> x.0 !in s.used
  {
    hide Durable;
    forall id | id in LogOf(s.bookLog, m) ensures id < s.next {
      assert Owns(s.used, m, s.bookLog[m]);
    }
  }

  /** Only the threads and the counter differ. */
  lemma CounterMoves(c: Config, s: State, s': State)
    requires JournalInv(c, s) && MemoryInv(s) && BookInv(c, s)
    requires s' == s.(threads := s'.threads, next := s'.next) && s.alive && s.next <= s'.next
    ensures JournalInv(c, s') && MemoryInv(s') && BookInv(c, s') && Grows(c, s, s')
  {
    hide Latest, Acked, NoRepeats, LogInv;
  }

  lemma AllocatedInv(c: Config, s: State, m: string, pairs: seq<Entry>)
    requires Ordered(pairs) && Later(s, m, pairs) && OfMarket(m, pairs)
    requires forall x :: x in pairs ==> x.0 < s.next && x.0 !in s.used
    ensures ThreadInv(c, s, Allocated(m, pairs, 0))
  {
  }

  lemma CoreParts(c: Config, s: State)
    ensures Core(c, s) <==> JournalInv(c, s) && MemoryInv(s) && BookInv(c, s) && ThreadsInv(c, s)
  {
    hide JournalInv, MemoryInv, BookInv, ThreadsInv;
  }

  /** A thread has its invariant, and while there is one the process is up. */
  lemma ThreadAt(c: Config, s: State, t: nat)
    requires MemoryInv(s) && ThreadsInv(c, s) && t in s.threads
    ensures ThreadInv(c, s, s.threads[t]) && s.alive && FreshCounter(s, s.next)
  {
    hide ThreadInv, AllKnown, FreshCounter, Apart;
  }

  lemma MatchedFills(c: Config, s: State, p: Phase)
    requires ThreadInv(c, s, p) && p.Matched?
    ensures forall e :: e in p.fills ==> e.market == p.market
  {
  }

  lemma AllocateKeeps(c: Config, s: State, t: nat)
    requires Core(c, s) && Enabled(s, Allocate(t))
    ensures Core(c, Do(c, s, Allocate(t)))
  {
    hide *;
    CoreParts(c, s);
    AllocateIs(c, s, t);
    ThreadAt(c, s, t);
    var p := s.threads[t];
    MatchedFills(c, s, p);
    var pairs := Numbered(s.next, p.fills);
    NumberedAbove(s.next, p.fills);
    NumberedOf(p.market, s.next, p.fills);
    CounterIsLater(c, s, p.market, pairs);
    var s' := s.(threads := s.threads[t := Allocated(p.market, pairs, 0)], next := s.next + |p.fills|);
    CounterMoves(c, s, s');
    LaterStays(s, s', p.market, pairs);
    AllocatedInv(c, s', p.market, pairs);
    AllocateThreads(c, s, t, s', pairs);
    CoreParts(c, s');
  }

  lemma LaterStays(s: State, s': State, m: string, pairs: seq<Entry>)
    requires Later(s, m, pairs) && s'.bookLog == s.bookLog
    ensures Later(s', m, pairs)
  {
  }

  lemma AllocateThreads(c: Config, s: State, t: nat, s': State, pairs: seq<Entry>)
    requires ThreadsInv(c, s) && t in s.threads && s.threads[t].Matched? && Grows(c, s, s') && s'.used == s.used
    requires var p := Allocated(s.threads[t].market, pairs, 0);
             s'.threads == s.threads[t := p] && ThreadInv(c, s', p)
    requires forall x :: x in pairs ==> s.next <= x.0
    ensures ThreadsInv(c, s')
  {
    var p := s.threads[t];
    hide Grows, Latest, Ordered;
    forall u | u in s.threads && u != t
      ensures Apart(Allocated(p.market, pairs, 0), s.threads[u]) && Apart(s.threads[u], Allocated(p.market, pairs, 0))
      ensures Unused(s', s.threads[u])
    {
      assert Apart(p, s.threads[u]) && Apart(s.threads[u], p);
      UnloggedUnused(c, s, u);
    }
    hide ThreadInv, Apart;
    SetThread(c, s, s', t, Allocated(p.market, pairs, 0));
  }

  lemma OtherUnlogged(c: Config, s: State, s': State, t: nat, pairs: seq<Entry>)
    requires ThreadsInv(c, s) && t in s.threads
    requires s'.used.Keys == s.used.Keys + Ids(pairs) && Ids(pairs) <= Ids(Unlogged(s.threads[t]))
    ensures forall u :: u in s.threads && u != t ==> Unused(s', s.threads[u])
  {
    forall u | u in s.threads && u != t ensures Unused(s', s.threads[u]) {
      UnloggedUnused(c, s, u);
      assert Apart(s.threads[t], s.threads[u]);
    }
  }

  lemma AppendOkKeeps(c: Config, s: State, t: nat)
    requires Core(c, s) && Enabled(s, AppendOk(t))
    ensures Core(c, Do(c, s, AppendOk(t)))
  {
    var s', p := Do(c, s, AppendOk(t)), s.threads[t];
    var s1 := s'.(threads := s.threads);
    assert ThreadInv(c, s, p) && p.pairs[0..] == p.pairs && p == Allocated(p.market, p.pairs, 0);
    AppendIs(c, s, p.pairs, s1);
    AppendKeeps(c, s, p.pairs, s1);
    OtherUnlogged(c, s, s1, t, p.pairs);
    ExceptThreads(c, s1, s');
    LoggedInv(c, s, s', p.market, p.pairs);
    forall u | u in s.threads && u != t
      ensures Apart(Logged(p.market, p.pairs), s.threads[u]) && Apart(s.threads[u], Logged(p.market, p.pairs))
    {
      assert Apart(p, s.threads[u]);
    }
    hide JournalInv, MemoryInv, BookInv, ThreadInv, Apart, Durable, Known;
    SetThread(c, s, s', t, Logged(p.market, p.pairs));
  }

  lemma PrefixOrdered(pairs: seq<Entry>, k: nat)
    requires Ordered(pairs) && k <= |pairs|
    ensures Ordered(pairs[..k]) && Ids(pairs[..k]) <= Ids(pairs)
  {
  }

  lemma AppendFailsKeeps(c: Config, s: State, t: nat, written: nat)
    requires Core(c, s) && Enabled(s, AppendFails(t, written))
    ensures Core(c, Do(c, s, AppendFails(t, written)))
  {
    var s', p := Do(c, s, AppendFails(t, written)), s.threads[t];
    var durable := p.pairs[..Min(written, |p.pairs|)];
    var s1 := s'.(threads := s.threads);
    assert ThreadInv(c, s, p) && p.pairs[0..] == p.pairs;
    PrefixOrdered(p.pairs, Min(written, |p.pairs|));
    AppendIs(c, s, durable, s1);
    AppendKeeps(c, s, durable, s1);
    OtherUnlogged(c, s, s1, t, durable);
    ExceptThreads(c, s1, s');
    hide JournalInv, MemoryInv, BookInv, ThreadInv, Apart, Durable, Known;
    DropThread(c, s, s', t);
  }

  lemma RisingAppend(ids: seq<nat>, pairs: seq<Entry>)
    requires Rising(ids) && Ordered(pairs) && forall id, x :: id in ids && x in pairs ==> id < x.0
    ensures Rising(ids + IdsOf(pairs))
    ensures forall id :: id in ids + IdsOf(pairs) ==> id in ids || id in Ids(pairs)
  {
    var all := ids + IdsOf(pairs);
    forall i, j | 0 <= i < j < |all| ensures all[i] < all[j] {
      if i < |ids| <= j {
        assert ids[i] in ids && pairs[j - |ids|] in pairs;
      }
    }
    forall id | id in all ensures id in ids || id in Ids(pairs) {
      var i :| 0 <= i < |all| && all[i] == id;
      assert i >= |ids| ==> pairs[i - |ids|] in pairs;
    }
  }

  lemma DistinctAppend(ids: seq<nat>, pairs: seq<Entry>)
    requires Distinct(ids) && Ordered(pairs) && forall id, x :: id in ids && x in pairs ==> id < x.0
    ensures Distinct(ids + IdsOf(pairs))
    ensures forall id :: id in ids + IdsOf(pairs) ==> id in ids || id in Ids(pairs)
  {
    var all := ids + IdsOf(pairs);
    forall i, j | 0 <= i < j < |all| ensures all[i] != all[j] {
      if i < |ids| <= j {
        assert ids[i] in ids && pairs[j - |ids|] in pairs;
      }
    }
    forall id | id in all ensures id in ids || id in Ids(pairs) {
      var i :| 0 <= i < |all| && all[i] == id;
      assert i >= |ids| ==> pairs[i - |ids|] in pairs;
    }
  }

  lemma LogUpdate(used: map<nat, MatchEvent>, log: map<string, seq<nat>>, m: string, ids: seq<nat>)
    requires LogInv(used, log) && Distinct(ids) && Owns(used, m, ids)
    ensures LogInv(used, log[m := ids])
  {
    hide Distinct, Owns;
  }

  ghost predicate CommittedInv(c: Config, s: State, committed: map<nat, MatchEvent>) {
    forall id :: id in committed ==> Known(s.used, (id, committed[id])) && Durable(c, s, id)
  }

  lemma NotingCommitted(c: Config, s: State, committed: map<nat, MatchEvent>, pairs: seq<Entry>)
    requires CommittedInv(c, s, committed) && Ordered(pairs) && AllKnown(s.used, pairs)
    requires forall id :: id in Ids(pairs) ==> Durable(c, s, id)
    ensures CommittedInv(c, s, Noting(committed, pairs))
  {
    NotingIs(committed, pairs);
    hide Durable, Noting, Ordered;
    var now := Noting(committed, pairs);
    forall id | id in now ensures Known(s.used, (id, now[id])) && Durable(c, s, id) {
      if id in Ids(pairs) {
        var x :| x in pairs && x.0 == id;
        assert Known(now, x) && Known(s.used, x);
      }
    }
  }

  lemma CommitBookInv(c: Config, s: State, m: string, pairs: seq<Entry>, s': State)
    requires BookInv(c, s) && ThreadInv(c, s, Logged(m, pairs))
    requires s' == s.(threads := s'.threads, committed := Noting(s.committed, pairs),
                      bookLog := s.bookLog[m := LogOf(s.bookLog, m) + IdsOf(pairs)])
    ensures BookInv(c, s')
  {
    forall id | id in Ids(pairs) ensures Durable(c, s, id) {
      var x :| x in pairs && x.0 == id;
    }
    NotingCommitted(c, s, s.committed, pairs);
    var log := LogOf(s.bookLog, m) + IdsOf(pairs);
    DistinctAppend(LogOf(s.bookLog, m), pairs);
    forall id | id in log ensures id in s.used && s.used[id].market == m {
      if id in Ids(pairs) {
        var x :| x in pairs && x.0 == id;
        assert Known(s.used, x);
      }
    }
    hide Latest, Noting, Ordered, Distinct;
    LogUpdate(s.used, s.bookLog, m, log);
    assert CommittedInv(c, s', s'.committed);
  }

  lemma OtherMarket(c: Config, s: State, s': State, q: Phase)
    requires ThreadInv(c, s, q) && s'.used == s.used && s'.journal == s.journal && s'.stream == s.stream && s'.next == s.next
    requires Holds(q) ==> LogOf(s'.bookLog, q.market) == LogOf(s.bookLog, q.market)
    ensures ThreadInv(c, s', q)
  {
    hide Latest, Ordered, LogOf;
  }

  lemma CommitThreads(c: Config, s: State, t: nat, s': State)
    requires ThreadsInv(c, s) && t in s.threads && s.threads[t].Logged?
    requires var p := s.threads[t];
             s' == s.(threads := s.threads[t := Enqueuing(p.pairs)], committed := s'.committed,
                      bookLog := s.bookLog[p.market := LogOf(s.bookLog, p.market) + IdsOf(p.pairs)])
    ensures ThreadsInv(c, s')
  {
    hide Latest, Ordered;
    var p := s.threads[t];
    assert ThreadInv(c, s, p);
    forall u | u in s'.threads ensures ThreadInv(c, s', s'.threads[u]) {
      if u != t {
        assert Apart(p, s.threads[u]);
        OtherMarket(c, s, s', s.threads[u]);
      }
    }
    forall u, v | u in s'.threads && v in s'.threads && u != v ensures Apart(s'.threads[u], s'.threads[v]) {
      if u != t && v != t {
        assert Apart(s.threads[u], s.threads[v]);
      }
    }
  }

  lemma CommitBookKeeps(c: Config, s: State, t: nat)
    requires Core(c, s) && Enabled(s, CommitBook(t))
    ensures Core(c, Do(c, s, CommitBook(t)))
  {
    var s', p := Do(c, s, CommitBook(t)), s.threads[t];
    assert ThreadInv(c, s, p);
    CommitBookInv(c, s, p.market, p.pairs, s');
    CommitThreads(c, s, t, s');
    hide Latest, Acked, NoRepeats, BookInv, ThreadsInv, Noting;
    assert JournalInv(c, s');
  }

  lemma EnqueueIs(c: Config, s: State, t: nat)
    requires Enabled(s, Enqueue(t))
    ensures t in s.threads && s.threads[t].Enqueuing? && s.threads[t].pairs != []
    ensures var p := s.threads[t];
            Do(c, s, Enqueue(t)) == s.(threads := s.threads[t := Enqueuing(p.pairs[1..])], queue := s.queue + WalRows(c.subject, p.pairs[..1]))
  {
  }

  lemma QueueMore(c: Config, used: map<nat, MatchEvent>, queue: seq<Row>, x: Entry)
    requires AllKnown(used, Entries(queue)) && Known(used, x)
    ensures AllKnown(used, Entries(queue + WalRows(c.subject, [x])))
  {
    var all := queue + WalRows(c.subject, [x]);
    forall y | y in Entries(all) ensures Known(used, y) {
      var i :| 0 <= i < |all| && Entries(all)[i] == y;
      if i < |queue| {
        assert Entries(queue)[i] == y;
      } else {
        assert y == x;
      }
    }
  }

  /** Only the threads and the queue differ. */
  lemma QueueMoves(c: Config, s: State, s': State)
    requires JournalInv(c, s) && MemoryInv(s) && BookInv(c, s) && s.alive
    requires s' == s.(threads := s'.threads, queue := s'.queue) && AllKnown(s.used, Entries(s'.queue))
    ensures JournalInv(c, s') && MemoryInv(s') && BookInv(c, s') && Grows(c, s, s')
  {
    hide Latest, Acked, NoRepeats, LogInv, Entries;
  }

  lemma EnqueueKeeps(c: Config, s: State, t: nat)
    requires Core(c, s) && Enabled(s, Enqueue(t))
    ensures Core(c, Do(c, s, Enqueue(t)))
  {
    EnqueueIs(c, s, t);
    ThreadAt(c, s, t);
    var p := s.threads[t];
    var x := p.pairs[0];
    assert x in p.pairs && p.pairs[..1] == [x];
    assert AllKnown(s.used, p.pairs) && AllKnown(s.used, p.pairs[1..]);
    hide Do, Enabled, Entries, JournalInv, BookInv, Durable, WalRows;
    QueueMore(c, s.used, s.queue, x);
    var s' := Do(c, s, Enqueue(t));
    QueueMoves(c, s, s');
    assert ThreadInv(c, s', Enqueuing(p.pairs[1..]));
    forall u | u in s.threads ensures Unused(s, s.threads[u]) {
      UnloggedUnused(c, s, u);
    }
    hide Grows, MemoryInv;
    SetThread(c, s, s', t, Enqueuing(p.pairs[1..]));
  }

  lemma LeaveKeeps(c: Config, s: State, t: nat, s': State)
    requires Core(c, s) && t in s.threads && s' == s.(threads := s.threads - {t})
    ensures Core(c, s')
  {
    forall u | u in s.threads ensures Unused(s, s.threads[u]) {
      UnloggedUnused(c, s, u);
    }
    hide Latest, Acked, NoRepeats;
    ExceptThreads(c, s, s');
    DropThread(c, s, s', t);
  }

  lemma StreamedIs(stream: seq<Entry>, x: Entry)
    requires NoRepeats(stream)
    ensures NoRepeats(Streamed(stream, x)) && Ids(Streamed(stream, x)) == Ids(stream) + {x.0}
    ensures forall y :: y in Streamed(stream, x) ==> y in stream || y == x
  {
    if x.0 !in Ids(stream) {
      IdsSnoc(stream, x);
      var all := stream + [x];
      forall i, j | 0 <= i < j < |all| ensures all[i].0 != all[j].0 {
        assert stream[i] in stream;
      }
    }
  }

  /** Publishing a known event, with message-id deduplication. */
  lemma StreamKeeps(c: Config, s: State, x: Entry, s': State)
    requires Core(c, s) && Known(s.used, x)
    requires s' == s.(stream := Streamed(s.stream, x))
    ensures Core(c, s')
  {
    StreamedIs(s.stream, x);
    hide Latest, Acked, NoRepeats, Streamed;
    assert Grows(c, s, s');
    SameThreads(c, s, s');
    forall y | y in s'.stream ensures Known(s.used, y) {
    }
  }

  lemma AckAnswers(c: Config, journal: seq<Line>, id: nat, k: nat)
    ensures Acked(journal + [Ack(id)]) == Acked(journal) + {id}
    ensures Latest(c.engine, journal + [Ack(id)], k) == Latest(c.engine, journal, k)
  {
    assert (journal + [Ack(id)])[..|journal|] == journal;
  }

  /** Acknowledging an event that is on the stream. */
  lemma AckKeeps(c: Config, s: State, id: nat, s': State)
    requires Core(c, s) && id in Ids(s.stream)
    requires s' == s.(journal := s.journal + [Ack(id)])
    ensures Core(c, s')
  {
    forall k ensures Latest(c.engine, s'.journal, k) == Latest(c.engine, s.journal, k) {
      AckAnswers(c, s.journal, id, k);
    }
    AckAnswers(c, s.journal, id, 0);
    hide Latest, Acked, NoRepeats;
    assert Grows(c, s, s');
    SameThreads(c, s, s');
  }

  /** Forgetting queued rows and deliveries that are not acknowledged. */
  lemma ForgetKeeps(c: Config, s: State, s': State)
    requires Core(c, s) && s' == s.(queue := s'.queue, delivered := s'.delivered)
    requires AllKnown(s.used, Entries(s'.queue)) && s'.delivered <= Ids(s.stream)
    ensures Core(c, s')
  {
    hide Latest, Acked, NoRepeats;
    assert Grows(c, s, s');
    SameThreads(c, s, s');
  }

  lemma QueueWithout(s: State, i: nat)
    requires AllKnown(s.used, Entries(s.queue)) && i < |s.queue|
    ensures AllKnown(s.used, Entries(s.queue[..i] + s.queue[i + 1..]))
    ensures Known(s.used, (s.queue[i].id, s.queue[i].event))
  {
    var rest := s.queue[..i] + s.queue[i + 1..];
    assert Entries(s.queue)[i] in Entries(s.queue);
    forall y | y in Entries(rest) ensures Known(s.used, y) {
      var k :| 0 <= k < |rest| && Entries(rest)[k] == y;
      assert y == Entries(s.queue)[if k < i then k else k + 1];
    }
  }

  lemma PublishKeeps(c: Config, s: State, i: nat)
    requires Core(c, s) && Enabled(s, Publish(i))
    ensures Core(c, Do(c, s, Publish(i)))
  {
    var s', r := Do(c, s, Publish(i)), s.queue[i];
    var s1 := s.(stream := Streamed(s.stream, (r.id, r.event)));
    QueueWithout(s, i);
    StreamKeeps(c, s, (r.id, r.event), s1);
    StreamedIs(s.stream, (r.id, r.event));
    hide JournalInv, BookInv, ThreadsInv, Streamed, Entries;
    ForgetKeeps(c, s1, s');
  }

  lemma CompactKeeps(c: Config, s: State)
    requires Core(c, s) && Enabled(s, CompactFile)
    ensures Core(c, Do(c, s, CompactFile))
  {
    var s' := Do(c, s, CompactFile);
    forall k ensures Latest(c.engine, s'.journal, k) == if k in Acked(s.journal) then None else Latest(c.engine, s.journal, k) {
      CompactAnswers(c.engine, s.journal, c.engine, k);
    }
    CompactAnswers(c.engine, s.journal, c.engine, 0);
    hide Latest, Acked, NoRepeats, Compact;
    forall id | Durable(c, s, id) ensures Durable(c, s', id) {
    }
    assert JournalInv(c, s');
    assert BookInv(c, s');
  }

  ghost predicate HasRow(rows: seq<Row>, id: nat) {
    exists i :: 0 <= i < |rows| && rows[i].id == id
  }

  /** Every id of a market's log was saved for it or is the id of a row. */
  ghost predicate Draws(saved: map<string, seq<nat>>, rows: seq<Row>, log: map<string, seq<nat>>) {
    forall m, id :: id in LogOf(log, m) ==> id in LogOf(saved, m) || HasRow(rows, id)
  }

  lemma HasRowMore(rows: seq<Row>, id: nat)
    requires rows != [] && HasRow(rows[..|rows| - 1], id)
    ensures HasRow(rows, id)
  {
    var i :| 0 <= i < |rows| - 1 && rows[..|rows| - 1][i].id == id;
    assert rows[i].id == id;
  }

  lemma LastRowIsNew(rows: seq<Row>, id: nat)
    requires Ascending(rows) && rows != [] && HasRow(rows[..|rows| - 1], id)
    ensures id < rows[|rows| - 1].id
  {
    var i :| 0 <= i < |rows| - 1 && rows[..|rows| - 1][i].id == id;
  }

  lemma {:induction false} ReplayDraws(saved: map<string, seq<nat>>, rows: seq<Row>)
    ensures Draws(saved, rows, ReplayLog(saved, rows))
  {
    if rows != [] {
      var n := |rows| - 1;
      var before, log := ReplayLog(saved, rows[..n]), ReplayLog(saved, rows);
      ReplayDraws(saved, rows[..n]);
      forall m, id | id in LogOf(log, m) ensures id in LogOf(saved, m) || HasRow(rows, id) {
        if id in LogOf(before, m) {
          if HasRow(rows[..n], id) {
            HasRowMore(rows, id);
          }
        } else {
          assert rows[n].id == id;
        }
      }
    }
  }

  lemma AppliedHas(log: map<string, seq<nat>>, m: string, id: nat)
    requires id in LogOf(log, m)
    ensures id in Applied(log)
  {
  }

  lemma DistinctSnoc(ids: seq<nat>, id: nat)
    requires Distinct(ids) && id !in ids
    ensures Distinct(ids + [id])
  {
  }

  /** A row the restored books do not hold is new to its market's log. */
  lemma NewToLog(saved: map<string, seq<nat>>, rows: seq<Row>)
    requires Ascending(rows) && rows != [] && rows[|rows| - 1].id !in Applied(saved)
    ensures var r := rows[|rows| - 1];
            r.id !in LogOf(ReplayLog(saved, rows[..|rows| - 1]), r.event.market)
  {
    var n := |rows| - 1;
    var r := rows[n];
    ReplayDraws(saved, rows[..n]);
    hide ReplayLog, Applied;
    if r.id in LogOf(ReplayLog(saved, rows[..n]), r.event.market) {
      if r.id in LogOf(saved, r.event.market) {
        AppliedHas(saved, r.event.market, r.id);
      } else {
        LastRowIsNew(rows, r.id);
      }
    }
  }

  lemma {:induction false} ReplayLogInv(used: map<nat, MatchEvent>, saved: map<string, seq<nat>>, rows: seq<Row>)
    requires LogInv(used, saved) && Ascending(rows) && forall r :: r in rows ==> Known(used, (r.id, r.event))
    ensures LogInv(used, ReplayLog(saved, rows))
  {
    if rows != [] {
      var n := |rows| - 1;
      var r, log := rows[n], ReplayLog(saved, rows[..n]);
      ReplayLogInv(used, saved, rows[..n]);
      if r.id !in Applied(saved) {
        NewToLog(saved, rows);
        hide Ascending, Applied;
        var ids := LogOf(log, r.event.market);
        DistinctSnoc(ids, r.id);
        assert r in rows && Known(used, (r.id, r.event));
        hide Distinct;
        LogUpdate(used, log, r.event.market, ids + [r.id]);
      }
    }
  }

  lemma ScanRows(c: Config, s: State)
    requires JournalInv(c, s)
    ensures var rows := Scan(c.engine, s.journal);
            && Ascending(rows) && Ordered(Entries(rows))
            && AllKnown(s.used, Entries(rows))
            && (forall id :: id in Ids(Entries(rows)) ==> Durable(c, s, id))
  {
    var rows := Scan(c.engine, s.journal);
    ScanAnswers(c.engine, s.journal, 0);
    forall x | x in Entries(rows) ensures Known(s.used, x) && Durable(c, s, x.0) {
      var i :| 0 <= i < |rows| && Entries(rows)[i] == x;
      ScanRowIsLatest(c.engine, s.journal, rows[i]);
    }
  }

  lemma ScannedKnown(c: Config, s: State, r: Row)
    requires JournalInv(c, s) && r in Scan(c.engine, s.journal)
    ensures Known(s.used, (r.id, r.event))
  {
    ScanRowIsLatest(c.engine, s.journal, r);
    hide Scan, Latest, Acked, NoRepeats;
  }

  lemma RecoverBookInv(c: Config, s: State, counter: nat, s': State)
    requires Core(c, s)
    requires var rows := Scan(c.engine, s.journal);
             s' == s.(alive := true, next := counter, queue := rows, bookLog := ReplayLog(s.saved, rows),
                      committed := Noting(s.committed, Entries(rows)))
    ensures BookInv(c, s')
  {
    var rows := Scan(c.engine, s.journal);
    ScanRows(c, s);
    forall r | r in rows ensures Known(s.used, (r.id, r.event)) {
      ScannedKnown(c, s, r);
    }
    hide Latest, Noting, ReplayLog, Scan, Ordered, Ascending, Entries, LogInv, JournalInv, MemoryInv, ThreadsInv;
    NotingCommitted(c, s, s.committed, Entries(rows));
    ReplayLogInv(s.used, s.saved, rows);
    assert CommittedInv(c, s', s'.committed);
  }

  lemma RecoverIs(c: Config, s: State, counter: nat)
    requires Enabled(s, Recover(counter))
    ensures var rows := Scan(c.engine, s.journal);
            Do(c, s, Recover(counter)) == s.(alive := true, next := counter, queue := rows, bookLog := ReplayLog(s.saved, rows),
                                             committed := Noting(s.committed, Entries(rows)))
  {
  }

  lemma RecoverKeeps(c: Config, s: State, counter: nat)
    requires Core(c, s) && Enabled(s, Recover(counter)) && FreshCounter(s, counter)
    ensures Core(c, Do(c, s, Recover(counter)))
  {
    var s' := Do(c, s, Recover(counter));
    RecoverIs(c, s, counter);
    assert s.threads == map[];
    hide Latest, Acked, NoRepeats, Noting, ReplayLog, Scan, Entries, Do, Enabled;
    RecoverBookInv(c, s, counter, s');
    ScanRows(c, s);
    hide BookInv;
    assert s'.threads == map[];
  }

  // ----- events that reach the stream without a journal row

  lemma SendingJournal(c: Config, s: State, x: Entry, s': State)
    requires JournalInv(c, s) && s' == Sending(s, x) && x.0 !in s.used
    ensures JournalInv(c, s') && (forall y :: Known(s.used, y) ==> Known(s'.used, y))
    ensures forall id :: Durable(c, s, id) ==> Durable(c, s', id)
    ensures Known(s'.used, x) && Durable(c, s', x.0) && s'.used.Keys == s.used.Keys + {x.0}
    ensures Ids(s'.stream) == Ids(s.stream) + {x.0}
  {
    StreamedIs(s.stream, x);
    WrittenOnce(s.written, [x]);
    hide Latest, Acked, NoRepeats, Streamed;
    assert Ids([x]) == {x.0};
    forall y | Known(s.used, y) ensures Known(s'.used, y) {
    }
  }

  lemma SendingKeeps(c: Config, s: State, x: Entry, s': State)
    requires JournalInv(c, s) && MemoryInv(s) && BookInv(c, s) && s' == Sending(s, x)
    requires x.0 !in s.used && x.0 < s.next
    ensures JournalInv(c, s') && MemoryInv(s') && BookInv(c, s') && Grows(c, s, s')
    ensures Known(s'.used, x) && Durable(c, s', x.0) && s'.used.Keys == s.used.Keys + Ids([x])
  {
    SendingJournal(c, s, x, s');
    hide JournalInv, LogInv, Streamed, Durable, Entries;
    assert Ids([x]) == {x.0};
    LogGrows(s.used, s'.used, s.bookLog);
    LogGrows(s.used, s'.used, s.saved);
  }

  lemma PublishFirstIs(c: Config, s: State, t: nat)
    requires Enabled(s, PublishFirst(t))
    ensures t in s.threads && s.threads[t].Allocated? && s.threads[t].sent < |s.threads[t].pairs|
    ensures var p := s.threads[t];
            Do(c, s, PublishFirst(t)) == Sending(s, p.pairs[p.sent]).(threads := s.threads[t := AfterSending(p)])
  {
  }

  /** A placement that has just published its next event. */
  lemma SentInv(c: Config, s: State, p: Phase, s': State)
    requires ThreadInv(c, s, p) && p.Allocated? && p.sent < |p.pairs| && Grows(c, s, s')
    requires var x := p.pairs[p.sent];
             Known(s'.used, x) && Durable(c, s', x.0) && s'.used.Keys == s.used.Keys + Ids([x])
    ensures ThreadInv(c, s', AfterSending(p)) && Ids(Unlogged(AfterSending(p))) <= Ids(Unlogged(p))
  {
    hide Durable;
    var x, n := p.pairs[p.sent], p.sent;
    assert p.pairs[..n + 1] == p.pairs[..n] + [x] && p.pairs[n..] == [x] + p.pairs[n + 1..];
    assert n + 1 == |p.pairs| ==> p.pairs[..n + 1] == p.pairs;
    forall y | y in p.pairs[..n + 1] ensures Known(s'.used, y) && Durable(c, s', y.0) {
    }
    forall y | y in p.pairs[n + 1..] ensures y.0 < s'.next && y.0 !in s'.used {
      assert y.0 > x.0;
    }
  }

  lemma FirstUnlogged(c: Config, s: State, p: Phase)
    requires ThreadInv(c, s, p) && p.Allocated? && p.sent < |p.pairs|
    ensures var x := p.pairs[p.sent]; x.0 !in s.used && x.0 < s.next && Ids([x]) <= Ids(Unlogged(p))
  {
    hide Durable, Ordered;
    assert p.pairs[p.sent] == p.pairs[p.sent..][0];
  }

  lemma PublishFirstKeeps(c: Config, s: State, t: nat)
    requires Core(c, s) && Enabled(s, PublishFirst(t))
    ensures Core(c, Do(c, s, PublishFirst(t)))
  {
    hide *;
    CoreParts(c, s);
    PublishFirstIs(c, s, t);
    ThreadAt(c, s, t);
    var p := s.threads[t];
    var x := p.pairs[p.sent];
    var s1 := Sending(s, x);
    var s' := s1.(threads := s.threads[t := AfterSending(p)]);
    FirstUnlogged(c, s, p);
    SendingKeeps(c, s, x, s1);
    SendingThreads(c, s, t, s1, s');
    SendingRest(s, x);
    ExceptThreads(c, s1, s');
    CoreParts(c, s');
  }

  lemma SendingRest(s: State, x: Entry)
    ensures Sending(s, x) == s.(stream := Sending(s, x).stream, written := Sending(s, x).written, used := Sending(s, x).used)
  {
  }

  lemma SendingThreads(c: Config, s: State, t: nat, s1: State, s': State)
    requires ThreadsInv(c, s) && t in s.threads && s.threads[t].Allocated? && s.threads[t].sent < |s.threads[t].pairs|
    requires var p := s.threads[t]; var x := p.pairs[p.sent];
             && s1 == Sending(s, x) && Grows(c, s, s1) && Known(s1.used, x) && Durable(c, s1, x.0)
             && s1.used.Keys == s.used.Keys + Ids([x]) && s' == s1.(threads := s.threads[t := AfterSending(p)])
    ensures ThreadsInv(c, s')
  {
    var p := s.threads[t];
    assert ThreadInv(c, s, p);
    hide Latest;
    assert Grows(c, s, s');
    SentInv(c, s, p, s');
    FirstUnlogged(c, s, p);
    OtherUnlogged(c, s, s', t, [p.pairs[p.sent]]);
    forall u | u in s.threads && u != t
      ensures Apart(AfterSending(p), s.threads[u]) && Apart(s.threads[u], AfterSending(p))
    {
      assert Apart(p, s.threads[u]) && Apart(s.threads[u], p);
    }
    hide ThreadInv, Apart, Grows, Unused, Unlogged, AfterSending;
    SetThread(c, s, s', t, AfterSending(p));
  }

  // ----- plain placements

  lemma StorePlainIs(c: Config, s: State, t: nat, m: string, fills: seq<MatchEvent>)
    requires Enabled(s, StorePlain(t, m, fills))
    ensures s.alive && t !in s.threads
    ensures Do(c, s, StorePlain(t, m, fills)) == s.(threads := s.threads[t := Stored(|s.tickets|)],
                                                    tickets := s.tickets + [Ticket(m, fills, None)])
  {
  }

  lemma NumberPlainIs(c: Config, s: State, t: nat)
    requires Enabled(s, NumberPlain(t))
    ensures t in s.threads && s.threads[t].Stored? && s.threads[t].ticket < |s.tickets|
    ensures var k := s.threads[t].ticket;
            Do(c, s, NumberPlain(t)) == s.(threads := s.threads - {t}, tickets := s.tickets[k := s.tickets[k].(start := Some(s.next))],
                                           next := s.next + |s.tickets[k].fills|)
  {
  }

  lemma PublishPlainIs(c: Config, s: State, k: nat, i: nat)
    requires Enabled(s, PublishPlain(k, i))
    ensures k < |s.tickets| && i < |PairsOf(s.tickets[k])| && PairsOf(s.tickets[k])[i].0 !in s.used
    ensures Do(c, s, PublishPlain(k, i)) == Sending(s, PairsOf(s.tickets[k])[i])
  {
  }

  /** Only threads, tickets and the counter differ. */
  lemma TicketsMove(c: Config, s: State, s': State)
    requires JournalInv(c, s) && MemoryInv(s) && BookInv(c, s)
    requires s' == s.(threads := s'.threads, next := s'.next, tickets := s'.tickets) && s.alive && s.next <= s'.next
    ensures JournalInv(c, s') && MemoryInv(s') && BookInv(c, s') && Grows(c, s, s')
  {
    hide Latest, Acked, NoRepeats, LogInv;
  }

  lemma StorePlainKeeps(c: Config, s: State, t: nat, m: string, fills: seq<MatchEvent>)
    requires Core(c, s) && Enabled(s, StorePlain(t, m, fills))
    ensures Core(c, Do(c, s, StorePlain(t, m, fills)))
  {
    StorePlainIs(c, s, t, m, fills);
    hide Do, Enabled, JournalInv, MemoryInv, BookInv, Durable;
    var s' := Do(c, s, StorePlain(t, m, fills));
    TicketsMove(c, s, s');
    forall u | u in s.threads ensures Unused(s, s.threads[u]) {
      UnloggedUnused(c, s, u);
    }
    hide Grows;
    SetThread(c, s, s', t, Stored(|s.tickets|));
  }

  lemma NumberPlainKeeps(c: Config, s: State, t: nat)
    requires Core(c, s) && Enabled(s, NumberPlain(t))
    ensures Core(c, Do(c, s, NumberPlain(t)))
  {
    NumberPlainIs(c, s, t);
    ThreadAt(c, s, t);
    hide Do, Enabled, JournalInv, MemoryInv, BookInv, Durable;
    var s' := Do(c, s, NumberPlain(t));
    TicketsMove(c, s, s');
    forall u | u in s.threads ensures Unused(s, s.threads[u]) {
      UnloggedUnused(c, s, u);
    }
    hide Grows;
    DropThread(c, s, s', t);
  }

  lemma PublishPlainKeeps(c: Config, s: State, k: nat, i: nat)
    requires Inv(c, s) && Enabled(s, PublishPlain(k, i))
    ensures Core(c, Do(c, s, PublishPlain(k, i)))
  {
    PublishPlainIs(c, s, k, i);
    hide Do, Enabled, PairsOf, Latest;
    var x := PairsOf(s.tickets[k])[i];
    var s' := Sending(s, x);
    assert s.tickets[k] in s.tickets && x in PairsOf(s.tickets[k]) && TicketInv(s, s.tickets[k]);
    SendingKeeps(c, s, x, s');
    forall u | u in s.threads ensures Unused(s', s.threads[u]) {
      UnloggedUnused(c, s, u);
      assert x.0 !in Ids(Held(s.threads[u]));
    }
    hide JournalInv, MemoryInv, BookInv, Durable, Grows, Unused, TicketInv, ThreadInv;
    forall u | u in s'.threads ensures ThreadInv(c, s', s'.threads[u]) {
      ThreadGrows(c, s, s', s.threads[u]);
    }
  }

  // ----- what plain placements share with the others

  /** A step that gives nothing new to plain placements, and to the locked ones no id they did
      not hold. */
  ghost predicate Follows(s: State, s': State) {
    && s'.tickets == s.tickets && s.next <= s'.next && s'.alive == s.alive
    && (forall x :: Known(s'.used, x) ==> Known(s.used, x) || Mine(s, x.0))
    && (forall id :: Mine(s', id) ==> Mine(s, id))
    && (forall t :: t in s'.threads && s'.threads[t].Stored? ==> t in s.threads && s.threads[t] == s'.threads[t])
  }

  lemma FollowsKeeps(s: State, s': State)
    requires PlainInv(s) && Follows(s, s')
    ensures PlainInv(s')
  {
    hide Mine, PairsOf, Disjoint;
    forall k | k in s'.tickets ensures TicketInv(s', k) {
      assert TicketInv(s, k);
      forall x | x in PairsOf(k) ensures x.0 in s'.used ==> Known(s'.used, x) {
        if x.0 in s'.used {
          assert Known(s'.used, (x.0, s'.used[x.0]));
        }
      }
    }
  }

  lemma {:induction false} NotingOther(used: map<nat, MatchEvent>, pairs: seq<Entry>, x: Entry)
    requires Known(Noting(used, pairs), x)
    ensures Known(used, x) || x.0 in Ids(pairs)
  {
    if pairs != [] {
      var n := |pairs| - 1;
      assert pairs == pairs[..n] + [pairs[n]];
      if x.0 == pairs[n].0 {
        assert pairs[n] in pairs;
      } else {
        NotingOther(used, pairs[..n], x);
      }
    }
  }

  /** One thread changes or leaves and nothing else the locked placements own. */
  lemma ThreadFollows(s: State, s': State, t: nat, ids: set<nat>)
    requires t in s.threads && ids <= Ids(Held(s.threads[t]))
    requires s'.tickets == s.tickets && s.next <= s'.next && s'.alive == s.alive && s'.bookLog == s.bookLog
    requires s'.threads.Keys <= s.threads.Keys && forall u :: u in s'.threads && u != t ==> s'.threads[u] == s.threads[u]
    requires t in s'.threads ==> Ids(Held(s'.threads[t])) <= Ids(Held(s.threads[t])) && !s'.threads[t].Stored?
    requires forall x :: Known(s'.used, x) ==> Known(s.used, x) || x.0 in ids
    ensures Follows(s, s')
  {
    hide Held, Known;
    forall id | Mine(s', id) ensures Mine(s, id) {
      if exists u :: u in s'.threads && id in Ids(Held(s'.threads[u])) {
        var u :| u in s'.threads && id in Ids(Held(s'.threads[u]));
        assert id in Ids(Held(s.threads[u]));
      }
    }
    forall id | id in ids ensures Mine(s, id) {
    }
  }

  lemma NothingTouched(s: State, s': State)
    requires s'.tickets == s.tickets && s.next <= s'.next && s'.alive == s.alive
    requires s'.bookLog == s.bookLog && s'.threads == s.threads && s'.used == s.used
    ensures Follows(s, s')
  {
    hide Held, Known;
    forall id | Mine(s', id) ensures Mine(s, id) {
    }
  }

  lemma AppendFollows(c: Config, s: State, t: nat, s': State, durable: seq<Entry>)
    requires t in s.threads && s.threads[t].Allocated? && Ids(durable) <= Ids(s.threads[t].pairs)
    requires s' == s.(threads := s'.threads, journal := s'.journal, written := s'.written, used := Noting(s.used, durable))
    requires s'.threads == s.threads - {t} || s'.threads == s.threads[t := Logged(s.threads[t].market, s.threads[t].pairs)]
    ensures Follows(s, s')
  {
    forall x | Known(s'.used, x) ensures Known(s.used, x) || x.0 in Ids(durable) {
      NotingOther(s.used, durable, x);
    }
    hide Noting, Known;
    ThreadFollows(s, s', t, Ids(durable));
  }

  lemma CommitFollows(c: Config, s: State, t: nat, s': State)
    requires t in s.threads && s.threads[t].Logged?
    requires var p := s.threads[t];
             s' == s.(threads := s.threads[t := Enqueuing(p.pairs)], committed := s'.committed,
                      bookLog := s.bookLog[p.market := LogOf(s.bookLog, p.market) + IdsOf(p.pairs)])
    ensures Follows(s, s')
  {
    hide Known;
    var p := s.threads[t];
    forall id | Mine(s', id) ensures Mine(s, id) {
      if exists u :: u in s'.threads && id in Ids(Held(s'.threads[u])) {
        var u :| u in s'.threads && id in Ids(Held(s'.threads[u]));
        assert s.threads[u] == s'.threads[u];
      } else {
        var m :| m in s'.bookLog && id in s'.bookLog[m];
        if m == p.market && id !in LogOf(s.bookLog, m) {
          var i :| 0 <= i < |p.pairs| && IdsOf(p.pairs)[i] == id;
          assert p.pairs[i] in Held(p);
        }
      }
    }
  }

  lemma BeginFollows(s: State, t: nat, m: string, fills: seq<MatchEvent>, s': State)
    requires t !in s.threads && s' == s.(threads := s.threads[t := Matched(m, fills)])
    ensures Follows(s, s')
  {
    hide Known;
    forall id | Mine(s', id) ensures Mine(s, id) {
      if exists u :: u in s'.threads && id in Ids(Held(s'.threads[u])) {
        var u :| u in s'.threads && id in Ids(Held(s'.threads[u]));
        assert u != t;
      }
    }
  }

  lemma SendFollows(s: State, t: nat, s': State)
    requires t in s.threads && s.threads[t].Allocated? && s.threads[t].sent < |s.threads[t].pairs|
    requires var p := s.threads[t]; s' == Sending(s, p.pairs[p.sent]).(threads := s.threads[t := AfterSending(p)])
    ensures Follows(s, s')
  {
    var p := s.threads[t];
    assert p.pairs[p.sent] in Held(p);
    hide Streamed;
    ThreadFollows(s, s', t, {p.pairs[p.sent].0});
  }

  /** Every step that is neither a restart nor about the counter or plain placements. */
  ghost predicate Bystander(a: Action) {
    !a.Allocate? && !a.Crash? && !a.Recover? && !a.StorePlain? && !a.NumberPlain? && !a.PublishPlain?
  }

  ghost predicate Background(a: Action) {
    || a.PublishNow? || a.AckNow? || a.Publish? || a.PublishFails? || a.AckDelivered? || a.AckFails?
    || a.Snapshot? || a.CompactFile? || a.RecoveryExits?
  }

  lemma BackgroundFollows(c: Config, s: State, a: Action)
    requires Enabled(s, a) && Background(a)
    ensures Follows(s, Do(c, s, a))
  {
    hide Follows, Compact, Streamed;
    NothingTouched(s, Do(c, s, a));
  }

  lemma AppendingFollows(c: Config, s: State, a: Action)
    requires Enabled(s, a) && (a.AppendOk? || a.AppendFails?)
    ensures Follows(s, Do(c, s, a))
  {
    hide Follows, Noting, Lines;
    var pairs := s.threads[a.t].pairs;
    AppendFollows(c, s, a.t, Do(c, s, a), if a.AppendOk? then pairs else pairs[..Min(a.written, |pairs|)]);
  }

  lemma LeavingFollows(c: Config, s: State, a: Action)
    requires Enabled(s, a) && (a.Enqueue? || a.EnqueueFails? || a.GiveUp?)
    ensures Follows(s, Do(c, s, a))
  {
    hide Follows;
    ThreadFollows(s, Do(c, s, a), a.t, {});
  }

  lemma CommittingFollows(c: Config, s: State, t: nat)
    requires Enabled(s, CommitBook(t))
    ensures Follows(s, Do(c, s, CommitBook(t)))
  {
    hide Follows, Noting;
    CommitFollows(c, s, t, Do(c, s, CommitBook(t)));
  }

  lemma ActionFollows(c: Config, s: State, a: Action)
    requires Enabled(s, a) && Bystander(a)
    ensures Follows(s, Do(c, s, a))
  {
    hide Follows, Enabled, Do;
    match a
    case Begin(t, m, fills) =>
      BeginIs(c, s, t, m, fills);
      BeginFollows(s, t, m, fills, Do(c, s, a));
    case AppendOk(_) => AppendingFollows(c, s, a);
    case AppendFails(_, _) => AppendingFollows(c, s, a);
    case PublishFirst(t) =>
      PublishFirstIs(c, s, t);
      SendFollows(s, t, Do(c, s, a));
    case CommitBook(t) => CommittingFollows(c, s, t);
    case Enqueue(_) => LeavingFollows(c, s, a);
    case EnqueueFails(_) => LeavingFollows(c, s, a);
    case GiveUp(_) => LeavingFollows(c, s, a);
    case _ => BackgroundFollows(c, s, a);
  }

  lemma AllocateKeepsPlain(c: Config, s: State, t: nat)
    requires PlainInv(s) && Enabled(s, Allocate(t))
    ensures PlainInv(Do(c, s, Allocate(t)))
  {
    AllocateIs(c, s, t);
    var s', p := Do(c, s, Allocate(t)), s.threads[t];
    NumberedAbove(s.next, p.fills);
    hide Do, Enabled, PairsOf, Numbered, Disjoint;
    forall id | Mine(s', id) ensures Mine(s, id) || s.next <= id {
      if exists u :: u in s'.threads && id in Ids(Held(s'.threads[u])) {
        var u :| u in s'.threads && id in Ids(Held(s'.threads[u]));
        assert u != t ==> s.threads[u] == s'.threads[u];
      }
    }
    hide Mine;
    forall k | k in s'.tickets ensures TicketInv(s', k) {
      assert TicketInv(s, k);
    }
  }

  lemma DisjointSnoc(tickets: seq<Ticket>, k: Ticket)
    requires Disjoint(tickets) && k.start.None?
    ensures Disjoint(tickets + [k])
  {
    hide Numbered;
    var all := tickets + [k];
    forall i, j | 0 <= i < j < |all| ensures Ids(PairsOf(all[i])) !! Ids(PairsOf(all[j])) {
    }
  }

  lemma WaitingMore(threads: map<nat, Phase>, tickets: seq<Ticket>, t: nat, k: Ticket)
    requires Waiting(threads, tickets) && t !in threads && k.start.None?
    ensures Waiting(threads[t := Stored(|tickets|)], tickets + [k])
  {
  }

  lemma StoreKeepsPlain(c: Config, s: State, t: nat, m: string, fills: seq<MatchEvent>)
    requires PlainInv(s) && Enabled(s, StorePlain(t, m, fills))
    ensures PlainInv(Do(c, s, StorePlain(t, m, fills)))
  {
    StorePlainIs(c, s, t, m, fills);
    var s', new' := Do(c, s, StorePlain(t, m, fills)), Ticket(m, fills, None);
    hide Do, Enabled, Numbered, Known, Disjoint, Waiting;
    DisjointSnoc(s.tickets, new');
    WaitingMore(s.threads, s.tickets, t, new');
    forall id | Mine(s', id) ensures Mine(s, id) {
      if exists u :: u in s'.threads && id in Ids(Held(s'.threads[u])) {
        var u :| u in s'.threads && id in Ids(Held(s'.threads[u]));
        assert u != t;
      }
    }
    hide Mine;
    forall k | k in s'.tickets ensures TicketInv(s', k) {
      if k in s.tickets {
        assert TicketInv(s, k);
      } else {
        assert k == new' && PairsOf(k) == [];
      }
    }
  }

  /** Ids from the counter belong to nobody yet. */
  lemma CounterIsNobodys(c: Config, s: State, id: nat)
    requires Core(c, s) && s.alive && s.next <= id
    ensures id !in s.used && !Mine(s, id)
  {
    hide JournalInv, Durable, Ordered, Later;
    forall t | t in s.threads ensures id !in Ids(Held(s.threads[t])) {
      var p := s.threads[t];
      assert ThreadInv(c, s, p);
      forall x | x in Held(p) ensures x.0 < s.next {
        if p.Allocated? {
          assert p.pairs == p.pairs[..p.sent] + p.pairs[p.sent..];
          assert x in p.pairs[..p.sent] ==> Known(s.used, x);
        } else {
          assert Known(s.used, x);
        }
      }
    }
    forall m | m in s.bookLog ensures id !in s.bookLog[m] {
      assert Owns(s.used, m, s.bookLog[m]);
    }
  }

  lemma NumberKeepsPlain(c: Config, s: State, t: nat)
    requires Inv(c, s) && Enabled(s, NumberPlain(t))
    ensures PlainInv(Do(c, s, NumberPlain(t)))
  {
    NumberPlainIs(c, s, t);
    ThreadAt(c, s, t);
    var s', k := Do(c, s, NumberPlain(t)), s.threads[t].ticket;
    var ticket := s'.tickets[k];
    NumberedAbove(s.next, ticket.fills);
    hide Do, Enabled, Numbered, JournalInv, MemoryInv, BookInv, ThreadsInv, Known;
    forall id | Mine(s', id) ensures Mine(s, id) {
      if exists u :: u in s'.threads && id in Ids(Held(s'.threads[u])) {
        var u :| u in s'.threads && id in Ids(Held(s'.threads[u]));
        assert s.threads[u] == s'.threads[u];
      }
    }
    forall x | x in PairsOf(ticket) ensures x.0 < s'.next && x.0 !in s'.used && !Mine(s', x.0) {
      CounterIsNobodys(c, s, x.0);
    }
    hide Mine, Core;
    NumberedTickets(s, k, s');
  }

  lemma NumberedTickets(s: State, k: nat, s': State)
    requires PlainInv(s) && k < |s.tickets| && s.tickets[k].start.None? && s'.alive && s'.used == s.used && s.next <= s'.next
    requires s'.tickets == s.tickets[k := s.tickets[k].(start := Some(s.next))] && s'.threads.Keys <= s.threads.Keys
    requires forall u :: u in s'.threads ==> s'.threads[u] == s.threads[u] && s'.threads[u] != Stored(k)
    requires forall id :: Mine(s', id) ==> Mine(s, id)
    requires forall x :: x in PairsOf(s'.tickets[k]) ==> s.next <= x.0 < s'.next && x.0 !in s'.used && !Mine(s', x.0)
    ensures PlainInv(s')
  {
    hide Mine, PairsOf, Known;
    forall ticket | ticket in s'.tickets ensures TicketInv(s', ticket) {
      var j :| 0 <= j < |s'.tickets| && s'.tickets[j] == ticket;
      if j != k {
        assert s.tickets[j] in s.tickets && TicketInv(s, ticket);
      }
    }
    forall i, j | 0 <= i < j < |s'.tickets| ensures Ids(PairsOf(s'.tickets[i])) !! Ids(PairsOf(s'.tickets[j])) {
      if i != k && j != k {
        assert Ids(PairsOf(s.tickets[i])) !! Ids(PairsOf(s.tickets[j]));
      } else {
        var other := if i == k then j else i;
        assert s.tickets[other] in s.tickets && TicketInv(s, s.tickets[other]);
      }
    }
  }

  lemma PublishKeepsPlain(c: Config, s: State, k: nat, i: nat)
    requires PlainInv(s) && Enabled(s, PublishPlain(k, i))
    ensures PlainInv(Do(c, s, PublishPlain(k, i)))
  {
    PublishPlainIs(c, s, k, i);
    var s', x := Do(c, s, PublishPlain(k, i)), PairsOf(s.tickets[k])[i];
    hide Do, Enabled, PairsOf, Streamed;
    assert x in PairsOf(s.tickets[k]) && x.0 in Ids(PairsOf(s.tickets[k]));
    forall id | Mine(s', id) ensures Mine(s, id) {
    }
    hide Mine;
    forall ticket | ticket in s'.tickets ensures TicketInv(s', ticket) {
      assert TicketInv(s, ticket);
      var j :| 0 <= j < |s.tickets| && s.tickets[j] == ticket;
      forall y | y in PairsOf(ticket) ensures y.0 in s'.used ==> Known(s'.used, y) {
        if y.0 == x.0 {
          assert y.0 in Ids(PairsOf(ticket));
          assert j == k;
          SameEntry(s.tickets[k], x, y);
        }
      }
    }
  }

  lemma SameEntry(k: Ticket, x: Entry, y: Entry)
    requires x in PairsOf(k) && y in PairsOf(k) && x.0 == y.0
    ensures x == y
  {
    var pairs := PairsOf(k);
    var i :| 0 <= i < |pairs| && pairs[i] == x;
    var j :| 0 <= j < |pairs| && pairs[j] == y;
    assert i == j;
  }

  lemma NothingPlain(s: State)
    requires s.threads == map[] && s.tickets == []
    ensures PlainInv(s)
  {
  }

  lemma ActionKeepsPlain(c: Config, s: State, a: Action)
    requires Inv(c, s) && Enabled(s, a)
    ensures PlainInv(Do(c, s, a))
  {
    hide PlainInv, Follows, Core;
    if Bystander(a) {
      hide Do, Enabled;
      ActionFollows(c, s, a);
      FollowsKeeps(s, Do(c, s, a));
    } else {
      match a
      case Allocate(t) => AllocateKeepsPlain(c, s, t);
      case StorePlain(t, m, fills) => StoreKeepsPlain(c, s, t, m, fills);
      case NumberPlain(t) => NumberKeepsPlain(c, s, t);
      case PublishPlain(k, i) => PublishKeepsPlain(c, s, k, i);
      case Crash => NothingPlain(Do(c, s, a));
      case Recover(counter) =>
        DownIsEmpty(c, s);
        NothingPlain(Do(c, s, a));
    }
  }

  lemma DownIsEmpty(c: Config, s: State)
    requires Inv(c, s) && !s.alive
    ensures s.threads == map[] && s.tickets == []
  {
  }

  /** Every action keeps the invariant; a restart does if its counter is fresh. */
  lemma ActionKeeps(c: Config, s: State, a: Action)
    requires Inv(c, s) && Enabled(s, a) && (a.Recover? ==> FreshCounter(s, a.counter))
    ensures Inv(c, Do(c, s, a))
  {
    ActionKeepsPlain(c, s, a);
    ActionKeepsCore(c, s, a);
    hide PlainInv, Core, Do, Enabled;
  }

  lemma ActionKeepsCore(c: Config, s: State, a: Action)
    requires Inv(c, s) && Enabled(s, a) && (a.Recover? ==> FreshCounter(s, a.counter))
    ensures Core(c, Do(c, s, a))
  {
    hide *;
    InvIs(c, s);
    match a {
      case Begin(t, m, fills) => BeginKeeps(c, s, t, m, fills);
      case Allocate(t) => AllocateKeeps(c, s, t);
      case AppendOk(t) => AppendOkKeeps(c, s, t);
      case AppendFails(t, written) => AppendFailsKeeps(c, s, t, written);
      case PublishFirst(t) => PublishFirstKeeps(c, s, t);
      case CommitBook(t) => CommitBookKeeps(c, s, t);
      case Enqueue(t) => EnqueueKeeps(c, s, t);
      case EnqueueFails(t) => LeavingKeeps(c, s, a);
      case PublishNow(t, i) => PublishNowKeeps(c, s, t, i);
      case AckNow(t, i) => AckNowKeeps(c, s, t, i);
      case GiveUp(t) => LeavingKeeps(c, s, a);
      case Publish(i) => PublishKeeps(c, s, i);
      case PublishFails(i) => PublishFailsKeeps(c, s, i);
      case AckDelivered(id) => AckDeliveredKeeps(c, s, id);
      case AckFails(id) => AckFailsKeeps(c, s, id);
      case Snapshot => SnapshotKeeps(c, s);
      case Crash => CrashKeeps(c, s);
      case CompactFile => CompactKeeps(c, s);
      case Recover(counter) => RecoverKeeps(c, s, counter);
      case RecoveryExits => ExitIs(c, s);
      case StorePlain(t, m, fills) => StorePlainKeeps(c, s, t, m, fills);
      case NumberPlain(t) => NumberPlainKeeps(c, s, t);
      case PublishPlain(k, i) => PublishPlainKeeps(c, s, k, i);
    }
  }

  lemma InvIs(c: Config, s: State)
    ensures Inv(c, s) <==> Core(c, s) && PlainInv(s)
  {
    hide Core, PlainInv;
  }

  lemma ExitIs(c: Config, s: State)
    requires !s.alive || Enabled(s, RecoveryExits)
    ensures Enabled(s, RecoveryExits) && Do(c, s, RecoveryExits) == s
  {
  }

  lemma LeavingKeeps(c: Config, s: State, a: Action)
    requires Core(c, s) && Enabled(s, a) && (a.EnqueueFails? || a.GiveUp?)
    ensures Core(c, Do(c, s, a))
  {
    hide Core;
    LeaveKeeps(c, s, a.t, Do(c, s, a));
  }

  lemma PublishNowKeeps(c: Config, s: State, t: nat, i: nat)
    requires Core(c, s) && Enabled(s, PublishNow(t, i))
    ensures Core(c, Do(c, s, PublishNow(t, i)))
  {
    hide JournalInv, MemoryInv, BookInv, Streamed;
    PublishNowKnown(c, s, t, i);
    StreamKeeps(c, s, s.threads[t].pairs[i], Do(c, s, PublishNow(t, i)));
  }

  lemma AckNowKeeps(c: Config, s: State, t: nat, i: nat)
    requires Core(c, s) && Enabled(s, AckNow(t, i))
    ensures Core(c, Do(c, s, AckNow(t, i)))
  {
    hide Core;
    AckKeeps(c, s, s.threads[t].pairs[i].0, Do(c, s, AckNow(t, i)));
  }

  lemma PublishFailsKeeps(c: Config, s: State, i: nat)
    requires Core(c, s) && Enabled(s, PublishFails(i))
    ensures Core(c, Do(c, s, PublishFails(i)))
  {
    hide JournalInv, BookInv, ThreadsInv, Entries;
    QueueWithout(s, i);
    ForgetKeeps(c, s, Do(c, s, PublishFails(i)));
  }

  lemma AckDeliveredKeeps(c: Config, s: State, id: nat)
    requires Core(c, s) && Enabled(s, AckDelivered(id))
    ensures Core(c, Do(c, s, AckDelivered(id)))
  {
    hide JournalInv, BookInv, ThreadsInv, Entries;
    var s' := Do(c, s, AckDelivered(id));
    var s1 := s'.(delivered := s.delivered);
    AckKeeps(c, s, id, s1);
    ForgetKeeps(c, s1, s');
  }

  lemma AckFailsKeeps(c: Config, s: State, id: nat)
    requires Core(c, s) && Enabled(s, AckFails(id))
    ensures Core(c, Do(c, s, AckFails(id)))
  {
    hide JournalInv, BookInv, ThreadsInv, Entries;
    ForgetKeeps(c, s, Do(c, s, AckFails(id)));
  }

  lemma PublishNowKnown(c: Config, s: State, t: nat, i: nat)
    requires ThreadsInv(c, s) && Enabled(s, PublishNow(t, i))
    ensures Known(s.used, s.threads[t].pairs[i])
  {
    assert ThreadInv(c, s, s.threads[t]);
    assert s.threads[t].pairs[i] in s.threads[t].pairs;
  }

  lemma SnapshotKeeps(c: Config, s: State)
    requires Core(c, s) && Enabled(s, Snapshot)
    ensures Core(c, Do(c, s, Snapshot))
  {
    hide Latest, Acked, NoRepeats, LogInv;
    var s' := Do(c, s, Snapshot);
    assert Grows(c, s, s');
    SameThreads(c, s, s');
  }

  lemma CrashKeeps(c: Config, s: State)
    requires Core(c, s) && Enabled(s, Crash)
    ensures Core(c, Do(c, s, Crash))
  {
    hide Latest, Acked, NoRepeats;
  }

  lemma {:induction false} RunKeeps(c: Config, s: State, actions: seq<Action>)
    requires Inv(c, s) && FreshRun(c, s, actions)
    ensures Run(c, s, actions) && Inv(c, After(c, s, actions))
    decreases |actions|
  {
    hide Inv, Enabled, Do, FreshCounter;
    if actions != [] {
      ActionKeeps(c, s, actions[0]);
      RunKeeps(c, Do(c, s, actions[0]), actions[1..]);
    }
  }

  /** No id stands for two events.  None reaches the journal or the stream as two events; none
      is in a log twice or in the logs of two markets; what placements under way have taken and
      not recorded is theirs alone; and the ids of plain placements are their own, whether or
      not they have been published. */
  ghost predicate UniqueIds(s: State) {
    && NoRepeats(s.written)
    && (forall m :: m in s.bookLog ==> Distinct(s.bookLog[m]))
    && (forall m, n, id :: m in s.bookLog && n in s.bookLog && m != n && id in s.bookLog[m] ==> id !in s.bookLog[n])
    && (forall t :: t in s.threads ==> Ids(Unlogged(s.threads[t])) !! Ids(s.written))
    && (forall t, u :: t in s.threads && u in s.threads && t != u ==> Ids(Unlogged(s.threads[t])) !! Ids(Unlogged(s.threads[u])))
    && Disjoint(s.tickets)
    && (forall k, x :: k in s.tickets && x in PairsOf(k) ==> !Mine(s, x.0) && (x.0 in Ids(s.written) ==> x in s.written))
  }

  lemma WrittenIs(c: Config, s: State, x: Entry)
    requires JournalInv(c, s) && Known(s.used, x)
    ensures x in s.written
  {
    hide Latest, Acked;
    assert x.0 in Ids(s.written);
    var y :| y in s.written && y.0 == x.0;
    assert Known(s.used, y);
  }

  lemma InvIsUnique(c: Config, s: State)
    requires Inv(c, s)
    ensures UniqueIds(s)
  {
    hide Latest, Acked, NoRepeats, Distinct, Mine, PairsOf, Disjoint, MemoryInv, Waiting, Durable, Unlogged;
    forall m, n, id | m in s.bookLog && n in s.bookLog && m != n && id in s.bookLog[m] ensures id !in s.bookLog[n] {
      assert Owns(s.used, m, s.bookLog[m]) && Owns(s.used, n, s.bookLog[n]);
    }
    forall t | t in s.threads ensures Ids(Unlogged(s.threads[t])) !! Ids(s.written) {
      UnloggedUnused(c, s, t);
    }
    forall t, u | t in s.threads && u in s.threads && t != u ensures Ids(Unlogged(s.threads[t])) !! Ids(Unlogged(s.threads[u])) {
      assert Apart(s.threads[t], s.threads[u]);
    }
    forall k, x | k in s.tickets && x in PairsOf(k) ensures !Mine(s, x.0) && (x.0 in Ids(s.written) ==> x in s.written) {
      assert TicketInv(s, k);
      if x.0 in s.used {
        WrittenIs(c, s, x);
      }
    }
  }

  /** Crash safety.  In every run whose restarts restore a counter beyond the ids already
      used: every fill a book has taken is on the stream or comes back from the journal
      scan, each message id is on the stream once, and no id ever stands for two events. */
  lemma CrashSafety(c: Config, actions: seq<Action>)
    requires FreshRun(c, INITIAL, actions)
    ensures Run(c, INITIAL, actions)
    ensures var s := After(c, INITIAL, actions);
            Safe(c, s) && NoRepeats(s.stream) && UniqueIds(s)
  {
    InitialInv(c);
    RunKeeps(c, INITIAL, actions);
    InvIsSafe(c, After(c, INITIAL, actions));
    InvIsUnique(c, After(c, INITIAL, actions));
  }

  lemma InitialInv(c: Config)
    ensures Inv(c, INITIAL)
  {
  }
}
