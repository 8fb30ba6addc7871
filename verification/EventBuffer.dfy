/** The sorted, bounded buffer of match events and the poller that reads it. */
module EventBuffer {
  import opened Types

  const MAX_EVENTS: nat := 5_000_000

  type Entry = (nat, MatchEvent)

  ghost predicate Ordered(buf: seq<Entry>) {
    forall i, j :: 0 <= i < j < |buf| ==> buf[i].0 < buf[j].0
  }

  /** The number of leading entries with a smaller id: where `id` is or belongs. */
  function Rank(buf: seq<Entry>, id: nat): (i: nat)
    ensures i <= |buf|
    ensures forall k :: 0 <= k < i ==> buf[k].0 < id
    ensures i < |buf| ==> id <= buf[i].0
  {
    if buf == [] || id <= buf[0].0 then 0
    else
      var j := Rank(buf[1..], id);
      assert forall k :: 0 < k < 1 + j ==> buf[k] == buf[1..][k - 1];
      1 + j
  }

  /** The buffer with a new id spliced in, before anything is dropped. */
  function Splice(buf: seq<Entry>, id: nat, e: MatchEvent): (w: seq<Entry>)
    ensures |w| == |buf| + 1
  {
    var i := Rank(buf, id);
    buf[..i] + [(id, e)] + buf[i..]
  }

  /** Insert unless present, then drop the oldest entries beyond the capacity. */
  function InsertEntry(buf: seq<Entry>, cap: nat, id: nat, e: MatchEvent): seq<Entry> {
    var i := Rank(buf, id);
    if i < |buf| && buf[i].0 == id then buf
    else
      var w := Splice(buf, id, e);
      if |w| > cap then w[|w| - cap..] else w
  }

  lemma {:induction false} RankIs(buf: seq<Entry>, id: nat, i: nat)
    requires i <= |buf| && (forall k :: 0 <= k < i ==> buf[k].0 < id)
    requires forall k :: i <= k < |buf| ==> id <= buf[k].0
    ensures Rank(buf, id) == i
  {
    if buf != [] && buf[0].0 < id {
      RankIs(buf[1..], id, i - 1);
    }
  }

  /** `binary_search_by_key`: the position of `id`, or the one where it belongs. */
  method BinarySearch(buf: seq<Entry>, id: nat) returns (i: nat)
    requires Ordered(buf)
    ensures i == Rank(buf, id)
  {
    var lo, hi := 0, |buf|;
    while lo < hi
      invariant 0 <= lo <= hi <= |buf|
      invariant forall k :: 0 <= k < lo ==> buf[k].0 < id
      invariant forall k :: hi <= k < |buf| ==> id <= buf[k].0
    {
      var mid := (lo + hi) / 2;
      if buf[mid].0 < id {
        lo := mid + 1;
      } else {
        hi := mid;
      }
    }
    i := lo;
    RankIs(buf, id, i);
  }

  // ----- the buffer against the history of insertions

  function InsertAll(cap: nat, history: seq<Entry>): seq<Entry> {
    if history == [] then []
    else
      var last := history[|history| - 1];
      InsertEntry(InsertAll(cap, history[..|history| - 1]), cap, last.0, last.1)
  }

  /** Each id ever inserted, with the payload it was first inserted with. */
  function FirstPayload(history: seq<Entry>): map<nat, MatchEvent> {
    if history == [] then map[]
    else Noted(FirstPayload(history[..|history| - 1]), history[|history| - 1])
  }

  function Noted(m: map<nat, MatchEvent>, x: Entry): map<nat, MatchEvent> {
    if x.0 in m then m else m[x.0 := x.1]
  }

  ghost predicate Has(buf: seq<Entry>, id: nat) {
    exists i :: 0 <= i < |buf| && buf[i].0 == id
  }

  /** `buf` is, in order, the `cap` entries of `m` with the highest ids. */
  ghost predicate TopOf(buf: seq<Entry>, cap: nat, m: map<nat, MatchEvent>) {
    && Ordered(buf)
    && |buf| == Min(cap, |m|)
    && Drawn(buf, m)
    && (forall id :: id in m ==> Has(buf, id) || (|buf| == cap && Below(id, buf)))
  }

  ghost predicate Below(id: nat, buf: seq<Entry>) {
    forall i :: 0 <= i < |buf| ==> id < buf[i].0
  }

  ghost predicate Drawn(buf: seq<Entry>, m: map<nat, MatchEvent>) {
    forall i :: 0 <= i < |buf| ==> buf[i].0 in m && m[buf[i].0] == buf[i].1
  }

  lemma SpliceHas(buf: seq<Entry>, id: nat, e: MatchEvent)
    requires Ordered(buf) && !Has(buf, id)
    ensures Ordered(Splice(buf, id, e))
    ensures forall k :: 0 <= k < |buf| + 1 ==> Splice(buf, id, e)[k] == (id, e) || Splice(buf, id, e)[k] in buf
    ensures forall x :: x == id || Has(buf, x) ==> Has(Splice(buf, id, e), x)
  {
    var i := Rank(buf, id);
    var w := Splice(buf, id, e);
    assert w[i] == (id, e);
    assert i < |buf| ==> buf[i].0 != id;
    forall x | Has(buf, x) ensures Has(w, x) {
      var k :| 0 <= k < |buf| && buf[k].0 == x;
      assert w[if k < i then k else k + 1] == buf[k];
    }
  }

  lemma InsertOrdered(buf: seq<Entry>, cap: nat, id: nat, e: MatchEvent)
    requires Ordered(buf)
    ensures Ordered(InsertEntry(buf, cap, id, e))
  {
    var i := Rank(buf, id);
    if !(i < |buf| && buf[i].0 == id) {
      assert !Has(buf, id);
      SpliceHas(buf, id, e);
    }
  }

  lemma SpliceDrawn(buf: seq<Entry>, id: nat, e: MatchEvent, m: map<nat, MatchEvent>)
    requires Ordered(buf) && Drawn(buf, m) && id !in m
    ensures Drawn(Splice(buf, id, e), m[id := e])
  {
    var w := Splice(buf, id, e);
    assert !Has(buf, id);
    SpliceHas(buf, id, e);
    forall k | 0 <= k < |w| ensures w[k].0 in m[id := e] && m[id := e][w[k].0] == w[k].1 {
      if w[k] in buf {
        var j :| 0 <= j < |buf| && buf[j] == w[k];
      }
    }
  }

  lemma TailOf(w: seq<Entry>, m: map<nat, MatchEvent>)
    requires Ordered(w) && Drawn(w, m) && w != []
    ensures Ordered(w[1..]) && Drawn(w[1..], m)
  {
  }

  lemma InsertSplices(buf: seq<Entry>, cap: nat, id: nat, e: MatchEvent)
    requires !Has(buf, id)
    ensures var w := Splice(buf, id, e);
            InsertEntry(buf, cap, id, e) == if |w| > cap then w[|w| - cap..] else w
  {
  }

  lemma GrowMap(m: map<nat, MatchEvent>, id: nat, e: MatchEvent)
    requires id !in m
    ensures |m[id := e]| == |m| + 1
  {
    assert m[id := e].Keys == m.Keys + {id};
  }

  lemma InsertAbsent(buf: seq<Entry>, cap: nat, id: nat, e: MatchEvent, m: map<nat, MatchEvent>)
    requires TopOf(buf, cap, m) && id !in m
    ensures TopOf(InsertEntry(buf, cap, id, e), cap, m[id := e])
  {
    assert !Has(buf, id);
    hide Splice, InsertEntry, Has, Below, Drawn, Ordered;
    var w, r, m' := Splice(buf, id, e), InsertEntry(buf, cap, id, e), m[id := e];
    InsertSplices(buf, cap, id, e);
    SpliceHas(buf, id, e);
    SpliceDrawn(buf, id, e, m);
    GrowMap(m, id, e);
    if |w| > cap {
      assert |w| == cap + 1;
      TailOf(w, m');
      forall x | x in m' ensures Has(w[1..], x) || Below(x, w[1..]) {
        assert x == id || x in m;
        KeptOrBelow(buf, id, e, x);
      }
    } else {
      forall x | x in m' ensures Has(w, x) {
        assert x == id || x in m;
      }
    }
  }

  lemma KeptOrBelow(buf: seq<Entry>, id: nat, e: MatchEvent, x: nat)
    requires Ordered(buf) && !Has(buf, id)
    requires x == id || Has(buf, x) || Below(x, buf)
    ensures var r := Splice(buf, id, e)[1..]; Has(r, x) || Below(x, r)
  {
    var w := Splice(buf, id, e);
    SpliceHas(buf, id, e);
    if x == id || Has(buf, x) {
      hide Splice;
      HasTail(w, x);
    } else {
      BelowSplice(buf, id, e, x);
    }
  }

  lemma HasTail(w: seq<Entry>, x: nat)
    requires Ordered(w) && Has(w, x)
    ensures Has(w[1..], x) || Below(x, w[1..])
  {
    var k :| 0 <= k < |w| && w[k].0 == x;
    if k > 0 {
      assert w[1..][k - 1].0 == x;
    }
  }

  lemma BelowSplice(buf: seq<Entry>, id: nat, e: MatchEvent, x: nat)
    requires Ordered(buf) && Below(x, buf)
    ensures Below(x, Splice(buf, id, e)[1..])
  {
    var i, w := Rank(buf, id), Splice(buf, id, e);
    forall k | 1 <= k < |w| ensures x < w[k].0 {
      if k < i {
        assert w[k] == buf[k];
      } else if k == i {
        assert w[k] == (id, e) && buf[0].0 < id;
      } else {
        assert w[k] == buf[k - 1];
      }
    }
  }

  lemma InsertPresent(buf: seq<Entry>, cap: nat, id: nat, e: MatchEvent, m: map<nat, MatchEvent>)
    requires TopOf(buf, cap, m) && id in m
    ensures InsertEntry(buf, cap, id, e) == buf
  {
    var i := Rank(buf, id);
    if Has(buf, id) {
      var k :| 0 <= k < |buf| && buf[k].0 == id;
      assert i == k;
    } else {
      assert i == 0;
      assert ([] + [(id, e)] + buf)[1..] == buf;
    }
  }

  lemma InsertKeepsTop(buf: seq<Entry>, cap: nat, x: Entry, m: map<nat, MatchEvent>)
    requires TopOf(buf, cap, m)
    ensures TopOf(InsertEntry(buf, cap, x.0, x.1), cap, Noted(m, x))
  {
    if x.0 in m {
      InsertPresent(buf, cap, x.0, x.1, m);
    } else {
      InsertAbsent(buf, cap, x.0, x.1, m);
    }
  }

  /** Under any insertion order, with repeats, the buffer holds exactly the highest ids
      ever inserted, sorted, each with its first payload. */
  lemma {:induction false} BufferIsTopOfHistory(cap: nat, history: seq<Entry>)
    ensures TopOf(InsertAll(cap, history), cap, FirstPayload(history))
  {
    if history != [] {
      var n := |history| - 1;
      BufferIsTopOfHistory(cap, history[..n]);
      InsertKeepsTop(InsertAll(cap, history[..n]), cap, history[n], FirstPayload(history[..n]));
    }
  }

  function Ids(buf: seq<Entry>): set<nat> {
    set x | x in buf :: x.0
  }

  lemma {:induction false} OrderedCount(buf: seq<Entry>)
    requires Ordered(buf)
    ensures |Ids(buf)| == |buf|
  {
    if buf != [] {
      OrderedCount(buf[1..]);
      assert buf == [buf[0]] + buf[1..];
      assert Ids(buf) == {buf[0].0} + Ids(buf[1..]);
      assert buf[0].0 !in Ids(buf[1..]);
    }
  }

  lemma IdsAre(buf: seq<Entry>, id: nat)
    ensures id in Ids(buf) <==> Has(buf, id)
  {
    if id in Ids(buf) {
      var x :| x in buf && x.0 == id;
      var i :| 0 <= i < |buf| && buf[i] == x;
    }
    if Has(buf, id) {
      var i :| 0 <= i < |buf| && buf[i].0 == id;
      assert buf[i] in buf;
    }
  }

  lemma TopIncluded(a: seq<Entry>, b: seq<Entry>, cap: nat, m: map<nat, MatchEvent>, x: Entry)
    requires TopOf(a, cap, m) && TopOf(b, cap, m) && x in a
    ensures x in b
  {
    var i :| 0 <= i < |a| && a[i] == x;
    assert x.0 in m && m[x.0] == x.1;
    if !Has(b, x.0) {
      OrderedCount(a);
      OrderedCount(b);
      IdsAre(a, x.0);
      IdsAre(b, x.0);
      SmallerMissing(Ids(a), Ids(b), x.0);
      var y :| y in Ids(b) && y !in Ids(a);
      IdsAre(a, y);
      IdsAre(b, y);
      TopLess(a, cap, m, y, x.0);
      TopLess(b, cap, m, x.0, y);
    }
    var j :| 0 <= j < |b| && b[j].0 == x.0;
    assert b[j] == x;
  }

  lemma TopLess(a: seq<Entry>, cap: nat, m: map<nat, MatchEvent>, y: nat, x: nat)
    requires TopOf(a, cap, m) && y in m && !Has(a, y) && Has(a, x)
    ensures y < x
  {
    var i :| 0 <= i < |a| && a[i].0 == x;
  }

  lemma SmallerMissing(a: set<nat>, b: set<nat>, x: nat)
    requires |a| == |b| && x in a && x !in b
    ensures exists y :: y in b && y !in a
  {
    if b <= a {
      SubsetCount(b, a - {x});
    }
  }

  lemma {:induction false} SubsetCount(a: set<nat>, b: set<nat>)
    requires a <= b
    ensures |a| <= |b|
  {
    if a != {} {
      var x :| x in a;
      SubsetCount(a - {x}, b - {x});
    }
  }

  lemma {:induction false} OrderedUnique(a: seq<Entry>, b: seq<Entry>)
    requires Ordered(a) && Ordered(b) && |a| == |b|
    requires forall x :: x in a <==> x in b
    ensures a == b
  {
    if a != [] {
      assert a[0] in b && b[0] in a;
      assert a[0] == b[0];
      OrderedTail(a);
      OrderedTail(b);
      OrderedUnique(a[1..], b[1..]);
      assert a == [a[0]] + a[1..] && b == [b[0]] + b[1..];
    }
  }

  lemma OrderedTail(a: seq<Entry>)
    requires Ordered(a) && a != []
    ensures Ordered(a[1..])
    ensures forall x :: x in a[1..] <==> x in a && x != a[0]
  {
    assert a == [a[0]] + a[1..];
    assert a[0] !in a[1..];
  }

  /** That description leaves no freedom: it is the buffer. */
  lemma TopUnique(a: seq<Entry>, b: seq<Entry>, cap: nat, m: map<nat, MatchEvent>)
    requires TopOf(a, cap, m) && TopOf(b, cap, m)
    ensures a == b
  {
    forall x | x in a ensures x in b {
      TopIncluded(a, b, cap, m, x);
    }
    forall x | x in b ensures x in a {
      TopIncluded(b, a, cap, m, x);
    }
    OrderedUnique(a, b);
  }

  // ----- the poller

  function Newer(buf: seq<Entry>, after: nat): seq<Entry> {
    if buf == [] then []
    else
      var n := |buf| - 1;
      Newer(buf[..n], after) + if buf[n].0 > after then [buf[n]] else []
  }

  function LastId(buf: seq<Entry>): nat {
    if buf == [] then 0 else buf[|buf| - 1].0
  }

  /** The ids above a given one. */
  function Higher(m: map<nat, MatchEvent>, id: nat): set<nat> {
    set k | k in m && k > id
  }

  /** A poller asks for what is after its cursor and moves the cursor to the last id it
      is told.  `late` collects the ids first inserted at or below the cursor, and `lost`
      those above it that had at least `cap` higher ids at the next poll. */
  datatype PollState = PollState(buf: seq<Entry>, cursor: nat, seen: seq<Entry>, inserted: map<nat, MatchEvent>, late: set<nat>,
                                 lost: set<nat>)

  datatype PollStep = InsertStep(id: nat, event: MatchEvent) | PollStep

  function Overflowed(s: PollState, cap: nat): set<nat> {
    set id | id in s.inserted && id > s.cursor && |Higher(s.inserted, id)| >= cap
  }

  function StepPoll(s: PollState, cap: nat, step: PollStep): PollState {
    match step
    case InsertStep(id, e) =>
      PollState(InsertEntry(s.buf, cap, id, e), s.cursor, s.seen, Noted(s.inserted, (id, e)),
                if id !in s.inserted && id <= s.cursor then s.late + {id} else s.late, s.lost)
    case PollStep =>
      s.(cursor := LastId(s.buf), seen := s.seen + Newer(s.buf, s.cursor), lost := s.lost + Overflowed(s, cap))
  }

  function RunPoll(s: PollState, cap: nat, steps: seq<PollStep>): PollState
    decreases |steps|
  {
    if steps == [] then s else RunPoll(StepPoll(s, cap, steps[0]), cap, steps[1..])
  }

  ghost predicate NoRepeats(seen: seq<Entry>) {
    forall i, j :: 0 <= i < j < |seen| ==> seen[i].0 != seen[j].0
  }

  /** The poller has seen, once each, the ids up to its cursor that were neither late nor
      lost. */
  ghost predicate Account(cursor: nat, seen: seq<Entry>, inserted: map<nat, MatchEvent>, late: set<nat>, lost: set<nat>) {
    && NoRepeats(seen)
    && (forall x :: x in seen ==> x.0 in inserted && inserted[x.0] == x.1 && x.0 <= cursor && x.0 !in late && x.0 !in lost)
    && (forall id :: id in late ==> id in inserted && id <= cursor && id !in lost)
    && (forall id :: id in lost ==> id in inserted && id <= cursor)
    && (forall id :: id in inserted && id <= cursor ==> id in Ids(seen) || id in late || id in lost)
    && (cursor > 0 ==> cursor in inserted)
  }

  ghost predicate PollInv(s: PollState, cap: nat) {
    TopOf(s.buf, cap, s.inserted) && Account(s.cursor, s.seen, s.inserted, s.late, s.lost)
  }

  /** The buffer has dropped an id exactly when at least `cap` higher ones were inserted. */
  lemma DroppedIff(buf: seq<Entry>, cap: nat, m: map<nat, MatchEvent>, id: nat)
    requires TopOf(buf, cap, m) && id in m
    ensures id in Ids(buf) <==> |Higher(m, id)| < cap
  {
    OrderedCount(buf);
    IdsAre(buf, id);
    if Has(buf, id) {
      forall k | k in Higher(m, id) ensures k in Ids(buf) - {id} {
        IdsAre(buf, k);
        assert !Below(k, buf);
      }
      SubsetCount(Higher(m, id), Ids(buf) - {id});
    } else {
      forall k | k in Ids(buf) ensures k in Higher(m, id) {
        IdsAre(buf, k);
      }
      SubsetCount(Ids(buf), Higher(m, id));
    }
  }

  lemma {:induction false} NewerIs(buf: seq<Entry>, after: nat)
    requires Ordered(buf)
    ensures Ordered(Newer(buf, after))
    ensures forall x :: x in Newer(buf, after) <==> x in buf && x.0 > after
  {
    if buf != [] {
      var n := |buf| - 1;
      var before, last := buf[..n], buf[n];
      NewerIs(before, after);
      assert buf == before + [last];
      var r := Newer(before, after);
      forall i | 0 <= i < |r| ensures r[i].0 < last.0 {
        assert r[i] in before;
      }
    }
  }

  lemma LastIsHighest(buf: seq<Entry>, cap: nat, m: map<nat, MatchEvent>, id: nat)
    requires TopOf(buf, cap, m) && cap > 0 && id in m
    ensures buf != [] && id <= LastId(buf) && LastId(buf) in m
  {
    assert m.Keys - {id} < m.Keys;
    if Has(buf, id) {
      var i :| 0 <= i < |buf| && buf[i].0 == id;
    }
  }

  lemma AccountInsert(cursor: nat, seen: seq<Entry>, inserted: map<nat, MatchEvent>, late: set<nat>, lost: set<nat>, x: Entry)
    requires Account(cursor, seen, inserted, late, lost)
    ensures Account(cursor, seen, Noted(inserted, x),
                    if x.0 !in inserted && x.0 <= cursor then late + {x.0} else late, lost)
  {
  }

  lemma InsertKeepsPollInv(s: PollState, cap: nat, id: nat, e: MatchEvent)
    requires PollInv(s, cap)
    ensures PollInv(StepPoll(s, cap, InsertStep(id, e)), cap)
  {
    InsertKeepsTop(s.buf, cap, (id, e), s.inserted);
    AccountInsert(s.cursor, s.seen, s.inserted, s.late, s.lost, (id, e));
  }

  /** What a poll returns: the inserted events above the cursor that have not overflowed. */
  lemma PollReturns(s: PollState, cap: nat)
    requires TopOf(s.buf, cap, s.inserted) && cap > 0
    ensures var news := Newer(s.buf, s.cursor);
            && Ordered(news)
            && (forall x :: x in news ==> x.0 in s.inserted && s.inserted[x.0] == x.1 && x.0 > s.cursor && x.0 !in Overflowed(s, cap))
            && (forall id :: id in s.inserted && id > s.cursor ==> id in Ids(news) || id in Overflowed(s, cap))
    ensures forall id :: id in s.inserted ==> id <= LastId(s.buf) && LastId(s.buf) in s.inserted
  {
    var news := Newer(s.buf, s.cursor);
    NewerIs(s.buf, s.cursor);
    forall x | x in news ensures x.0 in s.inserted && s.inserted[x.0] == x.1 && x.0 !in Overflowed(s, cap) {
      var i :| 0 <= i < |s.buf| && s.buf[i] == x;
      DroppedIff(s.buf, cap, s.inserted, x.0);
    }
    forall id | id in s.inserted ensures id <= LastId(s.buf) && LastId(s.buf) in s.inserted {
      LastIsHighest(s.buf, cap, s.inserted, id);
    }
    forall id | id in s.inserted && id > s.cursor && id !in Overflowed(s, cap) ensures id in Ids(news) {
      DroppedIff(s.buf, cap, s.inserted, id);
      var x :| x in s.buf && x.0 == id;
      assert x in news;
    }
  }

  lemma AccountPoll(cursor: nat, cursor': nat, seen: seq<Entry>, news: seq<Entry>, inserted: map<nat, MatchEvent>, late: set<nat>,
                    lost: set<nat>, more: set<nat>)
    requires Account(cursor, seen, inserted, late, lost) && Ordered(news)
    requires forall x :: x in news ==> x.0 in inserted && inserted[x.0] == x.1 && x.0 > cursor && x.0 !in more
    requires forall id :: id in more ==> id in inserted && id > cursor
    requires forall id :: id in inserted && id > cursor ==> id in Ids(news) || id in more
    requires forall id :: id in inserted ==> id <= cursor'
    requires cursor' > 0 ==> cursor' in inserted
    ensures Account(cursor', seen + news, inserted, late, lost + more)
  {
    assert Ids(seen + news) == Ids(seen) + Ids(news);
    var all := seen + news;
    forall i, j | 0 <= i < j < |all| ensures all[i].0 != all[j].0 {
      if i < |seen| <= j {
        assert seen[i] in seen && news[j - |seen|] in news;
      }
    }
  }

  lemma PollKeepsPollInv(s: PollState, cap: nat)
    requires PollInv(s, cap) && cap > 0
    ensures PollInv(StepPoll(s, cap, PollStep), cap)
    ensures forall id :: id in s.inserted ==> id <= StepPoll(s, cap, PollStep).cursor
  {
    PollReturns(s, cap);
    AccountPoll(s.cursor, LastId(s.buf), s.seen, Newer(s.buf, s.cursor), s.inserted, s.late, s.lost, Overflowed(s, cap));
  }

  lemma {:induction false} RunKeepsPollInv(s: PollState, cap: nat, steps: seq<PollStep>)
    requires PollInv(s, cap) && cap > 0
    ensures PollInv(RunPoll(s, cap, steps), cap)
    decreases |steps|
  {
    if steps != [] {
      hide PollInv;
      match steps[0] {
        case InsertStep(id, e) => InsertKeepsPollInv(s, cap, id, e);
        case PollStep => PollKeepsPollInv(s, cap);
      }
      RunKeepsPollInv(StepPoll(s, cap, steps[0]), cap, steps[1..]);
    }
  }

  const INITIAL := PollState([], 0, [], map[], {}, {})

  /** In every run, after any poll, the poller has seen every inserted event exactly once and
      with its first payload, except precisely those first inserted at or below its cursor
      and those with at least `cap` higher ids at the first poll after their insertion. */
  lemma PollerSees(cap: nat, steps: seq<PollStep>)
    requires cap > 0
    ensures var s := StepPoll(RunPoll(INITIAL, cap, steps), cap, PollStep);
            && NoRepeats(s.seen)
            && (forall x :: x in s.seen ==> x.0 in s.inserted && s.inserted[x.0] == x.1)
            && Ids(s.seen) == s.inserted.Keys - s.late - s.lost
  {
    RunKeepsPollInv(INITIAL, cap, steps);
    var s := RunPoll(INITIAL, cap, steps);
    PollKeepsPollInv(s, cap);
  }

  lemma OverflowNeedsMore(s: PollState, cap: nat, id: nat)
    requires id in Overflowed(s, cap)
    ensures |Higher(s.inserted, s.cursor)| > cap
  {
    var above := Higher(s.inserted, id);
    SubsetCount(above + {id}, Higher(s.inserted, s.cursor));
  }

  /** A poll loses something exactly when more than `cap` ids above the cursor wait for it. */
  lemma LosesIff(s: PollState, cap: nat)
    requires TopOf(s.buf, cap, s.inserted)
    ensures Overflowed(s, cap) != {} <==> |Higher(s.inserted, s.cursor)| > cap
  {
    if Overflowed(s, cap) != {} {
      var id :| id in Overflowed(s, cap);
      OverflowNeedsMore(s, cap, id);
    } else {
      var waiting := Higher(s.inserted, s.cursor);
      OrderedCount(s.buf);
      forall id | id in waiting ensures id in Ids(s.buf) {
        DroppedIff(s.buf, cap, s.inserted, id);
        assert id !in Overflowed(s, cap);
      }
      SubsetCount(waiting, Ids(s.buf));
    }
  }

  /** No poll of the run finds more than `cap` events waiting for it. */
  ghost predicate KeepsUp(s: PollState, cap: nat, steps: seq<PollStep>)
    decreases |steps|
  {
    if steps == [] then true
    else (steps[0].PollStep? ==> |Higher(s.inserted, s.cursor)| <= cap) && KeepsUp(StepPoll(s, cap, steps[0]), cap, steps[1..])
  }

  lemma {:induction false} LostStays(s: PollState, cap: nat, steps: seq<PollStep>)
    ensures s.lost <= RunPoll(s, cap, steps).lost
    decreases |steps|
  {
    if steps != [] {
      LostStays(StepPoll(s, cap, steps[0]), cap, steps[1..]);
    }
  }

  /** A run loses nothing to overflow exactly when the poller keeps up. */
  lemma {:induction false} NothingLostIff(s: PollState, cap: nat, steps: seq<PollStep>)
    requires PollInv(s, cap) && cap > 0 && s.lost == {}
    ensures RunPoll(s, cap, steps).lost == {} <==> KeepsUp(s, cap, steps)
    decreases |steps|
  {
    if steps != [] {
      var s' := StepPoll(s, cap, steps[0]);
      LosesIff(s, cap);
      match steps[0] {
        case InsertStep(id, e) => InsertKeepsPollInv(s, cap, id, e);
        case PollStep => PollKeepsPollInv(s, cap);
      }
      hide PollInv, Overflowed;
      if s'.lost == {} {
        NothingLostIff(s', cap, steps[1..]);
      } else {
        LostStays(s', cap, steps[1..]);
      }
    }
  }

  /** Insertions arrive in increasing id order, as they do when placements are serialised. */
  ghost predicate Serialised(s: PollState, cap: nat, steps: seq<PollStep>)
    decreases |steps|
  {
    if steps == [] then true
    else
      && (steps[0].InsertStep? ==> steps[0].id > 0 && forall id :: id in s.inserted ==> id < steps[0].id)
      && Serialised(StepPoll(s, cap, steps[0]), cap, steps[1..])
  }

  lemma {:induction false} SerialisedRunHasNoLate(s: PollState, cap: nat, steps: seq<PollStep>)
    requires PollInv(s, cap) && cap > 0 && Serialised(s, cap, steps) && s.late == {}
    ensures RunPoll(s, cap, steps).late == {}
    decreases |steps|
  {
    if steps != [] {
      match steps[0] {
        case InsertStep(id, e) => InsertKeepsPollInv(s, cap, id, e);
        case PollStep => PollKeepsPollInv(s, cap);
      }
      SerialisedRunHasNoLate(StepPoll(s, cap, steps[0]), cap, steps[1..]);
    }
  }

  /** When placements are serialised, the poller sees every event exactly once but for those
      that overflowed before a poll; it sees all of them exactly when it keeps up. */
  lemma SerialisedPollerSeesAll(cap: nat, steps: seq<PollStep>)
    requires cap > 0 && Serialised(INITIAL, cap, steps)
    ensures var s := StepPoll(RunPoll(INITIAL, cap, steps), cap, PollStep);
            && NoRepeats(s.seen) && Ids(s.seen) == s.inserted.Keys - s.lost
            && (Ids(s.seen) == s.inserted.Keys <==> KeepsUp(INITIAL, cap, steps + [PollStep]))
  {
    hide Overflowed, KeepsUp, PollInv, Serialised, RunPoll;
    PollerSees(cap, steps);
    assert PollInv(INITIAL, cap) && INITIAL.lost == {} && INITIAL.late == {} by {
      InitialPollInv(cap);
    }
    SerialisedRunHasNoLate(INITIAL, cap, steps);
    RunKeepsPollInv(INITIAL, cap, steps + [PollStep]);
    NothingLostIff(INITIAL, cap, steps + [PollStep]);
    RunPollSnoc(INITIAL, cap, steps);
    LostWasInserted(RunPoll(INITIAL, cap, steps + [PollStep]), cap);
  }

  lemma InitialPollInv(cap: nat)
    ensures PollInv(INITIAL, cap)
  {
  }

  lemma LostWasInserted(s: PollState, cap: nat)
    requires PollInv(s, cap)
    ensures s.lost <= s.inserted.Keys
  {
  }

  lemma {:induction false} RunPollSnoc(s: PollState, cap: nat, steps: seq<PollStep>)
    ensures RunPoll(s, cap, steps + [PollStep]) == StepPoll(RunPoll(s, cap, steps), cap, PollStep)
    decreases |steps|
  {
    if steps == [] {
      assert (steps + [PollStep])[1..] == [];
    } else {
      assert (steps + [PollStep])[1..] == steps[1..] + [PollStep];
      RunPollSnoc(StepPoll(s, cap, steps[0]), cap, steps[1..]);
    }
  }

  /** Two concurrent placements whose buffer insertions swap: the poller that reads in
      between never sees the lower id. */
  lemma OvertakenInsertIsMissed(e: MatchEvent)
    ensures var s := RunPoll(INITIAL, MAX_EVENTS, [InsertStep(2, e), PollStep, InsertStep(1, e), PollStep]);
            1 in s.inserted && s.seen == [(2, e)] && s.late == {1}
  {
    var s2 := PollState([(2, e)], 2, [(2, e)], map[2 := e], {}, {});
    var s4 := PollState([(1, e), (2, e)], 2, [(2, e)], map[2 := e, 1 := e], {1}, {});
    OvertakenFirstHalf(e, s2);
    OvertakenSecondHalf(e, s2, s4);
    var steps := [InsertStep(2, e), PollStep, InsertStep(1, e), PollStep];
    assert steps[1..][1..] == [InsertStep(1, e), PollStep];
  }

  lemma OvertakenFirstHalf(e: MatchEvent, s2: PollState)
    requires s2 == PollState([(2, e)], 2, [(2, e)], map[2 := e], {}, {})
    ensures StepPoll(StepPoll(INITIAL, MAX_EVENTS, InsertStep(2, e)), MAX_EVENTS, PollStep) == s2
  {
    assert InsertEntry([], MAX_EVENTS, 2, e) == [(2, e)];
    assert Newer([(2, e)], 0) == [(2, e)];
  }

  lemma OvertakenSecondHalf(e: MatchEvent, s2: PollState, s4: PollState)
    requires s2 == PollState([(2, e)], 2, [(2, e)], map[2 := e], {}, {})
    requires s4 == PollState([(1, e), (2, e)], 2, [(2, e)], map[2 := e, 1 := e], {1}, {})
    ensures RunPoll(s2, MAX_EVENTS, [InsertStep(1, e), PollStep]) == s4
  {
    assert Rank([(2, e)], 1) == 0;
    assert InsertEntry([(2, e)], MAX_EVENTS, 1, e) == [(1, e), (2, e)];
    assert [(1, e), (2, e)][..1] == [(1, e)];
    assert Newer([(1, e)], 2) == [];
    assert [InsertStep(1, e), PollStep][1..] == [PollStep];
    var s3 := StepPoll(s2, MAX_EVENTS, InsertStep(1, e));
    assert StepPoll(s3, MAX_EVENTS, PollStep) == s4;
    assert RunPoll(s3, MAX_EVENTS, [PollStep]) == s4;
  }
}
