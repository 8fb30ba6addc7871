/** Whole runs of the engine: every market's book is its own, and ids are given out one by
    one. */
module EngineRuns {
  import opened Types
  import opened Matching
  import opened Replay
  import opened BookRuns
  import opened EventBuffer
  import opened Engine

  /** What the engine is asked.  `Refused` is a placement whose journal or publish callback
      fails. */
  datatype Call =
    | Placing(order: Order)
    | Refused(order: Order)
    | Cancelling(id: nat)
    | Replaying(id: nat, event: MatchEvent)

  /** A callback is not asked about a placement without fills. */
  function Failing(s: EngineState, o: Order): EngineState {
    if Placed(s, o).1 == [] then Placed(s, o).0 else Abandoned(s, o)
  }

  function Answer(s: EngineState, call: Call): EngineState {
    match call
    case Placing(o) => Placed(s, o).0
    case Refused(o) => Failing(s, o)
    case Cancelling(id) => Cleared(s, id)
    case Replaying(id, e) => Replayed(s, id, e).0
  }

  function AnswerAll(s: EngineState, calls: seq<Call>): EngineState {
    if calls == [] then s else Answer(AnswerAll(s, calls[..|calls| - 1]), calls[|calls| - 1])
  }

  // ----- every market's book is its own

  /** What a call does to one market's book. */
  function StepsOf(s: EngineState, call: Call, market: string): seq<Step> {
    match call
    case Placing(o) => if o.market == market then [PlaceStep(o)] else []
    case Refused(o) => if o.market == market && Place(BookFor(s.books, market), o).1 == [] then [PlaceStep(o)] else []
    case Cancelling(id) => [CancelStep(id)]
    case Replaying(id, e) => if e.market == market && id !in s.applied then [ReplayStep(e)] else []
  }

  function History(s: EngineState, calls: seq<Call>, market: string): seq<Step> {
    if calls == [] then []
    else
      var n := |calls| - 1;
      History(s, calls[..n], market) + StepsOf(AnswerAll(s, calls[..n]), calls[n], market)
  }

  lemma {:induction false} RunAppend(b: Book, before: seq<Step>, after: seq<Step>)
    ensures Run(b, before + after) == Run(Run(b, before), after)
    decreases |before|
  {
    if before == [] {
      assert before + after == after;
    } else {
      assert (before + after)[1..] == before[1..] + after;
      RunAppend(Apply(b, before[0]), before[1..], after);
    }
  }

  lemma RunOne(b: Book, step: Step)
    ensures Run(b, [step]) == Apply(b, step) && Run(b, []) == b
  {
    assert [step][1..] == [];
  }

  lemma CallIsSteps(s: EngineState, call: Call, market: string)
    ensures BookFor(Answer(s, call).books, market) == Run(BookFor(s.books, market), StepsOf(s, call, market))
  {
    var b := BookFor(s.books, market);
    hide Place, ApplyFill, InsertEntry, Record, CancelOrder;
    match call
    case Placing(o) => RunOne(b, PlaceStep(o));
    case Refused(o) => RunOne(b, PlaceStep(o));
    case Cancelling(id) =>
      RunOne(b, CancelStep(id));
      NothingToCancel(id);
    case Replaying(id, e) => RunOne(b, ReplayStep(e));
  }

  lemma NothingToCancel(id: nat)
    ensures CancelOrder(Book([], []), id) == Book([], [])
  {
  }

  /** Whatever is asked of the engine, about whatever markets and with whatever callbacks
      failing, each market's book is what its own placements, cancellations and new replayed
      fills make of it, in their order; refused placements with fills leave no trace in it. */
  lemma {:induction false} MarketsAreTheirOwn(s: EngineState, calls: seq<Call>, market: string)
    ensures BookFor(AnswerAll(s, calls).books, market) == Run(BookFor(s.books, market), History(s, calls, market))
  {
    if calls == [] {
      RunOne(BookFor(s.books, market), CancelStep(0));
    } else {
      var n := |calls| - 1;
      MarketsAreTheirOwn(s, calls[..n], market);
      CallIsSteps(AnswerAll(s, calls[..n]), calls[n], market);
      hide Answer, BookFor, StepsOf, Run;
      RunAppend(BookFor(s.books, market), History(s, calls[..n], market), StepsOf(AnswerAll(s, calls[..n]), calls[n], market));
    }
  }

  // ----- ids

  /** The fills a call numbers, whether or not they are committed. */
  function FillsOf(s: EngineState, call: Call): seq<MatchEvent> {
    match call
    case Placing(o) => Place(BookFor(s.books, o.market), o).1
    case Refused(o) => Place(BookFor(s.books, o.market), o).1
    case Cancelling(_) => []
    case Replaying(_, _) => []
  }

  function AllFills(s: EngineState, calls: seq<Call>): seq<MatchEvent> {
    if calls == [] then []
    else
      var n := |calls| - 1;
      AllFills(s, calls[..n]) + FillsOf(AnswerAll(s, calls[..n]), calls[n])
  }

  lemma CallNumbers(s: EngineState, call: Call)
    ensures Answer(s, call).next == s.next + |FillsOf(s, call)|
  {
    hide Place, ApplyFill, InsertEntry, Record, CancelOrder;
  }

  /** Every fill of the run, committed or not, takes the next id: the counter ends where all of
      them have been counted, and the placement after any run numbers its fills from there, in
      order. */
  lemma {:induction false} IdsAreConsecutive(s: EngineState, calls: seq<Call>, o: Order)
    ensures AnswerAll(s, calls).next == s.next + |AllFills(s, calls)|
    ensures var before := AnswerAll(s, calls);
            var (b, es) := Place(BookFor(before.books, o.market), o);
            var pairs := Placed(before, o).1;
            && |pairs| == |es|
            && forall i :: 0 <= i < |es| ==> pairs[i] == (s.next + |AllFills(s, calls)| + i, es[i])
  {
    hide Place, FillsOf, Answer, Record;
    if calls != [] {
      var n := |calls| - 1;
      IdsAreConsecutive(s, calls[..n], o);
      CallNumbers(AnswerAll(s, calls[..n]), calls[n]);
    }
  }

  // ----- what is noted as applied

  /** The `n` ids from `start` on. */
  function Span(start: nat, n: nat): (ids: set<nat>)
    ensures forall id :: id in ids <==> start <= id < start + n
  {
    if n == 0 then {} else Span(start, n - 1) + {start + n - 1}
  }

  /** The ids whose fills a call puts into a book. */
  function AppliedBy(s: EngineState, call: Call): set<nat> {
    match call
    case Placing(_) => Span(s.next, |FillsOf(s, call)|)
    case Refused(_) => {}
    case Cancelling(_) => {}
    case Replaying(id, e) => if id in s.applied || ApplyFill(BookFor(s.books, e.market), e).Err? then {} else {id}
  }

  function AllApplied(s: EngineState, calls: seq<Call>): set<nat> {
    if calls == [] then {}
    else
      var n := |calls| - 1;
      AllApplied(s, calls[..n]) + AppliedBy(AnswerAll(s, calls[..n]), calls[n])
  }

  lemma NumberedIds(start: nat, es: seq<MatchEvent>)
    ensures Ids(Numbered(start, es)) == Span(start, |es|)
  {
    var pairs := Numbered(start, es);
    forall id: nat | start <= id < start + |es| ensures id in Ids(pairs) {
      assert pairs[id - start] in pairs;
    }
  }

  lemma CallApplies(s: EngineState, call: Call)
    ensures Answer(s, call).applied == s.applied + AppliedBy(s, call)
  {
    hide Place, ApplyFill, InsertEntry, CancelOrder, Numbered, Record;
    match call
    case Placing(o) => NumberedIds(s.next, FillsOf(s, call));
    case Refused(o) => NumberedIds(s.next, []);
    case Cancelling(_) =>
    case Replaying(_, _) =>
  }

  /** The ids noted as applied are exactly those whose fills the run put into a book: those of
      its placements that were not refused, and the replayed ones that were new and fitted. */
  lemma {:induction false} AppliedAreInBooks(s: EngineState, calls: seq<Call>)
    ensures AnswerAll(s, calls).applied == s.applied + AllApplied(s, calls)
  {
    if calls != [] {
      var n := |calls| - 1;
      AppliedAreInBooks(s, calls[..n]);
      CallApplies(AnswerAll(s, calls[..n]), calls[n]);
      hide Answer, AppliedBy;
    }
  }

  // ----- the buffer

  /** What a call adds to the event buffer. */
  function RecordedBy(s: EngineState, call: Call): seq<Entry> {
    match call
    case Placing(_) => Numbered(s.next, FillsOf(s, call))
    case Refused(_) => []
    case Cancelling(_) => []
    case Replaying(id, e) => if id in s.applied || ApplyFill(BookFor(s.books, e.market), e).Err? then [] else [(id, e)]
  }

  function AllRecorded(s: EngineState, calls: seq<Call>): seq<Entry> {
    if calls == [] then []
    else
      var n := |calls| - 1;
      AllRecorded(s, calls[..n]) + RecordedBy(AnswerAll(s, calls[..n]), calls[n])
  }

  lemma InsertAllSnoc(history: seq<Entry>, x: Entry)
    ensures InsertAll(5_000_000, history + [x]) == InsertEntry(InsertAll(5_000_000, history), 5_000_000, x.0, x.1)
  {
    hide InsertEntry;
    assert (history + [x])[..|history|] == history;
  }

  lemma {:induction false} RecordInserts(history: seq<Entry>, pairs: seq<Entry>)
    ensures Record(InsertAll(5_000_000, history), pairs) == InsertAll(5_000_000, history + pairs)
  {
    hide InsertEntry, InsertAll;
    if pairs == [] {
      assert history + pairs == history;
    } else {
      var n := |pairs| - 1;
      RecordInserts(history, pairs[..n]);
      InsertAllSnoc(history + pairs[..n], pairs[n]);
      assert history + pairs == (history + pairs[..n]) + [pairs[n]];
    }
  }

  lemma CallRecords(s: EngineState, call: Call)
    ensures Answer(s, call).events == Record(s.events, RecordedBy(s, call))
  {
    hide Place, ApplyFill, InsertEntry, CancelOrder;
    match call
    case Placing(o) =>
    case Refused(o) =>
    case Cancelling(_) =>
    case Replaying(id, e) => RecordOne(s.events, (id, e));
  }

  lemma RecordOne(events: seq<Entry>, x: Entry)
    ensures Record(events, [x]) == InsertEntry(events, 5_000_000, x.0, x.1)
  {
    hide InsertEntry;
    assert [x][..0] == [];
  }

  lemma {:induction false} BufferIsInserted(s: EngineState, calls: seq<Call>)
    requires s.events == []
    ensures AnswerAll(s, calls).events == InsertAll(5_000_000, AllRecorded(s, calls))
  {
    if calls != [] {
      var n := |calls| - 1;
      BufferIsInserted(s, calls[..n]);
      CallRecords(AnswerAll(s, calls[..n]), calls[n]);
      hide Answer, RecordedBy, Record, InsertAll;
      RecordInserts(AllRecorded(s, calls[..n]), RecordedBy(AnswerAll(s, calls[..n]), calls[n]));
    }
  }

  /** After any run from an empty buffer it holds the five million highest ids among the fills
      committed or newly replayed, in order, each with its first payload. */
  lemma BufferHoldsTheNewest(s: EngineState, calls: seq<Call>)
    requires s.events == []
    ensures TopOf(AnswerAll(s, calls).events, 5_000_000, FirstPayload(AllRecorded(s, calls)))
  {
    BufferIsInserted(s, calls);
    hide TopOf, FirstPayload, AnswerAll, AllRecorded, InsertAll;
    BufferIsTopOfHistory(5_000_000, AllRecorded(s, calls));
  }
}
