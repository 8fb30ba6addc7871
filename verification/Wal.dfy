/** The durable match-event journal: `evt` lines before a book commit, `ack` lines after
    a publish, the scan for unacknowledged events and the compaction of the file. */
module Wal {
  import opened Types

  datatype Row = Row(id: nat, subject: string, event: MatchEvent)

  /** One line of the journal.  `Junk` is any line the scan skips. */
  datatype Line = Evt(engine: string, row: Row) | Ack(id: nat) | Junk

  ghost predicate Ascending(rows: seq<Row>) {
    forall i, j :: 0 <= i < j < |rows| ==> rows[i].id < rows[j].id
  }

  /** `BTreeMap::insert` keyed by event id. */
  function PutRow(rows: seq<Row>, row: Row): seq<Row> {
    if rows == [] || row.id < rows[0].id then [row] + rows
    else if row.id == rows[0].id then [row] + rows[1..]
    else [rows[0]] + PutRow(rows[1..], row)
  }

  function DropAcked(rows: seq<Row>, acked: set<nat>): seq<Row> {
    if rows == [] then []
    else (if rows[0].id in acked then [] else [rows[0]]) + DropAcked(rows[1..], acked)
  }

  function Noted(engine: string, pending: seq<Row>, line: Line): seq<Row> {
    if line.Evt? && line.engine == engine then PutRow(pending, line.row) else pending
  }

  function Pending(engine: string, log: seq<Line>): seq<Row> {
    if log == [] then [] else Noted(engine, Pending(engine, log[..|log| - 1]), log[|log| - 1])
  }

  function Acked(log: seq<Line>): set<nat> {
    if log == [] then {}
    else
      var rest := Acked(log[..|log| - 1]);
      if log[|log| - 1].Ack? then rest + {log[|log| - 1].id} else rest
  }

  /** The rows of `engine` with no acknowledgement anywhere in the journal, by id. */
  function Scan(engine: string, log: seq<Line>): seq<Row> {
    DropAcked(Pending(engine, log), Acked(log))
  }

  function EvtLines(engine: string, rows: seq<Row>): (lines: seq<Line>)
    ensures |lines| == |rows|
    ensures forall i :: 0 <= i < |rows| ==> lines[i] == Evt(engine, rows[i])
  {
    seq(|rows|, i requires 0 <= i < |rows| => Evt(engine, rows[i]))
  }

  function Compact(engine: string, log: seq<Line>): seq<Line> {
    EvtLines(engine, Scan(engine, log))
  }

  // ----- the meaning of a journal: what it answers for one event id

  function Lookup(rows: seq<Row>, id: nat): Option<Row> {
    if rows == [] then None
    else if rows[0].id == id then Some(rows[0])
    else Lookup(rows[1..], id)
  }

  /** The last row written for `id`. */
  function Latest(engine: string, log: seq<Line>, id: nat): Option<Row> {
    if log == [] then None
    else
      var last := log[|log| - 1];
      if last.Evt? && last.engine == engine && last.row.id == id then Some(last.row)
      else Latest(engine, log[..|log| - 1], id)
  }

  function Meaning(engine: string, log: seq<Line>, id: nat): Option<Row> {
    if id in Acked(log) then None else Latest(engine, log, id)
  }

  lemma AscendingCons(row: Row, rows: seq<Row>)
    requires Ascending(rows) && forall x :: x in rows ==> row.id < x.id
    ensures Ascending([row] + rows)
  {
    var all := [row] + rows;
    forall i, j | 0 <= i < j < |all| ensures all[i].id < all[j].id {
      assert all[j] == rows[j - 1] && rows[j - 1] in rows;
      assert i > 0 ==> all[i] == rows[i - 1];
    }
  }

  lemma AscendingTail(rows: seq<Row>)
    requires Ascending(rows) && rows != []
    ensures Ascending(rows[1..]) && forall x :: x in rows[1..] ==> rows[0].id < x.id
    ensures rows == [rows[0]] + rows[1..]
  {
  }

  lemma {:induction false} PutRowSorted(rows: seq<Row>, row: Row)
    requires Ascending(rows)
    ensures Ascending(PutRow(rows, row))
    ensures forall x :: x in PutRow(rows, row) ==> x == row || x in rows
  {
    if rows == [] {
      AscendingCons(row, []);
    } else {
      AscendingTail(rows);
      hide Ascending;
      if row.id < rows[0].id {
        AscendingCons(row, rows);
      } else if row.id == rows[0].id {
        AscendingCons(row, rows[1..]);
      } else {
        PutRowSorted(rows[1..], row);
        AscendingCons(rows[0], PutRow(rows[1..], row));
      }
    }
  }

  lemma {:induction false} PutRowLookup(rows: seq<Row>, row: Row, id: nat)
    requires Ascending(rows)
    ensures Lookup(PutRow(rows, row), id) == if id == row.id then Some(row) else Lookup(rows, id)
  {
    if rows == [] || row.id < rows[0].id {
      assert ([row] + rows)[1..] == rows;
    } else if row.id == rows[0].id {
      assert ([row] + rows[1..])[1..] == rows[1..];
    } else {
      PutRowLookup(rows[1..], row, id);
      assert PutRow(rows, row)[1..] == PutRow(rows[1..], row);
    }
  }

  lemma {:induction false} PendingAnswers(engine: string, log: seq<Line>, id: nat)
    ensures Ascending(Pending(engine, log))
    ensures Lookup(Pending(engine, log), id) == Latest(engine, log, id)
  {
    if log != [] {
      var before, last := log[..|log| - 1], log[|log| - 1];
      PendingAnswers(engine, before, id);
      if last.Evt? && last.engine == engine {
        PutRowSorted(Pending(engine, before), last.row);
        PutRowLookup(Pending(engine, before), last.row, id);
      }
    }
  }

  lemma {:induction false} DropAckedSorted(rows: seq<Row>, acked: set<nat>)
    requires Ascending(rows)
    ensures Ascending(DropAcked(rows, acked))
    ensures forall x :: x in DropAcked(rows, acked) ==> x in rows && x.id !in acked
  {
    if rows != [] {
      AscendingTail(rows);
      hide Ascending;
      var r := DropAcked(rows[1..], acked);
      DropAckedSorted(rows[1..], acked);
      AscendingCons(rows[0], r);
      assert [] + r == r;
    }
  }

  lemma {:induction false} DropAckedLookup(rows: seq<Row>, acked: set<nat>, id: nat)
    requires Ascending(rows)
    ensures Lookup(DropAcked(rows, acked), id) == if id in acked then None else Lookup(rows, id)
  {
    if rows != [] {
      DropAckedLookup(rows[1..], acked, id);
      var r := DropAcked(rows[1..], acked);
      assert ([rows[0]] + r)[1..] == r;
      assert [] + r == r;
    }
  }

  /** The scan answers, for every id, the last row written for it unless it is
      acknowledged; and it is sorted, so those answers determine it. */
  lemma ScanAnswers(engine: string, log: seq<Line>, id: nat)
    ensures Ascending(Scan(engine, log))
    ensures Lookup(Scan(engine, log), id) == Meaning(engine, log, id)
  {
    PendingAnswers(engine, log, id);
    DropAckedSorted(Pending(engine, log), Acked(log));
    DropAckedLookup(Pending(engine, log), Acked(log), id);
  }

  lemma {:induction false} LookupFinds(rows: seq<Row>, row: Row)
    requires Ascending(rows)
    ensures row in rows <==> Lookup(rows, row.id) == Some(row)
  {
    if rows != [] {
      LookupFinds(rows[1..], row);
      assert rows == [rows[0]] + rows[1..];
    }
  }

  lemma {:induction false} AscendingUnique(a: seq<Row>, b: seq<Row>)
    requires Ascending(a) && Ascending(b)
    requires forall id :: Lookup(a, id) == Lookup(b, id)
    ensures a == b
  {
    if b != [] {
      assert Lookup(a, b[0].id) == Lookup(b, b[0].id);
    }
    if a != [] {
      assert Lookup(b, a[0].id) == Some(a[0]);
      LookupFinds(b, a[0]);
      LookupFinds(a, b[0]);
      assert Lookup(a, b[0].id) == Lookup(b, b[0].id);
      assert a[0] == b[0];
      forall id ensures Lookup(a[1..], id) == Lookup(b[1..], id) {
        assert Lookup(a, id) == Lookup(b, id);
        NotBelowFirst(a, id);
        NotBelowFirst(b, id);
      }
      AscendingUnique(a[1..], b[1..]);
    }
  }

  lemma NotBelowFirst(rows: seq<Row>, id: nat)
    requires Ascending(rows) && rows != []
    ensures id == rows[0].id ==> Lookup(rows[1..], id) == None
  {
    LookupIn(rows[1..], rows[0].id);
  }

  lemma {:induction false} LookupIn(rows: seq<Row>, id: nat)
    ensures Lookup(rows, id).Some? ==> Lookup(rows, id).value in rows && Lookup(rows, id).value.id == id
  {
    if rows != [] {
      LookupIn(rows[1..], id);
    }
  }

  // ----- appending and compacting

  lemma {:induction false} AckedAppend(log: seq<Line>, tail: seq<Line>)
    ensures Acked(log + tail) == Acked(log) + Acked(tail)
  {
    if tail == [] {
      assert log + tail == log;
    } else {
      var n := |tail| - 1;
      assert (log + tail)[..|log + tail| - 1] == log + tail[..n];
      AckedAppend(log, tail[..n]);
    }
  }

  lemma {:induction false} LatestAppend(engine: string, log: seq<Line>, tail: seq<Line>, id: nat)
    ensures Latest(engine, log + tail, id)
            == if Latest(engine, tail, id).Some? then Latest(engine, tail, id) else Latest(engine, log, id)
  {
    if tail == [] {
      assert log + tail == log;
    } else {
      var n := |tail| - 1;
      assert (log + tail)[..|log + tail| - 1] == log + tail[..n];
      LatestAppend(engine, log, tail[..n], id);
    }
  }

  lemma {:induction false} EvtLinesAnswer(engine: string, rows: seq<Row>, reader: string, id: nat)
    requires Ascending(rows)
    ensures Acked(EvtLines(engine, rows)) == {}
    ensures Latest(reader, EvtLines(engine, rows), id) == if reader == engine then Lookup(rows, id) else None
  {
    if rows != [] {
      var n := |rows| - 1;
      assert EvtLines(engine, rows)[..n] == EvtLines(engine, rows[..n]);
      EvtLinesAnswer(engine, rows[..n], reader, id);
      LookupLast(rows, id);
    }
  }

  lemma {:induction false} LookupLast(rows: seq<Row>, id: nat)
    requires Ascending(rows) && rows != []
    ensures var n := |rows| - 1;
            Lookup(rows, id) == if rows[n].id == id then Some(rows[n]) else Lookup(rows[..n], id)
  {
    var n := |rows| - 1;
    if n > 0 {
      LookupLast(rows[1..], id);
      assert rows[1..][..n - 1] == rows[..n][1..];
    }
  }

  /** What a compacted journal answers, to its own engine and to any other. */
  lemma CompactAnswers(engine: string, log: seq<Line>, reader: string, id: nat)
    ensures Acked(Compact(engine, log)) == {}
    ensures Latest(reader, Compact(engine, log), id) == if reader == engine then Meaning(engine, log, id) else None
  {
    ScanAnswers(engine, log, id);
    EvtLinesAnswer(engine, Scan(engine, log), reader, id);
  }

  lemma SameMeaning(a: string, log: seq<Line>, b: string, log': seq<Line>)
    requires forall id :: Meaning(a, log, id) == Meaning(b, log', id)
    ensures Scan(a, log) == Scan(b, log')
  {
    forall id ensures Lookup(Scan(a, log), id) == Lookup(Scan(b, log'), id) {
      assert Meaning(a, log, id) == Meaning(b, log', id);
      ScanAnswers(a, log, id);
      ScanAnswers(b, log', id);
    }
    ScanAnswers(a, log, 0);
    ScanAnswers(b, log', 0);
    AscendingUnique(Scan(a, log), Scan(b, log'));
  }

  /** Compaction keeps what the compacting engine would replay, and is idempotent. */
  lemma CompactKeepsScan(engine: string, log: seq<Line>)
    ensures Scan(engine, Compact(engine, log)) == Scan(engine, log)
    ensures Compact(engine, Compact(engine, log)) == Compact(engine, log)
  {
    forall id ensures Meaning(engine, Compact(engine, log), id) == Meaning(engine, log, id) {
      CompactAnswers(engine, log, engine, id);
    }
    SameMeaning(engine, Compact(engine, log), engine, log);
  }

  /** It does not keep what any other engine would replay from the same file. */
  lemma CompactErasesOthers(engine: string, log: seq<Line>, other: string)
    requires other != engine
    ensures Scan(other, Compact(engine, log)) == []
  {
    forall id ensures Meaning(other, Compact(engine, log), id) == Meaning(other, [], id) {
      CompactAnswers(engine, log, other, id);
    }
    SameMeaning(other, Compact(engine, log), other, []);
  }

  /** No later line revives an id whose acknowledgement compaction has dropped, unless it
      is acknowledged again. */
  ghost predicate NoRevival(engine: string, log: seq<Line>, tail: seq<Line>) {
    forall id :: id in Acked(log) && id !in Acked(tail) ==> Latest(engine, tail, id) == None
  }

  lemma AppendedMeaning(engine: string, log: seq<Line>, tail: seq<Line>, id: nat)
    ensures Meaning(engine, Compact(engine, log) + tail, id) == Meaning(engine, log + tail, id)
            <==> (id in Acked(log) && id !in Acked(tail) ==> Latest(engine, tail, id) == None)
  {
    CompactAnswers(engine, log, engine, id);
    AckedAppend(log, tail);
    AckedAppend(Compact(engine, log), tail);
    LatestAppend(engine, log, tail, id);
    LatestAppend(engine, Compact(engine, log), tail, id);
  }

  /** Scanning a compacted journal with later appends equals scanning the full journal
      with the same appends exactly when no append revives an acknowledged id. */
  lemma CompactThenAppend(engine: string, log: seq<Line>, tail: seq<Line>)
    ensures Scan(engine, Compact(engine, log) + tail) == Scan(engine, log + tail) <==> NoRevival(engine, log, tail)
  {
    if NoRevival(engine, log, tail) {
      forall id ensures Meaning(engine, Compact(engine, log) + tail, id) == Meaning(engine, log + tail, id) {
        AppendedMeaning(engine, log, tail, id);
      }
      SameMeaning(engine, Compact(engine, log) + tail, engine, log + tail);
    } else {
      var id :| id in Acked(log) && id !in Acked(tail) && Latest(engine, tail, id) != None;
      AppendedMeaning(engine, log, tail, id);
      ScanAnswers(engine, Compact(engine, log) + tail, id);
      ScanAnswers(engine, log + tail, id);
    }
  }

  lemma {:induction false} DropAckedSnoc(rows: seq<Row>, x: Row, acked: set<nat>)
    ensures DropAcked(rows + [x], acked) == DropAcked(rows, acked) + if x.id in acked then [] else [x]
  {
    if rows == [] {
      assert rows + [x] == [x];
      assert [x][1..] == [];
    } else {
      var h := if rows[0].id in acked then [] else [rows[0]];
      var t := if x.id in acked then [] else [x];
      assert (rows + [x])[1..] == rows[1..] + [x];
      DropAckedSnoc(rows[1..], x, acked);
      assert h + (DropAcked(rows[1..], acked) + t) == (h + DropAcked(rows[1..], acked)) + t;
    }
  }

  // ----- the journal file

  /** How an append ends.  A failed one may still have made some lines durable. */
  datatype AppendOutcome = Durable | FailedAfter(lines: nat)

  class MatchWal {
    var journal: seq<Line>

    constructor Open(lines: seq<Line>)
      ensures journal == lines
    {
      journal := lines;
    }

    /** One `evt` line per match, then a sync. */
    method AppendEventsBatch(engine: string, rows: seq<Row>, outcome: AppendOutcome) returns (ok: bool)
      modifies this
      ensures ok <==> outcome == Durable
      ensures ok ==> journal == old(journal) + EvtLines(engine, rows)
      ensures old(journal) <= journal <= old(journal) + EvtLines(engine, rows)
    {
      var n := if outcome == Durable || outcome.lines > |rows| then |rows| else outcome.lines;
      var i := 0;
      while i < n
        invariant 0 <= i <= n
        invariant journal == old(journal) + EvtLines(engine, rows)[..i]
      {
        journal := journal + [Evt(engine, rows[i])];
        i := i + 1;
      }
      ok := outcome == Durable;
    }

    method AppendAck(id: nat, outcome: AppendOutcome) returns (ok: bool)
      modifies this
      ensures ok <==> outcome == Durable
      ensures ok ==> journal == old(journal) + [Ack(id)]
      ensures old(journal) <= journal <= old(journal) + [Ack(id)]
    {
      ok := outcome == Durable;
      if ok || outcome.lines > 0 {
        journal := journal + [Ack(id)];
      }
    }

    /** One pass that fills `pending` and `acked`. */
    method ScanUnacked(engine: string) returns (rows: seq<Row>)
      ensures rows == Scan(engine, journal)
    {
      var pending: seq<Row>, acked: set<nat> := [], {};
      var i := 0;
      while i < |journal|
        invariant 0 <= i <= |journal|
        invariant pending == Pending(engine, journal[..i]) && acked == Acked(journal[..i])
      {
        assert journal[..i + 1][..i] == journal[..i];
        match journal[i] {
          case Ack(id) =>
            acked := acked + {id};
          case Evt(owner, row) =>
            if owner == engine {
              pending := PutRow(pending, row);
            }
          case Junk =>
        }
        i := i + 1;
      }
      assert journal[..i] == journal;
      rows := [];
      var k := 0;
      while k < |pending|
        invariant 0 <= k <= |pending|
        invariant rows == DropAcked(pending[..k], acked)
      {
        DropAckedSnoc(pending[..k], pending[k], acked);
        assert pending[..k + 1] == pending[..k] + [pending[k]];
        if pending[k].id !in acked {
          rows := rows + [pending[k]];
        }
        k := k + 1;
      }
      assert pending[..k] == pending;
    }

    method CompactKeepUnackedOnly(engine: string)
      modifies this
      ensures journal == Compact(engine, old(journal))
    {
      var rows := ScanUnacked(engine);
      var lines: seq<Line> := [];
      for i := 0 to |rows|
        invariant lines == EvtLines(engine, rows)[..i]
      {
        lines := lines + [Evt(engine, rows[i])];
      }
      journal := lines;
    }
  }
}
