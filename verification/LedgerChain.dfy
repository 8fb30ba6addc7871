/** The settlement ledger as a hash chain: appending, repairing and tamper evidence. */
module LedgerChain {
  import opened Types

  /** How entries are turned into hashes: a digest and the textual forms of ids and amounts. */
  datatype Codec = Codec(sha: string -> string, key: nat -> string, num: int -> string)

  datatype Delta = Delta(user: nat, asset: string, amount: int)

  /** Rows are listed in id order.  Either hash may be missing in a row not written by the
      worker. */
  datatype LedgerRow = LedgerRow(event: nat, delta: Delta, prev: Option<string>, hash: Option<string>)

  const LEDGER_ENTRY_DOMAIN: string := "ledger_entry_v1"

  function OrEmpty(h: Option<string>): string {
    if h.Some? then h.value else ""
  }

  function Fields(k: Codec, prev: Option<string>, event: nat, d: Delta): seq<string> {
    [OrEmpty(prev), k.key(event), k.key(d.user), d.asset, k.num(d.amount)]
  }

  /** Fields joined by a separator, after the domain tag. */
  function Joined(fields: seq<string>): string {
    if fields == [] then [] else "|" + fields[0] + Joined(fields[1..])
  }

  function EntryHash(k: Codec, prev: Option<string>, event: nat, d: Delta): string {
    k.sha(LEDGER_ENTRY_DOMAIN + Joined(Fields(k, prev, event, d)))
  }

  function Head(ledger: seq<LedgerRow>): Option<string> {
    if ledger == [] then None else ledger[|ledger| - 1].hash
  }

  /** A row that continues a chain whose head is `prev`. */
  function Entry(k: Codec, prev: Option<string>, event: nat, d: Delta): LedgerRow {
    LedgerRow(event, d, prev, Some(EntryHash(k, prev, event, d)))
  }

  /** The worker's append of one event's deltas. */
  function Append(k: Codec, ledger: seq<LedgerRow>, event: nat, deltas: seq<Delta>): seq<LedgerRow> {
    if deltas == [] then ledger
    else
      var n := |deltas| - 1;
      var before := Append(k, ledger, event, deltas[..n]);
      before + [Entry(k, Head(before), event, deltas[n])]
  }

  /** The whole table is one chain from genesis. */
  ghost predicate Linked(k: Codec, ledger: seq<LedgerRow>) {
    forall i :: 0 <= i < |ledger| ==> ledger[i] == Entry(k, Head(ledger[..i]), ledger[i].event, ledger[i].delta)
  }

  function Repaired(k: Codec, ledger: seq<LedgerRow>): seq<LedgerRow> {
    if ledger == [] then []
    else
      var n := |ledger| - 1;
      var before := Repaired(k, ledger[..n]);
      before + [Entry(k, Head(before), ledger[n].event, ledger[n].delta)]
  }

  /** The row contents, without the hashes. */
  ghost predicate SameContents(a: seq<LedgerRow>, b: seq<LedgerRow>) {
    |a| == |b| && forall i :: 0 <= i < |a| ==> a[i].event == b[i].event && a[i].delta == b[i].delta
  }

  lemma LinkedSnoc(k: Codec, ledger: seq<LedgerRow>, event: nat, d: Delta)
    requires Linked(k, ledger)
    ensures Linked(k, ledger + [Entry(k, Head(ledger), event, d)])
  {
    hide Entry, Head;
    var all := ledger + [Entry(k, Head(ledger), event, d)];
    EntryContents(k, Head(ledger), event, d);
    forall i | 0 <= i < |all| ensures all[i] == Entry(k, Head(all[..i]), all[i].event, all[i].delta) {
      if i < |ledger| {
        assert all[..i] == ledger[..i];
      } else {
        assert all[..i] == ledger;
      }
    }
  }

  lemma EntryContents(k: Codec, prev: Option<string>, event: nat, d: Delta)
    ensures Entry(k, prev, event, d).event == event && Entry(k, prev, event, d).delta == d
  {
  }

  /** Serial appends keep the whole table linked. */
  lemma {:induction false} AppendKeepsLinked(k: Codec, ledger: seq<LedgerRow>, event: nat, deltas: seq<Delta>)
    requires Linked(k, ledger)
    ensures Linked(k, Append(k, ledger, event, deltas))
  {
    if deltas != [] {
      var n := |deltas| - 1;
      AppendKeepsLinked(k, ledger, event, deltas[..n]);
      hide Linked, Entry;
      LinkedSnoc(k, Append(k, ledger, event, deltas[..n]), event, deltas[n]);
    }
  }

  /** `all` is `ledger` followed by one row of `event` for each delta, in order. */
  ghost predicate Extends(ledger: seq<LedgerRow>, event: nat, deltas: seq<Delta>, all: seq<LedgerRow>) {
    && |all| == |ledger| + |deltas| && all[..|ledger|] == ledger
    && (forall i :: |ledger| <= i < |all| ==> all[i].event == event && all[i].delta == deltas[i - |ledger|])
  }

  lemma {:induction false} AppendAdds(k: Codec, ledger: seq<LedgerRow>, event: nat, deltas: seq<Delta>)
    ensures Extends(ledger, event, deltas, Append(k, ledger, event, deltas))
    ensures deltas != [] ==> Head(Append(k, ledger, event, deltas)).Some?
  {
    if deltas != [] {
      var n := |deltas| - 1;
      AppendAdds(k, ledger, event, deltas[..n]);
      var before, all := Append(k, ledger, event, deltas[..n]), Append(k, ledger, event, deltas);
      EntryContents(k, Head(before), event, deltas[n]);
      assert all[..|ledger|] == before[..|ledger|];
    }
  }

  /** Repair yields a linked chain with the same contents. */
  lemma {:induction false} RepairLinks(k: Codec, ledger: seq<LedgerRow>)
    ensures Linked(k, Repaired(k, ledger)) && SameContents(Repaired(k, ledger), ledger)
  {
    if ledger != [] {
      var n := |ledger| - 1;
      RepairLinks(k, ledger[..n]);
      var before := Repaired(k, ledger[..n]);
      var last := Entry(k, Head(before), ledger[n].event, ledger[n].delta);
      EntryContents(k, Head(before), ledger[n].event, ledger[n].delta);
      LinkedSnoc(k, before, ledger[n].event, ledger[n].delta);
      hide Linked, Entry;
      SameContentsSnoc(before, last, ledger);
    }
  }

  lemma SameContentsSnoc(a: seq<LedgerRow>, x: LedgerRow, b: seq<LedgerRow>)
    requires b != [] && SameContents(a, b[..|b| - 1])
    requires x.event == b[|b| - 1].event && x.delta == b[|b| - 1].delta
    ensures SameContents(a + [x], b)
  {
    var n := |b| - 1;
    forall i | 0 <= i < |b| ensures (a + [x])[i].event == b[i].event && (a + [x])[i].delta == b[i].delta {
      assert i < n ==> b[..n][i] == b[i];
    }
  }

  lemma {:induction false} RepairFixes(k: Codec, ledger: seq<LedgerRow>)
    requires Linked(k, ledger)
    ensures Repaired(k, ledger) == ledger
  {
    if ledger != [] {
      var n := |ledger| - 1;
      var before := ledger[..n];
      assert ledger == before + [ledger[n]];
      hide Entry, Head;
      forall i | 0 <= i < n ensures before[i] == Entry(k, Head(before[..i]), before[i].event, before[i].delta) {
        assert before[..i] == ledger[..i];
      }
      RepairFixes(k, before);
    }
  }

  /** Repair leaves a table alone exactly when it is already linked, so repairing twice is
      repairing once, and a table built by serial appends is not touched. */
  lemma RepairFixpoint(k: Codec, ledger: seq<LedgerRow>)
    ensures Repaired(k, ledger) == ledger <==> Linked(k, ledger)
    ensures Repaired(k, Repaired(k, ledger)) == Repaired(k, ledger)
  {
    RepairLinks(k, ledger);
    RepairFixes(k, Repaired(k, ledger));
    hide Repaired;
    if Linked(k, ledger) {
      RepairFixes(k, ledger);
    }
  }

  /** The repair script: one pass that carries the previous hash and rewrites each row. */
  method Repair(k: Codec, table: array<LedgerRow>)
    modifies table
    ensures table[..] == Repaired(k, old(table[..]))
  {
    var prev: Option<string> := None;
    var i := 0;
    while i < table.Length
      invariant 0 <= i <= table.Length
      invariant table[..i] == Repaired(k, old(table[..])[..i])
      invariant prev == Head(table[..i])
      invariant forall j :: i <= j < table.Length ==> table[j] == old(table[j])
    {
      ghost var done := old(table[..])[..i + 1];
      assert done[..i] == old(table[..])[..i] && done[i] == table[i];
      table[i] := Entry(k, prev, table[i].event, table[i].delta);
      prev := table[i].hash;
      i := i + 1;
      assert table[..i] == table[..i - 1] + [table[i - 1]];
    }
    assert table[..] == table[..i] && old(table[..])[..i] == old(table[..]);
  }

  // ----- tamper evidence

  ghost predicate Bare(s: string) {
    '|' !in s
  }

  /** What the hash needs for the chain to mean anything: no collisions, never empty, and
      textual forms that are one-to-one and free of the separator. */
  ghost predicate Sound(k: Codec) {
    && (forall x, y :: k.sha(x) == k.sha(y) ==> x == y)
    && (forall x :: k.sha(x) != "" && Bare(k.sha(x)))
    && (forall x, y :: k.key(x) == k.key(y) ==> x == y)
    && (forall x :: Bare(k.key(x)))
    && (forall x, y :: k.num(x) == k.num(y) ==> x == y)
    && (forall x :: Bare(k.num(x)))
  }

  ghost predicate AllBare(fields: seq<string>) {
    forall f :: f in fields ==> Bare(f)
  }

  lemma {:induction false} BareSplit(a: string, b: string, s: string, t: string)
    requires Bare(a) && Bare(b) && a + s == b + t
    requires (s == [] || s[0] == '|') && (t == [] || t[0] == '|')
    ensures a == b && s == t
  {
    if a == [] {
      assert [] + s == s;
    } else {
      assert (a + s)[0] == a[0] && a[0] in a;
      assert b != [];
      assert (b + t)[0] == b[0];
      assert (a + s)[1..] == a[1..] + s && (b + t)[1..] == b[1..] + t;
      BareSplit(a[1..], b[1..], s, t);
    }
  }

  /** Joined bare fields can be taken apart in one way only. */
  lemma {:induction false} JoinedInjective(a: seq<string>, b: seq<string>)
    requires AllBare(a) && AllBare(b) && |a| == |b| && Joined(a) == Joined(b)
    ensures a == b
  {
    if a != [] {
      assert a[0] in a && b[0] in b;
      assert Joined(a)[1..] == a[0] + Joined(a[1..]) && Joined(b)[1..] == b[0] + Joined(b[1..]);
      BareSplit(a[0], b[0], Joined(a[1..]), Joined(b[1..]));
      JoinedInjective(a[1..], b[1..]);
    }
  }

  lemma EntryHashInjective(k: Codec, p: Option<string>, e: nat, d: Delta, p': Option<string>, e': nat, d': Delta)
    requires Sound(k) && Bare(d.asset) && Bare(d'.asset) && Bare(OrEmpty(p)) && Bare(OrEmpty(p'))
    requires EntryHash(k, p, e, d) == EntryHash(k, p', e', d')
    ensures OrEmpty(p) == OrEmpty(p') && e == e' && d == d'
  {
    var a, b := Fields(k, p, e, d), Fields(k, p', e', d');
    assert LEDGER_ENTRY_DOMAIN + Joined(a) == LEDGER_ENTRY_DOMAIN + Joined(b);
    assert (LEDGER_ENTRY_DOMAIN + Joined(a))[|LEDGER_ENTRY_DOMAIN|..] == Joined(a);
    assert (LEDGER_ENTRY_DOMAIN + Joined(b))[|LEDGER_ENTRY_DOMAIN|..] == Joined(b);
    hide Joined;
    JoinedInjective(a, b);
    assert a[0] == b[0] && a[1] == b[1] && a[2] == b[2] && a[3] == b[3] && a[4] == b[4];
  }

  ghost predicate BareAssets(ledger: seq<LedgerRow>) {
    forall r :: r in ledger ==> Bare(r.delta.asset)
  }

  lemma HeadOfLinked(k: Codec, ledger: seq<LedgerRow>)
    requires Sound(k) && Linked(k, ledger)
    ensures Bare(OrEmpty(Head(ledger)))
    ensures ledger == [] <==> OrEmpty(Head(ledger)) == ""
    ensures ledger != [] ==> Head(ledger).Some?
  {
  }

  lemma LinkedPrefix(k: Codec, ledger: seq<LedgerRow>)
    requires Linked(k, ledger) && ledger != []
    ensures var n := |ledger| - 1;
            && Linked(k, ledger[..n]) && ledger == ledger[..n] + [ledger[n]]
            && ledger[n] == Entry(k, Head(ledger[..n]), ledger[n].event, ledger[n].delta)
  {
    hide Entry, Head;
    var n := |ledger| - 1;
    forall i | 0 <= i < n ensures ledger[..n][i] == Entry(k, Head(ledger[..n][..i]), ledger[..n][i].event, ledger[..n][i].delta) {
      assert ledger[..n][..i] == ledger[..i];
    }
  }

  /** Two chains from genesis with the same last hash are the same chain, row for row. */
  lemma {:induction false} SameHeadSameChain(k: Codec, a: seq<LedgerRow>, b: seq<LedgerRow>)
    requires Sound(k) && Linked(k, a) && Linked(k, b) && BareAssets(a) && BareAssets(b)
    requires OrEmpty(Head(a)) == OrEmpty(Head(b))
    ensures a == b
    decreases |a|
  {
    HeadOfLinked(k, a);
    HeadOfLinked(k, b);
    if a != [] {
      var n, m := |a| - 1, |b| - 1;
      LinkedPrefix(k, a);
      LinkedPrefix(k, b);
      var x, y := a[n], b[m];
      assert x in a && y in b;
      HeadOfLinked(k, a[..n]);
      HeadOfLinked(k, b[..m]);
      hide Linked, Sound;
      EntryHashInjective(k, Head(a[..n]), x.event, x.delta, Head(b[..m]), y.event, y.delta);
      SameHeadSameChain(k, a[..n], b[..m]);
    }
  }

  /** What an entry's hash is of: the domain tag, the previous hash or nothing, and the row's
      event, user, asset and amount, between bars. */
  lemma EntryText(k: Codec, prev: Option<string>, event: nat, d: Delta)
    ensures EntryHash(k, prev, event, d)
            == k.sha("ledger_entry_v1" + "|" + (if prev.None? then "" else prev.value) + "|" + k.key(event) + "|" + k.key(d.user)
                     + "|" + d.asset + "|" + k.num(d.amount))
  {
    var fields := Fields(k, prev, event, d);
    assert Joined(fields[5..]) == "" && fields[4..][1..] == fields[5..];
    assert fields[3..][1..] == fields[4..] && fields[2..][1..] == fields[3..] && fields[1..][1..] == fields[2..];
    assert Joined(fields[4..]) == "|" + fields[4];
    assert Joined(fields[3..]) == "|" + fields[3] + Joined(fields[4..]);
    assert Joined(fields[2..]) == "|" + fields[2] + Joined(fields[3..]);
    assert Joined(fields[1..]) == "|" + fields[1] + Joined(fields[2..]);
    assert LEDGER_ENTRY_DOMAIN + Joined(fields)
           == "ledger_entry_v1" + "|" + fields[0] + "|" + fields[1] + "|" + fields[2] + "|" + fields[3] + "|" + fields[4];
  }
}
