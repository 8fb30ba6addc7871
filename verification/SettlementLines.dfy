/** The ledger lines inside an event's digest.

    The first settlement sorts the deltas by user and asset, in locale order, and then
    formats them.  Settling an event again formats first and sorts the finished lines by
    code unit.  The two orders need not agree. */
module SettlementLines {
  import opened LedgerChain

  // ----- sorting

  /** Insert behind everything that may stand before `x`, so that equal elements keep their
      order. */
  function InsertBy<T>(le: (T, T) -> bool, s: seq<T>, x: T): seq<T> {
    if s == [] then [x]
    else if le(s[0], x) then [s[0]] + InsertBy(le, s[1..], x)
    else [x] + s
  }

  /** A stable sort. */
  function SortBy<T>(le: (T, T) -> bool, s: seq<T>): seq<T> {
    if s == [] then [] else InsertBy(le, SortBy(le, s[..|s| - 1]), s[|s| - 1])
  }

  ghost predicate SortedBy<T(!new)>(le: (T, T) -> bool, s: seq<T>) {
    forall i, j :: 0 <= i < j < |s| ==> le(s[i], s[j])
  }

  /** A total preorder on the elements of a list. */
  ghost predicate Orders<T(!new)>(le: (T, T) -> bool, s: seq<T>) {
    && (forall x, y :: x in s && y in s ==> le(x, y) || le(y, x))
    && (forall x, y, z :: x in s && y in s && z in s && le(x, y) && le(y, z) ==> le(x, z))
  }

  lemma {:induction false} InsertHas<T>(le: (T, T) -> bool, s: seq<T>, x: T)
    ensures forall y :: y in InsertBy(le, s, x) <==> y in s || y == x
  {
    if s != [] && le(s[0], x) {
      InsertHas(le, s[1..], x);
      assert s == [s[0]] + s[1..];
    }
  }

  lemma {:induction false} SortHas<T>(le: (T, T) -> bool, s: seq<T>)
    ensures forall y :: y in SortBy(le, s) <==> y in s
  {
    if s != [] {
      var n := |s| - 1;
      SortHas(le, s[..n]);
      InsertHas(le, SortBy(le, s[..n]), s[n]);
      assert s == s[..n] + [s[n]];
    }
  }

  lemma SortedCons<T(!new)>(le: (T, T) -> bool, x: T, s: seq<T>)
    requires SortedBy(le, s) && forall y :: y in s ==> le(x, y)
    ensures SortedBy(le, [x] + s)
  {
    var r := [x] + s;
    forall i, j | 0 <= i < j < |r| ensures le(r[i], r[j]) {
      assert r[j] == s[j - 1];
      if i > 0 {
        assert r[i] == s[i - 1];
      }
    }
  }

  lemma {:induction false} InsertSorts<T(!new)>(le: (T, T) -> bool, s: seq<T>, x: T, all: seq<T>)
    requires Orders(le, all) && SortedBy(le, s) && x in all && forall y :: y in s ==> y in all
    ensures SortedBy(le, InsertBy(le, s, x))
  {
    if s != [] {
      var h, tail := s[0], s[1..];
      assert s == [h] + tail && h in s;
      if le(h, x) {
        InsertSorts(le, tail, x, all);
        InsertHas(le, tail, x);
        forall y | y in tail ensures le(h, y) {
          var i :| 0 <= i < |tail| && tail[i] == y;
          assert s[i + 1] == y;
        }
        SortedCons(le, h, InsertBy(le, tail, x));
      } else {
        forall y | y in s ensures le(x, y) {
          var i :| 0 <= i < |s| && s[i] == y;
          assert i > 0 ==> le(h, y);
        }
        SortedCons(le, x, s);
      }
    }
  }

  lemma {:induction false} SortSorts<T(!new)>(le: (T, T) -> bool, s: seq<T>, all: seq<T>)
    requires Orders(le, all) && forall y :: y in s ==> y in all
    ensures SortedBy(le, SortBy(le, s))
  {
    if s != [] {
      var n := |s| - 1;
      SortSorts(le, s[..n], all);
      SortHas(le, s[..n]);
      InsertSorts(le, SortBy(le, s[..n]), s[n], all);
    }
  }

  // ----- code-unit order

  /** Strings by code unit, a prefix first. */
  predicate LexLe(a: string, b: string) {
    a == [] || (b != [] && (a[0] < b[0] || (a[0] == b[0] && LexLe(a[1..], b[1..]))))
  }

  lemma {:induction false} LexTotal(a: string, b: string)
    ensures LexLe(a, b) || LexLe(b, a)
    ensures LexLe(a, b) && LexLe(b, a) ==> a == b
  {
    if a != [] && b != [] && a[0] == b[0] {
      LexTotal(a[1..], b[1..]);
      assert a == [a[0]] + a[1..] && b == [b[0]] + b[1..];
    }
  }

  lemma {:induction false} LexTransitive(a: string, b: string, c: string)
    requires LexLe(a, b) && LexLe(b, c)
    ensures LexLe(a, c)
  {
    if a != [] && b != [] && c != [] && a[0] == b[0] == c[0] {
      LexTransitive(a[1..], b[1..], c[1..]);
    }
  }

  lemma LexOrders(s: seq<string>)
    ensures Orders(LexLe, s)
  {
    forall x, y ensures LexLe(x, y) || LexLe(y, x) {
      LexTotal(x, y);
    }
    forall x, y, z | LexLe(x, y) && LexLe(y, z) ensures LexLe(x, z) {
      LexTransitive(x, y, z);
    }
  }

  /** A common prefix does not matter. */
  lemma {:induction false} LexCommon(p: string, a: string, b: string)
    ensures LexLe(p + a, p + b) <==> LexLe(a, b)
  {
    if p == [] {
      assert p + a == a && p + b == b;
    } else {
      assert (p + a)[1..] == p[1..] + a && (p + b)[1..] == p[1..] + b;
      LexCommon(p[1..], a, b);
    }
  }

  ghost predicate Prefix(a: string, b: string) {
    a <= b
  }

  /** Where neither is a prefix of the other, what follows does not matter. */
  lemma {:induction false} LexDecided(a: string, b: string, s: string, t: string)
    requires !Prefix(a, b) && !Prefix(b, a)
    ensures LexLe(a + s, b + t) <==> LexLe(a, b)
  {
    assert a != [] && b != [];
    if a[0] == b[0] {
      assert (a + s)[1..] == a[1..] + s && (b + t)[1..] == b[1..] + t;
      assert a == [a[0]] + a[1..] && b == [b[0]] + b[1..];
      LexDecided(a[1..], b[1..], s, t);
    }
  }

  // ----- the two line orders

  function Line(k: Codec, d: Delta): string {
    k.key(d.user) + "|" + d.asset + "|" + k.num(d.amount)
  }

  function LinesOf(k: Codec, ds: seq<Delta>): (lines: seq<string>)
    ensures |lines| == |ds|
    ensures forall i :: 0 <= i < |ds| ==> lines[i] == Line(k, ds[i])
  {
    seq(|ds|, i requires 0 <= i < |ds| => Line(k, ds[i]))
  }

  /** By user, then by asset, in the order `collate`. */
  predicate Precedes(collate: (string, string) -> bool, k: Codec, a: Delta, b: Delta) {
    if a.user == b.user then collate(a.asset, b.asset) else collate(k.key(a.user), k.key(b.user))
  }

  function SortedDeltas(collate: (string, string) -> bool, k: Codec, ds: seq<Delta>): seq<Delta> {
    SortBy((a: Delta, b: Delta) => Precedes(collate, k, a, b), ds)
  }

  /** The first settlement: sort, then format. */
  function FirstLines(collate: (string, string) -> bool, k: Codec, ds: seq<Delta>): seq<string> {
    LinesOf(k, SortedDeltas(collate, k, ds))
  }

  /** A later one: format, then sort. */
  function LaterLines(k: Codec, ds: seq<Delta>): seq<string> {
    SortBy(LexLe, LinesOf(k, ds))
  }

  /** The two orders agree on every two of these deltas. */
  ghost predicate OrdersAgree(collate: (string, string) -> bool, k: Codec, ds: seq<Delta>) {
    forall a, b :: a in ds && b in ds ==> (Precedes(collate, k, a, b) <==> LexLe(Line(k, a), Line(k, b)))
  }

  lemma LinesCons(k: Codec, d: Delta, ds: seq<Delta>)
    ensures LinesOf(k, [d] + ds) == [Line(k, d)] + LinesOf(k, ds)
  {
  }

  lemma {:induction false} InsertAgrees(collate: (string, string) -> bool, k: Codec, s: seq<Delta>, x: Delta)
    requires forall y :: y in s ==> (Precedes(collate, k, y, x) <==> LexLe(Line(k, y), Line(k, x)))
    ensures var le := (a: Delta, b: Delta) => Precedes(collate, k, a, b);
            LinesOf(k, InsertBy(le, s, x)) == InsertBy(LexLe, LinesOf(k, s), Line(k, x))
  {
    var le := (a: Delta, b: Delta) => Precedes(collate, k, a, b);
    if s == [] {
      assert LinesOf(k, [x]) == [Line(k, x)];
    } else {
      assert s == [s[0]] + s[1..];
      LinesCons(k, s[0], s[1..]);
      if le(s[0], x) {
        InsertAgrees(collate, k, s[1..], x);
        LinesCons(k, s[0], InsertBy(le, s[1..], x));
      } else {
        LinesCons(k, x, s);
      }
    }
  }

  lemma {:induction false} AgreeingOrders(collate: (string, string) -> bool, k: Codec, ds: seq<Delta>)
    requires OrdersAgree(collate, k, ds)
    ensures FirstLines(collate, k, ds) == LaterLines(k, ds)
  {
    if ds != [] {
      var n := |ds| - 1;
      assert ds == ds[..n] + [ds[n]];
      AgreeingOrders(collate, k, ds[..n]);
      var sorted := SortedDeltas(collate, k, ds[..n]);
      SortHas((a: Delta, b: Delta) => Precedes(collate, k, a, b), ds[..n]);
      InsertAgrees(collate, k, sorted, ds[n]);
      assert LinesOf(k, ds)[..n] == LinesOf(k, ds[..n]);
    }
  }

  // ----- when they agree

  /** A fill's four lines: two users, each with the base and the quote asset. */
  ghost predicate FourLines(ds: seq<Delta>, taker: nat, maker: nat, base: string, quote: string) {
    && |ds| == 4
    && ds[0].user == taker && ds[1].user == taker && ds[2].user == maker && ds[3].user == maker
    && ds[0].asset == base && ds[1].asset == quote && ds[2].asset == base && ds[3].asset == quote
  }

  /** Every character sorts before the separator, as letters and digits do. */
  ghost predicate Plain(s: string) {
    forall c :: c in s ==> c < '|'
  }

  /** Two users whose ids are of one form, two different assets of plain characters, and a
      locale that orders those four strings as their characters do. */
  ghost predicate Usual(collate: (string, string) -> bool, k: Codec, taker: nat, maker: nat, base: string, quote: string) {
    && taker != maker && base != quote && Plain(base) && Plain(quote)
    && !Prefix(k.key(taker), k.key(maker)) && !Prefix(k.key(maker), k.key(taker))
    && (forall x, y :: x in {k.key(taker), k.key(maker)} && y in {k.key(taker), k.key(maker)} ==> (collate(x, y) <==> LexLe(x, y)))
    && (forall x, y :: x in {base, quote} && y in {base, quote} ==> (collate(x, y) <==> LexLe(x, y)))
  }

  lemma LineByUser(k: Codec, d: Delta)
    ensures Line(k, d) == k.key(d.user) + ("|" + d.asset + "|" + k.num(d.amount))
    ensures Line(k, d) == (k.key(d.user) + "|") + (d.asset + ("|" + k.num(d.amount)))
  {
  }

  /** For the lines of a fill, locale order is code-unit order of users and assets. */
  lemma PrecedesIs(collate: (string, string) -> bool, k: Codec, ds: seq<Delta>, taker: nat, maker: nat, base: string, quote: string, a: Delta, b: Delta)
    requires FourLines(ds, taker, maker, base, quote) && Usual(collate, k, taker, maker, base, quote) && a in ds && b in ds
    ensures Precedes(collate, k, a, b) <==> if a.user == b.user then LexLe(a.asset, b.asset) else LexLe(k.key(a.user), k.key(b.user))
    ensures a.user != b.user ==> !Prefix(k.key(a.user), k.key(b.user)) && !Prefix(k.key(b.user), k.key(a.user))
    ensures a.user == b.user && a.asset == b.asset ==> a == b
    ensures (a.asset == base || a.asset == quote) && (a.user == taker || a.user == maker)
  {
    hide LexLe, Prefix, Plain;
  }

  lemma LinesByAsset(k: Codec, a: Delta, b: Delta)
    requires a.user == b.user && !Prefix(a.asset, b.asset) && !Prefix(b.asset, a.asset)
    ensures LexLe(Line(k, a), Line(k, b)) <==> LexLe(a.asset, b.asset)
  {
    LineByUser(k, a);
    LineByUser(k, b);
    hide LexLe, Line, Prefix;
    var x, y := "|" + k.num(a.amount), "|" + k.num(b.amount);
    LexCommon(k.key(a.user) + "|", a.asset + x, b.asset + y);
    LexDecided(a.asset, b.asset, x, y);
  }

  lemma LinesByUser(k: Codec, a: Delta, b: Delta)
    requires !Prefix(k.key(a.user), k.key(b.user)) && !Prefix(k.key(b.user), k.key(a.user))
    ensures LexLe(Line(k, a), Line(k, b)) <==> LexLe(k.key(a.user), k.key(b.user))
  {
    LineByUser(k, a);
    LineByUser(k, b);
    hide LexLe, Line, Prefix;
    LexDecided(k.key(a.user), k.key(b.user), "|" + a.asset + "|" + k.num(a.amount), "|" + b.asset + "|" + k.num(b.amount));
  }

  /** Two lines of a fill are in the same order either way, if neither asset begins the other. */
  lemma LinesAgree(collate: (string, string) -> bool, k: Codec, ds: seq<Delta>, taker: nat, maker: nat, base: string, quote: string, a: Delta, b: Delta)
    requires FourLines(ds, taker, maker, base, quote) && Usual(collate, k, taker, maker, base, quote) && a in ds && b in ds
    requires !Prefix(base, quote) && !Prefix(quote, base)
    ensures Precedes(collate, k, a, b) <==> LexLe(Line(k, a), Line(k, b))
  {
    PrecedesIs(collate, k, ds, taker, maker, base, quote, a, b);
    PrecedesIs(collate, k, ds, taker, maker, base, quote, b, a);
    hide LexLe, Line, Prefix, FourLines, Usual, Precedes;
    if a.user != b.user {
      LinesByUser(k, a, b);
    } else if a.asset != b.asset {
      LinesByAsset(k, a, b);
    } else {
      LexTotal(a.asset, a.asset);
      LexTotal(Line(k, a), Line(k, a));
    }
  }

  lemma LexFirst(a: string, b: string)
    requires a != [] && b != [] && b[0] < a[0]
    ensures !LexLe(a, b)
  {
  }

  lemma LexPrefix(a: string, rest: string)
    requires rest != []
    ensures LexLe(a, a + rest) && !LexLe(a + rest, a)
  {
    LexCommon(a, [], rest);
    LexCommon(a, rest, []);
    assert a + [] == a;
  }

  /** `short` closed by a separator comes after anything that goes on with a plain character. */
  lemma SeparatorLast(pre: string, short: string, rest: string, x: string, y: string)
    requires rest != [] && x != [] && rest[0] < x[0]
    ensures !LexLe(pre + (short + x), pre + ((short + rest) + y))
  {
    hide LexLe;
    assert (short + rest) + y == short + (rest + y);
    LexCommon(pre, short + x, short + (rest + y));
    LexCommon(short, x, rest + y);
    LexFirst(x, rest + y);
  }

  /** If one asset begins the other, sorting finished lines puts the longer one first. */
  lemma PrefixFlips(k: Codec, a: Delta, b: Delta)
    requires a.user == b.user && Prefix(a.asset, b.asset) && a.asset != b.asset && Plain(b.asset)
    ensures LexLe(a.asset, b.asset) && !LexLe(b.asset, a.asset)
    ensures !LexLe(Line(k, a), Line(k, b))
  {
    var rest := b.asset[|a.asset|..];
    assert b.asset == a.asset + rest && rest != [] && rest[0] in b.asset;
    LineByUser(k, a);
    LineByUser(k, b);
    hide LexLe, Line;
    LexPrefix(a.asset, rest);
    SeparatorLast(k.key(a.user) + "|", a.asset, rest, "|" + k.num(a.amount), "|" + k.num(b.amount));
  }

  lemma PrecedesOrders(collate: (string, string) -> bool, k: Codec, ds: seq<Delta>, taker: nat, maker: nat, base: string, quote: string)
    requires FourLines(ds, taker, maker, base, quote) && Usual(collate, k, taker, maker, base, quote)
    ensures Orders((a: Delta, b: Delta) => Precedes(collate, k, a, b), ds)
  {
    hide LexLe, FourLines, Usual, Precedes;
    forall x, y | x in ds && y in ds ensures Precedes(collate, k, x, y) || Precedes(collate, k, y, x) {
      PrecedesIs(collate, k, ds, taker, maker, base, quote, x, y);
      PrecedesIs(collate, k, ds, taker, maker, base, quote, y, x);
      LexTotal(x.asset, y.asset);
      LexTotal(k.key(x.user), k.key(y.user));
    }
    forall x, y, z | x in ds && y in ds && z in ds && Precedes(collate, k, x, y) && Precedes(collate, k, y, z)
      ensures Precedes(collate, k, x, z)
    {
      PrecedesTransitive(collate, k, ds, taker, maker, base, quote, x, y, z);
    }
  }

  lemma PrecedesTransitive(collate: (string, string) -> bool, k: Codec, ds: seq<Delta>, taker: nat, maker: nat, base: string, quote: string, x: Delta, y: Delta, z: Delta)
    requires FourLines(ds, taker, maker, base, quote) && Usual(collate, k, taker, maker, base, quote)
    requires x in ds && y in ds && z in ds && Precedes(collate, k, x, y) && Precedes(collate, k, y, z)
    ensures Precedes(collate, k, x, z)
  {
    PrecedesIs(collate, k, ds, taker, maker, base, quote, x, y);
    PrecedesIs(collate, k, ds, taker, maker, base, quote, y, z);
    PrecedesIs(collate, k, ds, taker, maker, base, quote, z, x);
    PrecedesIs(collate, k, ds, taker, maker, base, quote, x, z);
    hide LexLe, FourLines, Usual, Precedes, Prefix;
    if x.user == y.user == z.user {
      LexTransitive(x.asset, y.asset, z.asset);
    } else if x.user == z.user {
      LexTotal(k.key(x.user), k.key(y.user));
      NotItsOwnPrefix(k.key(x.user), k.key(y.user));
    }
  }

  lemma NotItsOwnPrefix(a: string, b: string)
    requires !Prefix(a, b)
    ensures a != b
  {
  }

  /** Where `a` stands before `b` in a list, it does so in the list of their lines. */
  lemma LineAt(k: Codec, sorted: seq<Delta>, lines: seq<string>, i: nat, j: nat)
    requires lines == LinesOf(k, sorted) && SortedBy(LexLe, lines) && i < j < |sorted|
    ensures LexLe(Line(k, sorted[i]), Line(k, sorted[j]))
  {
    hide LexLe, Line;
    assert LexLe(lines[i], lines[j]);
  }

  /** A pair that the two orders place differently makes the two lists differ. */
  lemma FlippedPair(collate: (string, string) -> bool, k: Codec, ds: seq<Delta>, a: Delta, b: Delta)
    requires a in ds && b in ds && Orders((x: Delta, y: Delta) => Precedes(collate, k, x, y), ds)
    requires !Precedes(collate, k, b, a) && !LexLe(Line(k, a), Line(k, b))
    ensures FirstLines(collate, k, ds) != LaterLines(k, ds)
  {
    hide SortBy, LexLe, Line, Orders, Precedes;
    var le := (x: Delta, y: Delta) => Precedes(collate, k, x, y);
    var sorted := SortedDeltas(collate, k, ds);
    SortSorts(le, ds, ds);
    SortHas(le, ds);
    LexOrders(LinesOf(k, ds));
    SortSorts(LexLe, LinesOf(k, ds), LinesOf(k, ds));
    var i :| 0 <= i < |sorted| && sorted[i] == a;
    var j :| 0 <= j < |sorted| && sorted[j] == b;
    LexTotal(Line(k, a), Line(k, a));
    assert a != b;
    if FirstLines(collate, k, ds) == LaterLines(k, ds) {
      LineAt(k, sorted, LaterLines(k, ds), i, j);
    }
  }

  /** The digest of a fill has the same lines the first time and later if and only if neither
      asset's symbol begins the other's. */
  lemma SameLinesIff(collate: (string, string) -> bool, k: Codec, ds: seq<Delta>, taker: nat, maker: nat, base: string, quote: string)
    requires FourLines(ds, taker, maker, base, quote) && Usual(collate, k, taker, maker, base, quote)
    ensures FirstLines(collate, k, ds) == LaterLines(k, ds) <==> !Prefix(base, quote) && !Prefix(quote, base)
  {
    PrecedesOrders(collate, k, ds, taker, maker, base, quote);
    hide FirstLines, LaterLines, Orders;
    if Prefix(base, quote) {
      PrefixFlips(k, ds[0], ds[1]);
      FlippedPair(collate, k, ds, ds[0], ds[1]);
    } else if Prefix(quote, base) {
      PrefixFlips(k, ds[1], ds[0]);
      FlippedPair(collate, k, ds, ds[1], ds[0]);
    } else {
      forall a, b | a in ds && b in ds ensures Precedes(collate, k, a, b) <==> LexLe(Line(k, a), Line(k, b)) {
        LinesAgree(collate, k, ds, taker, maker, base, quote, a, b);
      }
      AgreeingOrders(collate, k, ds);
    }
  }
}
