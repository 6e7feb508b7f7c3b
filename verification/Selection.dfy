/**
 Stable percentage selection (internal/domain/campaign/service/selection.go): targets are sorted
 by the text of their UUID and a percentage rollout takes the first ceil(n * percent / 100).
 */
module Selection {
  import opened Basics
  import BigEndian

  // ---------------------------------------------------------------------------
  // The textual form of a UUID, and what sorting by it means
  // ---------------------------------------------------------------------------

  const HYPHEN: byte := 45

  function HexDigit(d: nat): (c: byte)
    requires d < 16
  {
    if d < 10 then 48 + d else 87 + d
  }

  /** Lower-case hexadecimal, two characters an octet. */
  function Hex(b: Bytes): (h: Bytes)
    ensures |h| == 2 * |b|
  {
    seq(2 * |b|, i requires 0 <= i < 2 * |b| =>
      if i % 2 == 0 then HexDigit(b[i / 2] / 16) else HexDigit(b[i / 2] % 16))
  }

  /** The 8-4-4-4-12 form puts hyphens at 8, 13, 18 and 23. */
  predicate HyphenAt(i: nat) {
    i == 8 || i == 13 || i == 18 || i == 23
  }

  /** Which hexadecimal character stands at a place that is no hyphen. */
  function SourceOf(i: nat): nat
    requires !HyphenAt(i)
  {
    if i < 8 then i else if i < 13 then i - 1 else if i < 18 then i - 2 else if i < 23 then i - 3 else i - 4
  }

  function Hyphenate(h: Bytes): (t: Bytes)
    requires |h| == 32
    ensures |t| == 36
  {
    seq(36, i requires 0 <= i < 36 => if HyphenAt(i) then HYPHEN else h[SourceOf(i)])
  }

  function UuidText(id: Id): (t: Bytes)
    ensures |t| == 36
  {
    Hyphenate(Hex(BigEndian.Encode(id, 16)))
  }

  /** Where the j-th hexadecimal character ends up once the hyphens are in. */
  function TextPosition(j: nat): nat {
    j + (if j < 8 then 0 else if j < 12 then 1 else if j < 16 then 2 else if j < 20 then 3 else 4)
  }

  lemma HexKeepsFirstDifference(a: Bytes, b: Bytes, i: nat) returns (j: nat)
    requires |a| == |b| && BigEndian.SmallerAt(a, b, i)
    ensures BigEndian.SmallerAt(Hex(a), Hex(b), j)
  {
    j := if a[i] / 16 < b[i] / 16 then 2 * i else 2 * i + 1;
    forall x | 0 <= x < i
      ensures a[x] == b[x]
    {
      assert a[..i][x] == b[..i][x];
    }
    assert Hex(a)[..j] == Hex(b)[..j];
  }

  lemma HyphensKeepFirstDifference(g: Bytes, h: Bytes, j: nat)
    requires |g| == |h| == 32 && BigEndian.SmallerAt(g, h, j)
    ensures BigEndian.SmallerAt(Hyphenate(g), Hyphenate(h), TextPosition(j))
  {
    var p := TextPosition(j);
    forall x | 0 <= x < j
      ensures g[x] == h[x]
    {
      assert g[..j][x] == h[..j][x];
    }
    assert !HyphenAt(p) && SourceOf(p) == j;
    assert Hyphenate(g)[..p] == Hyphenate(h)[..p];
  }

  /** Comparing UUID texts, comparing UUID octets and comparing the numbers are one order. */
  lemma TextOrderIsByteOrder(a: Id, b: Id)
    ensures BigEndian.LexLess(UuidText(a), UuidText(b)) <==> a < b
    ensures BigEndian.LexLess(BigEndian.Encode(a, 16), BigEndian.Encode(b, 16)) <==> a < b
  {
    BigEndian.WordsOf(16);
    BigEndian.LexLessIsNumericOrder(a, b, 16);
    if a < b {
      TextOrderForward(a, b);
    } else if b < a {
      TextOrderForward(b, a);
      BigEndian.LexLessAsymmetric(UuidText(b), UuidText(a));
    }
  }

  lemma TextOrderForward(a: Id, b: Id)
    requires a < b
    ensures BigEndian.LexLess(UuidText(a), UuidText(b))
  {
    BigEndian.WordsOf(16);
    var i := BigEndian.EncodeMonotone(a, b, 16);
    var j := HexKeepsFirstDifference(BigEndian.Encode(a, 16), BigEndian.Encode(b, 16), i);
    HyphensKeepFirstDifference(Hex(BigEndian.Encode(a, 16)), Hex(BigEndian.Encode(b, 16)), j);
    assert TextPosition(j) < |UuidText(a)|;
  }

  /** The comparator handed to the sort: it compares texts, and so compares the ids themselves. */
  method TextLess(a: Id, b: Id) returns (less: bool)
    ensures less <==> a < b
  {
    TextOrderIsByteOrder(a, b);
    less := BigEndian.LexLess(UuidText(a), UuidText(b));
  }

  // ---------------------------------------------------------------------------
  // Sorting
  // ---------------------------------------------------------------------------

  ghost predicate Ascending(s: seq<Id>) {
    forall i :: 0 < i < |s| ==> s[i - 1] <= s[i]
  }

  function Insert(x: Id, s: seq<Id>): (r: seq<Id>)
    ensures |r| == |s| + 1
  {
    if s == [] || x <= s[0] then [x] + s else [s[0]] + Insert(x, s[1..])
  }

  function Sorted(s: seq<Id>): (r: seq<Id>)
    ensures |r| == |s|
  {
    if s == [] then [] else Insert(s[0], Sorted(s[1..]))
  }

  lemma {:induction false} InsertKeepsOrder(x: Id, s: seq<Id>)
    requires Ascending(s)
    ensures Ascending(Insert(x, s))
  {
    if s != [] && x > s[0] {
      InsertKeepsOrder(x, s[1..]);
    }
  }

  lemma {:induction false} InsertAdds(x: Id, s: seq<Id>)
    ensures multiset(Insert(x, s)) == multiset(s) + multiset{x}
  {
    if s != [] && x > s[0] {
      InsertAdds(x, s[1..]);
      assert s == [s[0]] + s[1..];
    }
  }

  lemma {:induction false} SortedIsAscending(s: seq<Id>)
    ensures Ascending(Sorted(s))
    ensures multiset(Sorted(s)) == multiset(s)
  {
    if s != [] {
      SortedIsAscending(s[1..]);
      InsertKeepsOrder(s[0], Sorted(s[1..]));
      InsertAdds(s[0], Sorted(s[1..]));
      assert s == [s[0]] + s[1..];
    }
  }

  lemma {:induction false} AscendingPairs(s: seq<Id>, i: nat, j: nat)
    requires Ascending(s) && i <= j < |s|
    ensures s[i] <= s[j]
  {
    if i < j {
      AscendingPairs(s, i, j - 1);
    }
  }

  lemma AscendingHeads(s: seq<Id>, t: seq<Id>)
    requires Ascending(s) && s != [] && t != []
    requires multiset(s) == multiset(t)
    ensures s[0] <= t[0]
  {
    assert t[0] in multiset(t);
    var j :| 0 <= j < |s| && s[j] == t[0];
    AscendingPairs(s, 0, j);
  }

  /** Any ascending arrangement of the same ids is the same list, whatever algorithm made it. */
  lemma {:induction false} AscendingIsUnique(s: seq<Id>, t: seq<Id>)
    requires Ascending(s) && Ascending(t) && multiset(s) == multiset(t)
    ensures s == t
  {
    assert |s| == |multiset(s)| && |t| == |multiset(t)|;
    if s != [] {
      AscendingHeads(s, t);
      AscendingHeads(t, s);
      assert s == [s[0]] + s[1..] && t == [t[0]] + t[1..];
      assert multiset(s[1..]) == multiset(s) - multiset{s[0]};
      assert multiset(t[1..]) == multiset(t) - multiset{t[0]};
      AscendingIsUnique(s[1..], t[1..]);
    }
  }

  lemma {:induction false} DistinctMultisets(s: seq<Id>, t: seq<Id>)
    requires NoDuplicates(s) && NoDuplicates(t) && ToSet(s) == ToSet(t)
    ensures multiset(s) == multiset(t)
  {
    CountsInDistinct(s);
    CountsInDistinct(t);
    forall x
      ensures multiset(s)[x] == multiset(t)[x]
    {
      assert x in s <==> x in ToSet(s);
      assert x in t <==> x in ToSet(t);
    }
  }

  lemma {:induction false} CountsInDistinct(s: seq<Id>)
    requires NoDuplicates(s)
    ensures forall x :: multiset(s)[x] == if x in s then 1 else 0
  {
    if s != [] {
      CountsInDistinct(s[1..]);
      assert s == [s[0]] + s[1..];
    }
  }

  lemma SortedKeepsDistinct(s: seq<Id>)
    requires NoDuplicates(s)
    ensures NoDuplicates(Sorted(s)) && ToSet(Sorted(s)) == ToSet(s)
  {
    SortedIsAscending(s);
    CountsInDistinct(s);
    SameCounts(s, Sorted(s));
  }

  lemma SameCounts(s: seq<Id>, r: seq<Id>)
    requires multiset(s) == multiset(r)
    requires forall x :: multiset(s)[x] == if x in s then 1 else 0
    ensures NoDuplicates(r) && ToSet(r) == ToSet(s)
  {
    forall i, j | 0 <= i < j < |r|
      ensures r[i] != r[j]
    {
      assert r == r[..j] + r[j..];
      assert r[..j][i] == r[i] && r[j..][0] == r[j];
      assert multiset(r)[r[i]] == multiset(r[..j])[r[i]] + multiset(r[j..])[r[i]];
      assert r[i] in multiset(r[..j]) && r[j] in multiset(r[j..]);
      assert multiset(s)[r[i]] <= 1;
    }
    forall x: Id
      ensures x in ToSet(r) <==> x in ToSet(s)
    {
      assert x in r <==> x in multiset(r);
      assert x in s <==> x in multiset(s);
    }
  }

  lemma SpliceKeepsOrder(s: seq<Id>, x: Id, j: nat)
    requires Ascending(s) && j <= |s|
    requires j > 0 ==> s[j - 1] <= x
    requires j < |s| ==> x <= s[j]
    ensures Ascending(s[..j] + [x] + s[j..])
  {
    var r := s[..j] + [x] + s[j..];
    forall i | 0 < i < |r|
      ensures r[i - 1] <= r[i]
    {
      if i < j {
        assert s[i - 1] <= s[i];
      } else if i > j + 1 {
        assert s[i - 2] <= s[i - 1];
      }
    }
  }

  lemma InsertAddsOne(a: seq<Id>, x: Id, b: seq<Id>)
    ensures multiset(a + [x] + b) == multiset(a + b) + multiset{x}
  {
  }

  lemma InsertAt(s: seq<Id>, x: Id, j: nat)
    requires Ascending(s) && j <= |s|
    requires j > 0 ==> s[j - 1] <= x
    requires j < |s| ==> x <= s[j]
    ensures Ascending(s[..j] + [x] + s[j..])
    ensures multiset(s[..j] + [x] + s[j..]) == multiset(s) + multiset{x}
  {
    SpliceKeepsOrder(s, x, j);
    InsertAddsOne(s[..j], x, s[j..]);
    assert s == s[..j] + s[j..];
  }

  method InsertionPoint(s: seq<Id>, x: Id) returns (j: nat)
    ensures j <= |s|
    ensures j > 0 ==> s[j - 1] <= x
    ensures j < |s| ==> x <= s[j]
  {
    j := 0;
    while j < |s|
      invariant j <= |s|
      invariant j > 0 ==> s[j - 1] <= x
    {
      var before := TextLess(s[j], x);
      if !before {
        return;
      }
      j := j + 1;
    }
  }

  /** One element put where it belongs. */
  method InsertSorted(s: seq<Id>, x: Id) returns (r: seq<Id>)
    requires Ascending(s)
    ensures Ascending(r) && multiset(r) == multiset(s) + multiset{x}
  {
    var j := InsertionPoint(s, x);
    InsertAt(s, x, j);
    r := s[..j] + [x] + s[j..];
  }

  lemma TakeOneMore(ids: seq<Id>, i: nat)
    requires i < |ids|
    ensures multiset(ids[..i + 1]) == multiset(ids[..i]) + multiset{ids[i]}
  {
    assert ids[..i + 1] == ids[..i] + [ids[i]];
  }

  lemma SortedByCounting(ids: seq<Id>, cp: seq<Id>)
    requires Ascending(cp) && multiset(cp) == multiset(ids)
    ensures cp == Sorted(ids)
  {
    SortedIsAscending(ids);
    AscendingIsUnique(cp, Sorted(ids));
  }

  /** A sorted copy of ids; the argument is left alone. */
  method SortUuids(ids: seq<Id>) returns (cp: seq<Id>)
    ensures cp == Sorted(ids)
  {
    cp := [];
    for i := 0 to |ids|
      invariant Ascending(cp) && multiset(cp) == multiset(ids[..i])
    {
      TakeOneMore(ids, i);
      cp := InsertSorted(cp, ids[i]);
    }
    assert ids[..|ids|] == ids;
    SortedByCounting(ids, cp);
  }

  // ---------------------------------------------------------------------------
  // The percentage slice
  // ---------------------------------------------------------------------------

  function Clamp(percent: int): nat {
    if percent < 1 then 1 else if percent > 100 then 100 else percent
  }

  lemma MultiplyMonotone(n: nat, p: nat, q: nat)
    requires p <= q
    ensures n * p <= n * q
  {
    assert n * q == n * p + n * (q - p);
  }

  lemma DivideMonotone(a: nat, b: nat)
    requires a <= b
    ensures a / 100 <= b / 100
  {
  }

  /** The number of devices a rollout of the given percentage reaches. */
  function StableCount(n: nat, percent: int): (k: nat)
    ensures k <= n
  {
    if n == 0 then 0 else
      var p := Clamp(percent);
      var k := (n * p + 99) / 100;
      if k < 1 then 1 else if k > n then n else k
  }

  function TakeStable(sorted: seq<Id>, percent: int): (out: seq<Id>) {
    sorted[..StableCount(|sorted|, percent)]
  }

  method TakeStablePercentage(sorted: seq<Id>, percent: int) returns (out: seq<Id>)
    ensures out == TakeStable(sorted, percent)
  {
    if |sorted| == 0 {
      return [];
    }
    var p := percent;
    if p < 1 {
      p := 1;
    }
    if p > 100 {
      p := 100;
    }
    var k := (|sorted| * p + 99) / 100;
    if k < 1 {
      k := 1;
    }
    if k > |sorted| {
      k := |sorted|;
    }
    var buffer := new Id[k];
    for i := 0 to k
      invariant buffer[..i] == sorted[..i]
    {
      buffer[i] := sorted[i];
    }
    out := buffer[..];
  }

  /** The count is the least k with 100 k >= n p, and it is at least one and at most n. */
  lemma StableCountIsExactCeiling(n: nat, p: int)
    requires n > 0 && 1 <= p <= 100
    ensures var k := StableCount(n, p);
            1 <= k <= n && 100 * k >= n * p && forall j: int :: 100 * j >= n * p ==> j >= k
  {
    var q := (n * p + 99) / 100;
    assert n * p <= n * 100;
    assert n * p >= 1;
    assert 100 * q >= n * p > 100 * (q - 1);
  }

  lemma StableCountMonotone(n: nat, p: int, q: int)
    requires p <= q
    ensures StableCount(n, p) <= StableCount(n, q)
  {
    if n > 0 {
      var p', q' := Clamp(p), Clamp(q);
      MultiplyMonotone(n, p', q');
      DivideMonotone(n * p' + 99, n * q' + 99);
    }
  }

  /**
   The chosen subset depends only on which devices are in scope, not on the order a map or a
   query lists them in, and raising the percentage only ever adds devices.
   */
  lemma SelectionIsStableAndNested(ids: seq<Id>, permuted: seq<Id>, p: int, q: int)
    requires NoDuplicates(ids) && NoDuplicates(permuted) && ToSet(ids) == ToSet(permuted)
    requires p <= q
    ensures TakeStable(Sorted(ids), p) == TakeStable(Sorted(permuted), p)
    ensures TakeStable(Sorted(ids), p) <= TakeStable(Sorted(permuted), q)
    ensures NoDuplicates(TakeStable(Sorted(ids), p)) && ToSet(TakeStable(Sorted(ids), p)) <= ToSet(ids)
  {
    DistinctMultisets(ids, permuted);
    SortedIsAscending(ids);
    SortedIsAscending(permuted);
    AscendingIsUnique(Sorted(ids), Sorted(permuted));
    SortedKeepsDistinct(ids);
    StableCountMonotone(|Sorted(ids)|, p, q);
    assert forall x | x in TakeStable(Sorted(ids), p) :: x in ToSet(Sorted(ids));
  }

  /** A device left out comes after every chosen one in UUID-text order. */
  lemma ChosenComeFirst(ids: seq<Id>, p: int, x: Id, y: Id)
    requires NoDuplicates(ids)
    requires x in TakeStable(Sorted(ids), p) && y in ids && y !in TakeStable(Sorted(ids), p)
    ensures BigEndian.LexLess(UuidText(x), UuidText(y))
  {
    var s, out := Sorted(ids), TakeStable(Sorted(ids), p);
    SortedIsAscending(ids);
    SortedKeepsDistinct(ids);
    assert y in ToSet(s);
    var j :| 0 <= j < |s| && s[j] == y;
    var i :| 0 <= i < |out| && out[i] == x;
    assert forall z | 0 <= z < |out| :: s[z] in out;
    AscendingPairs(s, i, j);
    TextOrderIsByteOrder(x, y);
  }
}
