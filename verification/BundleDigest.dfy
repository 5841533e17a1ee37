/** The byte stream a bundle inventory is digested as.  The digest is
    collision-free, so the stream stands for its own digest. */
module BundleDigest {
  import opened Wrappers
  import Decimals

  type Byte = b: int | 0 <= b < 256
  type Bytes = seq<Byte>

  /** One inventory entry: the UTF-8 bytes of its path, its size, its hash. */
  datatype Entry = Entry(path: Bytes, size: int, sha: Bytes)

  /** A path in normal form; `None` for an unsafe path. */
  const NORMALIZED: Bytes -> Option<Bytes>

  const DOMAIN: Bytes := [67, 67, 79, 83, 45, 73, 78, 83, 84, 65, 76, 76, 45, 66, 85, 78, 68, 76, 69, 45, 118, 49, 0]
  const HASH_LENGTH := 32

  predicate Accepted(e: Entry) {
    NORMALIZED(e.path).Some? && e.size >= 0 && |e.sha| == HASH_LENGTH
  }

  /** The triple an accepted entry lists. */
  function Listed(e: Entry): Entry
    requires Accepted(e)
  {
    e.(path := NORMALIZED(e.path).value)
  }

  // ---------------------------------------------------------------------
  // Order by path bytes
  // ---------------------------------------------------------------------

  predicate AtMost(a: Bytes, b: Bytes) {
    a == [] || (b != [] && (a[0] < b[0] || (a[0] == b[0] && AtMost(a[1..], b[1..]))))
  }

  lemma {:induction false} OrderIsTotal(a: Bytes, b: Bytes)
    ensures AtMost(a, b) || AtMost(b, a)
    ensures AtMost(a, b) && AtMost(b, a) ==> a == b
  {
    if a != [] && b != [] && a[0] == b[0] {
      OrderIsTotal(a[1..], b[1..]);
      assert a == [a[0]] + a[1..] && b == [b[0]] + b[1..];
    }
  }

  lemma {:induction false} OrderIsTransitive(a: Bytes, b: Bytes, c: Bytes)
    requires AtMost(a, b) && AtMost(b, c)
    ensures AtMost(a, c)
  {
    if a != [] && a[0] == b[0] == c[0] { OrderIsTransitive(a[1..], b[1..], c[1..]); }
  }

  ghost predicate InOrder(entries: seq<Entry>) {
    forall i, j :: 0 <= i < j < |entries| ==> AtMost(entries[i].path, entries[j].path)
  }

  /** `entries` with `e` after everything that is not greater. */
  function Inserted(entries: seq<Entry>, e: Entry): (r: seq<Entry>)
    ensures |r| == |entries| + 1
  {
    if entries == [] || AtMost(entries[|entries| - 1].path, e.path) then entries + [e]
    else Inserted(entries[..|entries| - 1], e) + [entries[|entries| - 1]]
  }

  /** Stable sorting by path bytes. */
  function Sorted(entries: seq<Entry>): (r: seq<Entry>)
    ensures |r| == |entries|
  {
    if entries == [] then [] else Inserted(Sorted(entries[..|entries| - 1]), entries[|entries| - 1])
  }

  lemma {:induction false} InsertedInOrder(entries: seq<Entry>, e: Entry)
    requires InOrder(entries)
    ensures InOrder(Inserted(entries, e))
    ensures multiset(Inserted(entries, e)) == multiset(entries) + multiset{e}
  {
    if entries != [] {
      var init, last := entries[..|entries| - 1], entries[|entries| - 1];
      assert entries == init + [last];
      OrderIsTotal(last.path, e.path);
      if AtMost(last.path, e.path) {
        forall i | 0 <= i < |entries| ensures AtMost(entries[i].path, e.path) {
          if i < |init| { OrderIsTransitive(entries[i].path, last.path, e.path); }
        }
      } else {
        InsertedInOrder(init, e);
        var rest := Inserted(init, e);
        forall i | 0 <= i < |rest| ensures AtMost(rest[i].path, last.path) {
          assert rest[i] in multiset(rest);
          if rest[i] != e {
            assert rest[i] in multiset(init);
            var k :| 0 <= k < |init| && init[k] == rest[i];
            assert AtMost(entries[k].path, entries[|entries| - 1].path);
          }
        }
      }
    }
  }

  lemma {:induction false} SortedInOrder(entries: seq<Entry>)
    ensures InOrder(Sorted(entries)) && multiset(Sorted(entries)) == multiset(entries)
  {
    if entries != [] {
      var init := entries[..|entries| - 1];
      SortedInOrder(init);
      InsertedInOrder(Sorted(init), entries[|entries| - 1]);
      assert entries == init + [entries[|entries| - 1]];
    }
  }

  ghost predicate DistinctPaths(entries: seq<Entry>) {
    forall i, j :: 0 <= i < |entries| && 0 <= j < |entries| && entries[i].path == entries[j].path ==> i == j
  }

  lemma LastIsGreatest(a: seq<Entry>, e: Entry)
    requires InOrder(a) && a != [] && e in a
    ensures AtMost(e.path, a[|a| - 1].path)
  {
    var i :| 0 <= i < |a| && a[i] == e;
    OrderIsTotal(e.path, e.path);
  }

  lemma SameLast(a: seq<Entry>, b: seq<Entry>)
    requires InOrder(a) && InOrder(b) && multiset(a) == multiset(b) && DistinctPaths(a) && a != [] && b != []
    ensures a[|a| - 1] == b[|b| - 1]
  {
    var last, other := a[|a| - 1], b[|b| - 1];
    assert last in multiset(b) && other in multiset(a);
    LastIsGreatest(b, last);
    LastIsGreatest(a, other);
    OrderIsTotal(last.path, other.path);
  }

  lemma MultisetOfInit(a: seq<Entry>)
    requires a != []
    ensures multiset(a[..|a| - 1]) == multiset(a) - multiset{a[|a| - 1]}
  {
    assert a == a[..|a| - 1] + [a[|a| - 1]];
  }

  lemma {:induction false} OnlyOneOrder(a: seq<Entry>, b: seq<Entry>)
    requires InOrder(a) && InOrder(b) && multiset(a) == multiset(b) && DistinctPaths(a)
    ensures a == b
  {
    assert |multiset(a)| == |a| && |multiset(b)| == |b|;
    if a != [] {
      SameLast(a, b);
      MultisetOfInit(a);
      MultisetOfInit(b);
      OnlyOneOrder(a[..|a| - 1], b[..|b| - 1]);
      assert a == a[..|a| - 1] + [a[|a| - 1]] && b == b[..|b| - 1] + [b[|b| - 1]];
    }
  }

  /** However the inventory is listed, it is digested in one order. */
  lemma OrderDoesNotMatter(a: seq<Entry>, b: seq<Entry>)
    requires multiset(a) == multiset(b) && DistinctPaths(a)
    ensures Sorted(a) == Sorted(b)
  {
    SortedInOrder(a);
    SortedInOrder(b);
    SortedIsDistinct(a);
    OnlyOneOrder(Sorted(a), Sorted(b));
  }

  lemma SortedIsDistinct(a: seq<Entry>)
    requires DistinctPaths(a)
    ensures DistinctPaths(Sorted(a))
  {
    SortedInOrder(a);
    var s := Sorted(a);
    forall i, j | 0 <= i < j < |s| ensures s[i].path != s[j].path {
      if s[i].path == s[j].path {
        assert s[i] in multiset(a) && s[j] in multiset(a);
        var p :| 0 <= p < |a| && a[p] == s[i];
        var q :| 0 <= q < |a| && a[q] == s[j];
        assert p == q;
        TwiceCounts(s, i, j);
        OnceCounts(a, p);
      }
    }
  }

  lemma TwiceCounts(s: seq<Entry>, i: nat, j: nat)
    requires i < j < |s| && s[i] == s[j]
    ensures multiset(s)[s[i]] >= 2
  {
    assert s == s[..i] + [s[i]] + s[i + 1..j] + [s[j]] + s[j + 1..];
  }

  lemma OnceCounts(a: seq<Entry>, p: nat)
    requires p < |a| && DistinctPaths(a)
    ensures multiset(a)[a[p]] == 1
  {
    assert a == a[..p] + [a[p]] + a[p + 1..];
    assert a[p] !in a[..p] && a[p] !in a[p + 1..];
  }

  // ---------------------------------------------------------------------
  // The stream and how it is read back
  // ---------------------------------------------------------------------

  function Digits(n: nat): (r: Bytes)
    ensures forall i :: 0 <= i < |r| ==> r[i] != 0
    ensures |r| == |Decimals.Decimal(n)| && forall i :: 0 <= i < |r| ==> r[i] == Decimals.Decimal(n)[i] as int
  {
    var text := Decimals.Decimal(n);
    seq(|text|, i requires 0 <= i < |text| => text[i] as int)
  }

  lemma DigitsIsInjective(m: nat, n: nat)
    requires Digits(m) == Digits(n)
    ensures m == n
  {
    assert Decimals.Decimal(m) == Decimals.Decimal(n) by {
      forall i | 0 <= i < |Digits(m)| ensures Decimals.Decimal(m)[i] == Decimals.Decimal(n)[i] {
        assert Digits(m)[i] == Digits(n)[i];
      }
    }
    Decimals.DecimalIsInjective(m, n);
  }

  /** What one listed triple contributes. */
  function Encoded(e: Entry): Bytes
    requires e.size >= 0
  {
    e.path + [0] + Digits(e.size) + [0] + e.sha
  }

  predicate Readable(e: Entry) {
    e.size >= 0 && |e.sha| == HASH_LENGTH && 0 !in e.path
  }

  predicate AllReadable(entries: seq<Entry>) {
    forall i :: 0 <= i < |entries| ==> Readable(entries[i]) && entries[i].size >= 0
  }

  function Stream(entries: seq<Entry>): Bytes
    requires forall i :: 0 <= i < |entries| ==> entries[i].size >= 0
  {
    if entries == [] then [] else Encoded(entries[0]) + Stream(entries[1..])
  }

  lemma {:induction false} SplitAtZero(p: Bytes, q: Bytes, x: Bytes, y: Bytes)
    requires 0 !in p && 0 !in q && p + [0] + x == q + [0] + y
    ensures p == q && x == y
  {
    var left, right := p + [0] + x, q + [0] + y;
    assert left[0] == (if p == [] then 0 else p[0]) && right[0] == (if q == [] then 0 else q[0]);
    if p != [] && q != [] {
      assert left[1..] == p[1..] + [0] + x && right[1..] == q[1..] + [0] + y;
      SplitAtZero(p[1..], q[1..], x, y);
      assert p == [p[0]] + p[1..] && q == [q[0]] + q[1..];
    } else {
      assert left[|p| + 1..] == x && right[|q| + 1..] == y;
    }
  }

  /** The first triple can be read off the front of the stream. */
  lemma HeadIsReadable(a: Entry, b: Entry, x: Bytes, y: Bytes)
    requires Readable(a) && Readable(b) && Encoded(a) + x == Encoded(b) + y
    ensures a == b && x == y
  {
    var restA, restB := Digits(a.size) + [0] + (a.sha + x), Digits(b.size) + [0] + (b.sha + y);
    assert Encoded(a) + x == a.path + [0] + restA;
    assert Encoded(b) + y == b.path + [0] + restB;
    SplitAtZero(a.path, b.path, restA, restB);
    SplitAtZero(Digits(a.size), Digits(b.size), a.sha + x, b.sha + y);
    DigitsIsInjective(a.size, b.size);
    assert a.sha == (a.sha + x)[..HASH_LENGTH] && b.sha == (b.sha + y)[..HASH_LENGTH];
    assert x == (a.sha + x)[HASH_LENGTH..] && y == (b.sha + y)[HASH_LENGTH..];
  }

  lemma StreamIsNotEmpty(entries: seq<Entry>)
    requires AllReadable(entries)
    ensures entries != [] ==> Stream(entries) != []
  {
    if entries != [] { assert |Encoded(entries[0])| > 0; }
  }

  /** The encoding is uniquely decodable for NUL-free paths. */
  lemma {:induction false} StreamIsReadable(a: seq<Entry>, b: seq<Entry>)
    requires AllReadable(a) && AllReadable(b) && Stream(a) == Stream(b)
    ensures a == b
  {
    StreamIsNotEmpty(a);
    StreamIsNotEmpty(b);
    if a != [] && b != [] {
      HeadIsReadable(a[0], b[0], Stream(a[1..]), Stream(b[1..]));
      StreamIsReadable(a[1..], b[1..]);
      assert a == [a[0]] + a[1..] && b == [b[0]] + b[1..];
    }
  }

  // ---------------------------------------------------------------------
  // The aggregate of an inventory
  // ---------------------------------------------------------------------

  predicate AllAccepted(entries: seq<Entry>) {
    forall i :: 0 <= i < |entries| ==> Accepted(entries[i])
  }

  function AllListed(entries: seq<Entry>): (r: seq<Entry>)
    requires AllAccepted(entries)
    ensures |r| == |entries| && forall i :: 0 <= i < |r| ==> r[i] == Listed(entries[i])
  {
    seq(|entries|, i requires 0 <= i < |entries| => Listed(entries[i]))
  }

  lemma {:induction false} StreamAppend(a: seq<Entry>, e: Entry)
    requires e.size >= 0 && forall i :: 0 <= i < |a| ==> a[i].size >= 0
    ensures Stream(a + [e]) == Stream(a) + Encoded(e)
  {
    if a == [] {
      assert [e][1..] == [];
      assert a + [e] == [e];
    } else {
      StreamAppend(a[1..], e);
      assert (a + [e])[1..] == a[1..] + [e];
    }
  }

  lemma StreamOfNothing()
    ensures Stream([]) == []
  {
  }

  lemma SameEntries(entries: seq<Entry>)
    ensures forall e :: e in Sorted(entries) <==> e in entries
  {
    SortedInOrder(entries);
    assert forall e :: e in Sorted(entries) <==> e in multiset(Sorted(entries));
  }

  /** Feeds the sorted inventory to the digest; `None` on an invalid entry. */
  method Aggregate(entries: seq<Entry>) returns (r: Option<Bytes>)
    ensures r.Some? <==> AllAccepted(Sorted(entries))
    ensures (r.None? <==>
              exists e :: e in entries && (NORMALIZED(e.path).None? || e.size < 0 || |e.sha| != HASH_LENGTH))
    ensures r.Some? ==> r.value == DOMAIN + Stream(AllListed(Sorted(entries)))
  {
    hide Stream, Sorted, Digits;
    SameEntries(entries);
    var ordered, fed := Sorted(entries), DOMAIN;
    assert Stream([]) == [] by { StreamOfNothing(); }
    for i := 0 to |ordered|
      invariant AllAccepted(ordered[..i]) && fed == DOMAIN + Stream(AllListed(ordered[..i]))
    {
      var e := ordered[i];
      if NORMALIZED(e.path).None? || e.size < 0 || |e.sha| != HASH_LENGTH { return None; }
      StreamAppend(AllListed(ordered[..i]), Listed(e));
      assert AllListed(ordered[..i + 1]) == AllListed(ordered[..i]) + [Listed(e)];
      fed := fed + (NORMALIZED(e.path).value + [0] + Digits(e.size) + [0] + e.sha);
    }
    assert ordered[..|ordered|] == ordered;
    return Some(fed);
  }

  /** What a triple contributes, field by field: the normal form of its path, NUL, its
      size in decimal, NUL, its hash.  How the path is spelled does not show. */
  lemma SpellingDoesNotShow(e: Entry, spelled: Bytes)
    requires Accepted(e) && NORMALIZED(spelled) == NORMALIZED(e.path)
    ensures Stream(AllListed([e])) == NORMALIZED(e.path).value + [0] + Digits(e.size) + [0] + e.sha
    ensures Stream(AllListed([e.(path := spelled)])) == Stream(AllListed([e]))
  {
    var other := e.(path := spelled);
    assert AllListed([e]) == [Listed(e)] && AllListed([other]) == [Listed(e)];
    assert [] + [Listed(e)] == [Listed(e)];
    StreamAppend([], Listed(e));
  }

  /** Equal aggregates list equal triples; equal inventories of distinct
      normalized paths have equal aggregates, in whatever order they come. */
  lemma AggregateIsInventory(a: seq<Entry>, b: seq<Entry>)
    requires forall i :: 0 <= i < |a| ==> Readable(a[i]) && NORMALIZED(a[i].path) == Some(a[i].path)
    requires forall i :: 0 <= i < |b| ==> Readable(b[i]) && NORMALIZED(b[i].path) == Some(b[i].path)
    requires DistinctPaths(a)
    ensures AllAccepted(Sorted(a)) && AllAccepted(Sorted(b))
    ensures DOMAIN + Stream(AllListed(Sorted(a))) == DOMAIN + Stream(AllListed(Sorted(b))) <==>
              multiset(a) == multiset(b)
  {
    SortedListed(a);
    SortedListed(b);
    SortedInOrder(a);
    SortedInOrder(b);
    var x, y := DOMAIN + Stream(Sorted(a)), DOMAIN + Stream(Sorted(b));
    if x == y {
      assert x[|DOMAIN|..] == Stream(Sorted(a)) && y[|DOMAIN|..] == Stream(Sorted(b));
      StreamIsReadable(Sorted(a), Sorted(b));
    }
    if multiset(a) == multiset(b) { OrderDoesNotMatter(a, b); }
  }

  lemma SortedListed(a: seq<Entry>)
    requires forall i :: 0 <= i < |a| ==> Readable(a[i]) && NORMALIZED(a[i].path) == Some(a[i].path)
    ensures AllAccepted(Sorted(a)) && AllListed(Sorted(a)) == Sorted(a)
    ensures AllReadable(Sorted(a))
  {
    SortedInOrder(a);
    forall i | 0 <= i < |Sorted(a)|
      ensures Readable(Sorted(a)[i]) && NORMALIZED(Sorted(a)[i].path) == Some(Sorted(a)[i].path)
    {
      assert Sorted(a)[i] in multiset(a);
    }
  }
}
