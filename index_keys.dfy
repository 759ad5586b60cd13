/**
 * The keys of the quadrature transformer's code maps. A key is a tuple of
 * free-index entries `(count, basis_map, loop_index_range, space_dim)`, one
 * per basis function the entry depends on, and `()` for a scalar entry.
 * `product` makes keys unique by sorting them with Python's tuple order,
 * which this module defines and proves total.
 */
module IndexKeys {

  /** One free-index entry: which basis function, how it maps into the element tensor, its loop range and space dimension. */
  datatype IndexEntry = IndexEntry(count: int, basisMap: string, loopRange: int, spaceDim: int)

  /** A code-map key; the empty key is Python's `()`. */
  type Key = seq<IndexEntry>

  /** Python's `<` on `str`: lexicographic on code points, a proper prefix first. */
  predicate StrLess(a: string, b: string)
    decreases |a|
  {
    if |a| == 0 then |b| > 0
    else if |b| == 0 then false
    else if a[0] != b[0] then a[0] < b[0]
    else StrLess(a[1..], b[1..])
  }

  lemma {:induction false} StrLessIrreflexive(a: string)
    ensures !StrLess(a, a)
    decreases |a|
  {
    if |a| > 0 {
      StrLessIrreflexive(a[1..]);
    }
  }

  lemma {:induction false} StrLessTransitive(a: string, b: string, c: string)
    requires StrLess(a, b) && StrLess(b, c)
    ensures StrLess(a, c)
    decreases |a|
  {
    if |a| > 0 && a[0] == b[0] && b[0] == c[0] {
      StrLessTransitive(a[1..], b[1..], c[1..]);
    }
  }

  /** Two different strings are ordered one way or the other. */
  lemma {:induction false} StrLessTotal(a: string, b: string)
    requires a != b
    ensures StrLess(a, b) || StrLess(b, a)
    decreases |a|
  {
    if |a| > 0 && |b| > 0 && a[0] == b[0] {
      assert a == [a[0]] + a[1..];
      assert b == [b[0]] + b[1..];
      StrLessTotal(a[1..], b[1..]);
    }
  }

  /** Python's `<` on the 4-tuples: by count, then basis map, then loop range, then space dimension. */
  predicate EntryLess(x: IndexEntry, y: IndexEntry) {
    || x.count < y.count
    || (x.count == y.count && StrLess(x.basisMap, y.basisMap))
    || (x.count == y.count && x.basisMap == y.basisMap && x.loopRange < y.loopRange)
    || (x.count == y.count && x.basisMap == y.basisMap && x.loopRange == y.loopRange && x.spaceDim < y.spaceDim)
  }

  /** The tuple order is a strict total order: irreflexive, transitive, and any two different entries are comparable. */
  lemma EntryLessOrder(x: IndexEntry, y: IndexEntry, z: IndexEntry)
    ensures !EntryLess(x, x)
    ensures EntryLess(x, y) && EntryLess(y, z) ==> EntryLess(x, z)
    ensures x != y ==> EntryLess(x, y) || EntryLess(y, x)
    ensures !(EntryLess(x, y) && EntryLess(y, x))
  {
    StrLessIrreflexive(x.basisMap);
    if StrLess(x.basisMap, y.basisMap) && StrLess(y.basisMap, z.basisMap) {
      StrLessTransitive(x.basisMap, y.basisMap, z.basisMap);
    }
    if StrLess(x.basisMap, y.basisMap) && StrLess(y.basisMap, x.basisMap) {
      StrLessTransitive(x.basisMap, y.basisMap, x.basisMap);
    }
    if x.basisMap != y.basisMap {
      StrLessTotal(x.basisMap, y.basisMap);
    }
  }

  /** Ascending order: no entry is greater than one after it. */
  predicate Sorted(s: seq<IndexEntry>) {
    forall i, j :: 0 <= i < j < |s| ==> !EntryLess(s[j], s[i])
  }

  /** An entry no greater than the head of a sorted sequence may go in front of it. */
  lemma SortedFront(x: IndexEntry, s: seq<IndexEntry>)
    requires Sorted(s) && |s| > 0 && !EntryLess(s[0], x)
    ensures Sorted([x] + s)
  {
    forall j | 0 < j < |[x] + s|
      ensures !EntryLess(([x] + s)[j], x)
    {
      EntryLessOrder(s[j - 1], s[0], x);
      EntryLessOrder(s[0], s[j - 1], x);
    }
  }

  /** The head of a sorted sequence may stay in front of its tail with a greater entry inserted. */
  lemma SortedKeepHead(x: IndexEntry, s: seq<IndexEntry>, rest: seq<IndexEntry>)
    requires Sorted(s) && |s| > 0 && EntryLess(s[0], x)
    requires Sorted(rest) && multiset(rest) == multiset(s[1..]) + multiset{x}
    ensures Sorted([s[0]] + rest)
  {
    forall j | 0 <= j < |rest|
      ensures !EntryLess(rest[j], s[0])
    {
      assert rest[j] in multiset(rest);
      if rest[j] == x {
        EntryLessOrder(x, s[0], x);
      } else {
        assert rest[j] in multiset(s[1..]);
        var k :| 0 <= k < |s[1..]| && s[1..][k] == rest[j];
        assert s[k + 1] == rest[j];
      }
    }
  }

  /** Inserts `x` into a sorted key before the first entry that is not smaller. */
  function Insert(x: IndexEntry, s: seq<IndexEntry>): (r: seq<IndexEntry>)
    requires Sorted(s)
    ensures Sorted(r)
    ensures multiset(r) == multiset(s) + multiset{x}
    decreases |s|
  {
    if |s| == 0 then [x]
    else if !EntryLess(s[0], x) then
      SortedFront(x, s);
      [x] + s
    else
      var rest := Insert(x, s[1..]);
      SortedKeepHead(x, s, rest);
      assert s == [s[0]] + s[1..];
      [s[0]] + rest
  }

  /** The tail of a non-empty sequence holds its entries less the head. */
  lemma TailMultiset(a: seq<IndexEntry>)
    requires |a| > 0
    ensures multiset(a[1..]) == multiset(a) - multiset{a[0]}
    ensures a == [a[0]] + a[1..]
  {
    assert a == [a[0]] + a[1..];
  }

  /** `l = list(key); l.sort(); tuple(l)`: the entries of `key` in ascending order. */
  function SortKey(key: Key): Key
    decreases |key|
  {
    if |key| == 0 then [] else Insert(key[0], SortKey(key[1..]))
  }

  /** The sorted form of a key is in ascending order and holds the same entries. */
  lemma {:induction false} SortKeyMeaning(key: Key)
    ensures Sorted(SortKey(key))
    ensures multiset(SortKey(key)) == multiset(key)
    decreases |key|
  {
    if |key| > 0 {
      SortKeyMeaning(key[1..]);
      TailMultiset(key);
    }
  }

  /** The first entry of a non-empty sorted sequence is no greater than any of its entries. */
  lemma SortedHeadLeast(a: seq<IndexEntry>, i: int)
    requires Sorted(a) && 0 <= i < |a|
    ensures !EntryLess(a[i], a[0])
  {
    if i == 0 {
      EntryLessOrder(a[0], a[0], a[0]);
    }
  }

  /** Two sorted sequences with the same entries start with the same entry. */
  lemma SortedSameHead(a: seq<IndexEntry>, b: seq<IndexEntry>)
    requires Sorted(a) && Sorted(b) && |a| > 0
    requires multiset(a) == multiset(b)
    ensures |b| > 0 && a[0] == b[0]
  {
    assert a[0] in multiset(b);
    var j :| 0 <= j < |b| && b[j] == a[0];
    assert b[0] in multiset(a);
    var i :| 0 <= i < |a| && a[i] == b[0];
    SortedHeadLeast(a, i);
    SortedHeadLeast(b, j);
    EntryLessOrder(a[0], b[0], a[0]);
  }

  /** A sorted sequence is determined by its multiset of entries. */
  lemma {:induction false} SortedUnique(a: seq<IndexEntry>, b: seq<IndexEntry>)
    requires Sorted(a) && Sorted(b)
    requires multiset(a) == multiset(b)
    ensures a == b
    decreases |a|
  {
    if |a| == 0 {
      assert |multiset(b)| == 0;
    } else {
      SortedSameHead(a, b);
      TailMultiset(a);
      TailMultiset(b);
      assert Sorted(a[1..]) && Sorted(b[1..]);
      SortedUnique(a[1..], b[1..]);
    }
  }

  /** Two keys sort to the same tuple exactly when one is a rearrangement of the other. */
  lemma SortKeySame(a: Key, b: Key)
    ensures SortKey(a) == SortKey(b) <==> multiset(a) == multiset(b)
  {
    SortKeyMeaning(a);
    SortKeyMeaning(b);
    if multiset(a) == multiset(b) {
      SortedUnique(SortKey(a), SortKey(b));
    }
  }

  /** Sorting is idempotent: a sorted key is its own sorted form. */
  lemma SortKeyIdempotent(key: Key)
    ensures SortKey(SortKey(key)) == SortKey(key)
  {
    SortKeyMeaning(key);
    SortKeyMeaning(SortKey(key));
    SortedUnique(SortKey(SortKey(key)), SortKey(key));
  }
}
