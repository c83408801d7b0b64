/**
 * Sequence helpers (map, concatenation) and orderings, with the two sorts the pipeline relies on: Python's `sorted` over a
 * list (the result writer sorts its buffered results) and `sorted(set(...))`
 * (the sweep normalises its dataset names). Python's `sorted` is stable, and
 * for a total order every stable sort returns the same list, so one insertion
 * sort models it.
 */
module Seqs {

  /** `le` is a total order: antisymmetric, transitive and total (hence reflexive). */
  ghost predicate TotalOrder<T(!new)>(le: (T, T) -> bool) {
    && (forall x, y :: le(x, y) && le(y, x) ==> x == y)
    && (forall x, y, z :: le(x, y) && le(y, z) ==> le(x, z))
    && (forall x, y :: le(x, y) || le(y, x))
  }

  predicate SortedBy<T>(le: (T, T) -> bool, s: seq<T>) {
    forall i, j :: 0 <= i < j < |s| ==> le(s[i], s[j])
  }

  /** Sorted and free of duplicates: what `sorted(set(xs))` returns. */
  predicate StrictlySortedBy<T(==)>(le: (T, T) -> bool, s: seq<T>) {
    forall i, j :: 0 <= i < j < |s| ==> le(s[i], s[j]) && s[i] != s[j]
  }

  /** The set of elements of a sequence, as Python's `set(xs)`. */
  ghost function Elems<T>(s: seq<T>): set<T> {
    set x | x in s
  }

  function Insert<T(==)>(le: (T, T) -> bool, x: T, s: seq<T>): (r: seq<T>)
    ensures multiset(r) == multiset(s) + multiset{x}
  {
    if s == [] then [x]
    else if le(x, s[0]) then [x] + s
    else
      assert s == [s[0]] + s[1..];
      [s[0]] + Insert(le, x, s[1..])
  }

  /** Python's `sorted(s)` under the order `le`. */
  function Sort<T(==)>(le: (T, T) -> bool, s: seq<T>): (r: seq<T>)
    ensures multiset(r) == multiset(s)
    ensures |r| == |s|
  {
    if s == [] then []
    else
      assert s == [s[0]] + s[1..];
      Insert(le, s[0], Sort(le, s[1..]))
  }

  lemma {:induction false} InsertSorted<T(!new)>(le: (T, T) -> bool, x: T, s: seq<T>)
    requires TotalOrder(le)
    requires SortedBy(le, s)
    ensures SortedBy(le, Insert(le, x, s))
  {
    if s != [] && !le(x, s[0]) {
      InsertSorted(le, x, s[1..]);
      var t := Insert(le, x, s[1..]);
      assert multiset(t) == multiset(s[1..]) + multiset{x};
      forall j | 0 <= j < |t| ensures le(s[0], t[j]) {
        assert t[j] in multiset(t);
        if t[j] == x {
        } else {
          assert t[j] in multiset(s[1..]);
          var k :| 0 <= k < |s[1..]| && s[1..][k] == t[j];
          assert s[k + 1] == t[j];
        }
      }
    }
  }

  /** The result of `Sort` is sorted. */
  lemma {:induction false} SortSorted<T(!new)>(le: (T, T) -> bool, s: seq<T>)
    requires TotalOrder(le)
    ensures SortedBy(le, Sort(le, s))
  {
    if s != [] {
      SortSorted(le, s[1..]);
      InsertSorted(le, s[0], Sort(le, s[1..]));
    }
  }

  lemma FirstIsLeast<T(!new)>(le: (T, T) -> bool, s: seq<T>, x: T)
    requires TotalOrder(le)
    requires SortedBy(le, s)
    requires x in multiset(s)
    ensures le(s[0], x)
  {
    var k :| 0 <= k < |s| && s[k] == x;
  }

  lemma MultisetTail<T>(s: seq<T>)
    requires s != []
    ensures multiset(s[1..]) == multiset(s) - multiset{s[0]}
  {
    assert s == [s[0]] + s[1..];
    assert multiset(s) == multiset{s[0]} + multiset(s[1..]);
  }

  /**
   * Two sorted sequences holding the same multiset of elements are equal:
   * under a total order, the sorted arrangement is unique.
   */
  lemma {:induction false} SortedUnique<T(!new)>(le: (T, T) -> bool, a: seq<T>, b: seq<T>)
    requires TotalOrder(le)
    requires SortedBy(le, a) && SortedBy(le, b)
    requires multiset(a) == multiset(b)
    ensures a == b
  {
    if a == [] {
      assert |b| == |multiset(b)| == 0;
    } else {
      assert |b| == |multiset(b)| == |a|;
      assert a[0] == b[0] by {
        assert a[0] in multiset(a) && b[0] in multiset(b);
        FirstIsLeast(le, b, a[0]);
        FirstIsLeast(le, a, b[0]);
      }
      assert multiset(a[1..]) == multiset(b[1..]) by {
        MultisetTail(a);
        MultisetTail(b);
      }
      assert SortedBy(le, a[1..]) && SortedBy(le, b[1..]);
      SortedUnique(le, a[1..], b[1..]);
      assert a == [a[0]] + a[1..] && b == [b[0]] + b[1..];
    }
  }

  /** Sorting forgets the order of its input: permutations sort alike. */
  lemma SortPermutationInvariant<T(!new)>(le: (T, T) -> bool, a: seq<T>, b: seq<T>)
    requires TotalOrder(le)
    requires multiset(a) == multiset(b)
    ensures Sort(le, a) == Sort(le, b)
  {
    SortSorted(le, a);
    SortSorted(le, b);
    SortedUnique(le, Sort(le, a), Sort(le, b));
  }

  /** Drops adjacent repeats; on a sorted sequence this drops every duplicate. */
  function DedupAdjacent<T(==)>(s: seq<T>): (r: seq<T>)
    ensures Elems(r) == Elems(s)
    ensures |r| <= |s|
    ensures s != [] ==> r != [] && r[0] == s[0]
  {
    if |s| <= 1 then s
    else
      assert s == [s[0]] + s[1..];
      assert Elems(s) == {s[0]} + Elems(s[1..]);
      if s[0] == s[1] then DedupAdjacent(s[1..])
      else
        var t := DedupAdjacent(s[1..]);
        assert Elems([s[0]] + t) == {s[0]} + Elems(t);
        [s[0]] + t
  }

  lemma EmptyElems<T>(s: seq<T>)
    ensures Elems(s) == {} <==> s == []
  {
    if s != [] { assert s[0] in Elems(s); }
  }

  lemma {:induction false} DedupAdjacentStrict<T(!new)>(le: (T, T) -> bool, s: seq<T>)
    requires TotalOrder(le)
    requires SortedBy(le, s)
    ensures StrictlySortedBy(le, DedupAdjacent(s))
  {
    if |s| > 1 {
      DedupAdjacentStrict(le, s[1..]);
      var t := DedupAdjacent(s[1..]);
      if s[0] != s[1] {
        forall j | 0 <= j < |t| ensures le(s[0], t[j]) && s[0] != t[j] {
          assert t[j] in Elems(t);
          var k :| 0 <= k < |s[1..]| && s[1..][k] == t[j];
          assert le(s[0], s[1]) && le(s[1], s[k + 1]);
        }
      }
    }
  }

  /** Python's `sorted(set(s))` under the order `le`. */
  function SortedSet<T(==)>(le: (T, T) -> bool, s: seq<T>): (r: seq<T>)
    ensures Elems(r) == Elems(s)
  {
    SameMultisetSameElems(Sort(le, s), s);
    DedupAdjacent(Sort(le, s))
  }

  lemma SameMultisetSameElems<T>(a: seq<T>, b: seq<T>)
    requires multiset(a) == multiset(b)
    ensures Elems(a) == Elems(b)
  {
    forall x ensures x in a <==> x in b {
      assert x in a <==> x in multiset(a);
      assert x in b <==> x in multiset(b);
    }
  }

  lemma SortedSetStrict<T(!new)>(le: (T, T) -> bool, s: seq<T>)
    requires TotalOrder(le)
    ensures StrictlySortedBy(le, SortedSet(le, s))
  {
    SortSorted(le, s);
    DedupAdjacentStrict(le, Sort(le, s));
  }

  /** Two strictly sorted sequences with the same elements are equal. */
  lemma {:induction false} StrictlySortedUnique<T(!new)>(le: (T, T) -> bool, a: seq<T>, b: seq<T>)
    requires TotalOrder(le)
    requires StrictlySortedBy(le, a) && StrictlySortedBy(le, b)
    requires Elems(a) == Elems(b)
    ensures a == b
  {
    if a == [] {
      EmptyElems(a);
      EmptyElems(b);
    } else {
      assert b != [] by { assert a[0] in Elems(a); }
      assert a[0] in Elems(b) && b[0] in Elems(a);
      var i :| 0 <= i < |b| && b[i] == a[0];
      var j :| 0 <= j < |a| && a[j] == b[0];
      assert le(b[0], a[0]) && le(a[0], b[0]);
      assert Elems(a[1..]) == Elems(b[1..]) by {
        forall x ensures x in Elems(a[1..]) <==> x in Elems(b[1..]) {
          if x in Elems(a[1..]) {
            var k :| 0 <= k < |a[1..]| && a[1..][k] == x;
            assert x in Elems(b) && x != a[0];
            var m :| 0 <= m < |b| && b[m] == x;
            assert m != 0;
            assert b[1..][m - 1] == x;
          }
          if x in Elems(b[1..]) {
            var k :| 0 <= k < |b[1..]| && b[1..][k] == x;
            assert x in Elems(a) && x != b[0];
            var m :| 0 <= m < |a| && a[m] == x;
            assert m != 0;
            assert a[1..][m - 1] == x;
          }
        }
      }
      StrictlySortedUnique(le, a[1..], b[1..]);
      assert a == [a[0]] + a[1..] && b == [b[0]] + b[1..];
    }
  }

  /** `sorted(set(s))` depends only on the set of elements of `s`. */
  lemma SortedSetDependsOnElems<T(!new)>(le: (T, T) -> bool, a: seq<T>, b: seq<T>)
    requires TotalOrder(le)
    requires Elems(a) == Elems(b)
    ensures SortedSet(le, a) == SortedSet(le, b)
  {
    SortedSetStrict(le, a);
    SortedSetStrict(le, b);
    StrictlySortedUnique(le, SortedSet(le, a), SortedSet(le, b));
  }

  /** `list(map(f, s))`. */
  function Map<A, B>(f: A -> B, s: seq<A>): (r: seq<B>)
    ensures |r| == |s|
    ensures forall i :: 0 <= i < |s| ==> r[i] == f(s[i])
  {
    seq(|s|, i requires 0 <= i < |s| => f(s[i]))
  }

  lemma MapAppend<A, B>(f: A -> B, x: seq<A>, y: seq<A>)
    ensures Map(f, x + y) == Map(f, x) + Map(f, y)
  {
  }

  lemma PermutationSplit<A>(a: seq<A>, b: seq<A>) returns (left: seq<A>, right: seq<A>)
    requires a != [] && multiset(a) == multiset(b)
    ensures b == left + [a[0]] + right
    ensures multiset(left + right) == multiset(a[1..])
  {
    var x := a[0];
    assert x in multiset(a);
    var k :| 0 <= k < |b| && b[k] == x;
    left, right := b[..k], b[k + 1..];
    assert b == left + [x] + right;
    assert a == [x] + a[1..];
    assert multiset(b) == multiset(left) + multiset{x} + multiset(right);
    assert multiset(left + right) == multiset(left) + multiset(right);
    assert multiset(a[1..]) == multiset(a) - multiset{x};
  }

  /** Taking one element out of a list takes its image out of the mapped list's multiset. */
  lemma MapSplitMultiset<A, B>(f: A -> B, left: seq<A>, x: A, right: seq<A>)
    ensures multiset(Map(f, left + [x] + right)) == multiset(Map(f, left + right)) + multiset{f(x)}
  {
    MapAppend(f, left + [x], right);
    MapAppend(f, left, [x]);
    MapAppend(f, left, right);
  }

  /** Mapping a function over two permutations of one list gives two permutations. */
  lemma {:induction false} MapPermutation<A, B>(f: A -> B, a: seq<A>, b: seq<A>)
    requires multiset(a) == multiset(b)
    ensures multiset(Map(f, a)) == multiset(Map(f, b))
  {
    if a == [] {
      assert |b| == |multiset(b)| == 0;
    } else {
      var left, right := PermutationSplit(a, b);
      MapPermutation(f, a[1..], left + right);
      MapSplitMultiset(f, left, a[0], right);
      MapSplitMultiset(f, [], a[0], a[1..]);
      assert [] + [a[0]] + a[1..] == a;
      assert [] + a[1..] == a[1..];
    }
  }

  /** The concatenation of a list of blocks, as the nested loops of the source append them. */
  function Concat<T>(blocks: seq<seq<T>>): seq<T> {
    if blocks == [] then [] else Concat(blocks[..|blocks| - 1]) + blocks[|blocks| - 1]
  }

  lemma ConcatSnoc<T>(blocks: seq<seq<T>>, b: seq<T>)
    ensures Concat(blocks + [b]) == Concat(blocks) + b
  {
    assert (blocks + [b])[..|blocks|] == blocks;
  }

  lemma {:induction false} ConcatUniformLength<T>(blocks: seq<seq<T>>, k: nat)
    requires forall i :: 0 <= i < |blocks| ==> |blocks[i]| == k
    ensures |Concat(blocks)| == |blocks| * k
  {
    if blocks != [] {
      ConcatUniformLength(blocks[..|blocks| - 1], k);
      assert |blocks| * k == (|blocks| - 1) * k + k;
    }
  }

  lemma IndexBound(i: nat, j: nat, k: nat, n: nat)
    requires i < n && j < k
    ensures i * k + j < n * k
  {
    assert (i + 1) * k <= n * k;
  }

  /**
   * Blocks of one common size `k` concatenate to `|blocks| * k` elements, the
   * `j`th element of block `i` landing at index `i * k + j`.
   */
  lemma {:induction false} ConcatUniformAt<T>(blocks: seq<seq<T>>, k: nat, i: nat, j: nat)
    requires forall b :: 0 <= b < |blocks| ==> |blocks[b]| == k
    requires i < |blocks| && j < k
    ensures |Concat(blocks)| == |blocks| * k
    ensures i * k + j < |Concat(blocks)|
    ensures Concat(blocks)[i * k + j] == blocks[i][j]
  {
    ConcatUniformLength(blocks, k);
    IndexBound(i, j, k, |blocks|);
    var n := |blocks| - 1;
    var init := blocks[..n];
    ConcatUniformLength(init, k);
    assert Concat(blocks) == Concat(init) + blocks[n];
    if i < n {
      IndexBound(i, j, k, n);
      ConcatUniformAt(init, k, i, j);
    } else {
      assert i * k + j == n * k + j;
    }
  }

  /** Every element of a concatenation comes from one of the blocks. */
  lemma {:induction false} ConcatMember<T>(blocks: seq<seq<T>>, x: T)
    requires x in Concat(blocks)
    ensures exists i :: 0 <= i < |blocks| && x in blocks[i]
  {
    var n := |blocks| - 1;
    if x in Concat(blocks[..n]) {
      ConcatMember(blocks[..n], x);
      var i :| 0 <= i < n && x in blocks[..n][i];
      assert x in blocks[i];
    } else {
      assert x in blocks[n];
    }
  }

  lemma {:induction false} ConcatAppend<T>(a: seq<seq<T>>, b: seq<seq<T>>)
    ensures Concat(a + b) == Concat(a) + Concat(b)
  {
    if b != [] {
      var n := |b| - 1;
      ConcatAppend(a, b[..n]);
      assert a + b == (a + b[..n]) + [b[n]];
      ConcatSnoc(a + b[..n], b[n]);
      assert b == b[..n] + [b[n]];
      ConcatSnoc(b[..n], b[n]);
    } else {
      assert a + b == a;
    }
  }

  /**
   * Block `s` occupies the indices that start after the blocks before it:
   * element `r` of block `s` is at `|Concat(blocks[..s])| + r`.
   */
  lemma ConcatPrefixAt<T>(blocks: seq<seq<T>>, s: nat, r: nat)
    requires s < |blocks| && r < |blocks[s]|
    ensures |Concat(blocks[..s])| + r < |Concat(blocks)|
    ensures Concat(blocks)[|Concat(blocks[..s])| + r] == blocks[s][r]
  {
    assert blocks == (blocks[..s] + [blocks[s]]) + blocks[s + 1..];
    ConcatAppend(blocks[..s] + [blocks[s]], blocks[s + 1..]);
    ConcatSnoc(blocks[..s], blocks[s]);
  }

  /** Entry `j` of row `i` in a row-major layout whose rows hold `width` entries. */
  function RowMajor(i: nat, j: nat, width: nat): nat {
    i * width + j
  }

  /** Index `(i * s + j) * m + t` of a three-level nesting with `n`, `s` and `m` entries per level. */
  lemma NestedIndex(i: nat, j: nat, t: nat, n: nat, s: nat, m: nat)
    requires i < n && j < s && t < m
    ensures j * m + t < s * m
    ensures i * (s * m) + (j * m + t) == (i * s + j) * m + t
    ensures (i * s + j) * m + t < n * (s * m)
  {
    IndexBound(j, t, m, s);
    IndexBound(i, j * m + t, s * m, n);
  }

  /** Every element of every block is in the concatenation. */
  lemma ConcatHas<T>(blocks: seq<seq<T>>, i: nat, x: T)
    requires i < |blocks| && x in blocks[i]
    ensures x in Concat(blocks)
  {
    var r :| 0 <= r < |blocks[i]| && blocks[i][r] == x;
    ConcatPrefixAt(blocks, i, r);
  }
}
