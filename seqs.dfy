/**
 * Generic sequence operations shared by the screens: an order-preserving
 * filter (JavaScript's `Array.prototype.filter`), the subsequence relation it
 * produces, and first-occurrence de-duplication (insertion into a JavaScript
 * `Set` followed by `Array.from`).
 */
module Seqs {

  /** `sub` is obtained from `s` by deleting elements, keeping the order of the rest. */
  predicate IsSubseq<T(==)>(sub: seq<T>, s: seq<T>)
    decreases |s|
  {
    if sub == [] then true
    else if s == [] then false
    else (sub[0] == s[0] && IsSubseq(sub[1..], s[1..])) || IsSubseq(sub, s[1..])
  }

  /** The elements of `s` that satisfy `keep`, in their original order. */
  function Filter<T>(keep: T -> bool, s: seq<T>): seq<T>
  {
    if s == [] then []
    else (if keep(s[0]) then [s[0]] else []) + Filter(keep, s[1..])
  }

  /** Applies `f` to every element of `s`. */
  function Map<T, U>(f: T -> U, s: seq<T>): (r: seq<U>)
    ensures |r| == |s|
    ensures forall i :: 0 <= i < |s| ==> r[i] == f(s[i])
  {
    seq(|s|, i requires 0 <= i < |s| => f(s[i]))
  }

  lemma MapSnoc<T, U>(f: T -> U, s: seq<T>, x: T)
    ensures Map(f, s + [x]) == Map(f, s) + [f(x)]
  {
    assert forall i :: 0 <= i < |s| ==> (s + [x])[i] == s[i];
  }

  lemma {:induction false} FilterMembers<T>(keep: T -> bool, s: seq<T>)
    ensures forall x :: x in Filter(keep, s) <==> x in s && keep(x)
  {
    if s != [] {
      FilterMembers(keep, s[1..]);
      assert s == [s[0]] + s[1..];
    }
  }

  lemma {:induction false} FilterIsSubseq<T>(keep: T -> bool, s: seq<T>)
    ensures IsSubseq(Filter(keep, s), s)
    ensures |Filter(keep, s)| <= |s|
  {
    if s != [] {
      FilterIsSubseq(keep, s[1..]);
      var r := Filter(keep, s);
      if keep(s[0]) {
        assert r[0] == s[0] && r[1..] == Filter(keep, s[1..]);
      } else {
        assert r == Filter(keep, s[1..]);
      }
    }
  }

  /** Filtering a list extended by one element extends the filtered list by that element when it passes. */
  lemma FilterSnoc<T>(keep: T -> bool, s: seq<T>, x: T)
    ensures Filter(keep, s + [x]) == Filter(keep, s) + if keep(x) then [x] else []
  {
    FilterAppend(keep, s, [x]);
    assert [x][1..] == [];
  }

  lemma {:induction false} FilterAppend<T>(keep: T -> bool, a: seq<T>, b: seq<T>)
    ensures Filter(keep, a + b) == Filter(keep, a) + Filter(keep, b)
  {
    if a != [] {
      FilterAppend(keep, a[1..], b);
      assert (a + b)[1..] == a[1..] + b;
    } else {
      assert a + b == b;
    }
  }

  /** The number of elements of `s` that satisfy `p`. */
  function Count<T>(p: T -> bool, s: seq<T>): nat
  {
    if s == [] then 0 else Count(p, s[..|s| - 1]) + if p(s[|s| - 1]) then 1 else 0
  }

  lemma {:induction false} CountCons<T>(p: T -> bool, x: T, s: seq<T>)
    ensures Count(p, [x] + s) == (if p(x) then 1 else 0) + Count(p, s)
  {
    if s != [] {
      CountCons(p, x, s[..|s| - 1]);
      assert ([x] + s)[..|s|] == [x] + s[..|s| - 1];
    }
  }

  /** The filter keeps one element per position that satisfies `keep`. */
  lemma {:induction false} FilterCount<T>(keep: T -> bool, s: seq<T>)
    ensures |Filter(keep, s)| == Count(keep, s)
  {
    if s != [] {
      FilterCount(keep, s[1..]);
      CountCons(keep, s[0], s[1..]);
      assert s == [s[0]] + s[1..];
    }
  }

  /** A subsequence made of elements satisfying `keep` has at most as many elements as `s` has such positions. */
  lemma {:induction false} SubseqCountBound<T>(keep: T -> bool, sub: seq<T>, s: seq<T>)
    requires IsSubseq(sub, s)
    requires forall i :: 0 <= i < |sub| ==> keep(sub[i])
    ensures |sub| <= Count(keep, s)
    decreases |s|
  {
    if sub != [] && s != [] {
      CountCons(keep, s[0], s[1..]);
      assert s == [s[0]] + s[1..];
      if sub[0] == s[0] && IsSubseq(sub[1..], s[1..]) {
        SubseqCountBound(keep, sub[1..], s[1..]);
      } else {
        SubseqCountBound(keep, sub, s[1..]);
      }
    }
  }

  /**
   * Being an in-order subsequence of elements satisfying `keep`, with one element
   * per position of `s` that satisfies `keep`, determines the filter: nothing
   * else meets that description, duplicates included.
   */
  lemma {:induction false} FilterUnique<T>(keep: T -> bool, r: seq<T>, s: seq<T>)
    requires IsSubseq(r, s)
    requires forall i :: 0 <= i < |r| ==> keep(r[i])
    requires |r| == Count(keep, s)
    ensures r == Filter(keep, s)
    decreases |s|
  {
    if s != [] {
      CountCons(keep, s[0], s[1..]);
      assert s == [s[0]] + s[1..];
      if r == [] {
        FilterCount(keep, s);
        assert |Filter(keep, s)| == 0;
      } else if r[0] == s[0] && IsSubseq(r[1..], s[1..]) {
        FilterUnique(keep, r[1..], s[1..]);
        assert r == [r[0]] + r[1..];
      } else {
        SubseqCountBound(keep, r, s[1..]);
        assert !keep(s[0]);
        FilterUnique(keep, r, s[1..]);
      }
    }
  }

  /** No value occurs twice. */
  predicate NoDuplicates<T(==)>(s: seq<T>)
  {
    forall i, j :: 0 <= i < j < |s| ==> s[i] != s[j]
  }
  /** The indices at which `x` sits in `s`. */
  function IndicesOf<T(==)>(s: seq<T>, x: T): set<nat>
  {
    set i: nat | i < |s| && s[i] == x
  }

  /** In a list without duplicates, a member sits at exactly one index. */
  lemma SingleIndex<T>(s: seq<T>, x: T)
    requires NoDuplicates(s) && x in s
    ensures |IndicesOf(s, x)| == 1
  {
    var k :| 0 <= k < |s| && s[k] == x;
    assert IndicesOf(s, x) == {k};
  }


  /** Index of the first occurrence of `x` in `s`. */
  function FirstIndex<T(==)>(s: seq<T>, x: T): (k: nat)
    requires x in s
    ensures k < |s| && s[k] == x
    ensures forall i :: 0 <= i < k ==> s[i] != x
  {
    if s[0] == x then 0 else 1 + FirstIndex(s[1..], x)
  }

  /**
   * The distinct values of `s`, each at the position of its first occurrence:
   * the iteration order of a JavaScript `Set` that `s` was added to in order.
   */
  function Dedup<T(==)>(s: seq<T>): seq<T>
  {
    if s == [] then []
    else
      var r := Dedup(s[..|s| - 1]);
      if s[|s| - 1] in r then r else r + [s[|s| - 1]]
  }

  lemma DedupSnoc<T>(s: seq<T>, x: T)
    ensures Dedup(s + [x]) == if x in Dedup(s) then Dedup(s) else Dedup(s) + [x]
  {
    assert (s + [x])[..|s|] == s;
  }

  lemma {:induction false} DedupMembers<T>(s: seq<T>)
    ensures forall x :: x in Dedup(s) <==> x in s
  {
    if s != [] {
      var p := s[..|s| - 1];
      DedupMembers(p);
      assert s == p + [s[|s| - 1]];
    }
  }

  lemma {:induction false} DedupNoDuplicates<T>(s: seq<T>)
    ensures NoDuplicates(Dedup(s))
  {
    if s != [] {
      DedupNoDuplicates(s[..|s| - 1]);
    }
  }

  lemma {:induction false} FirstIndexSnoc<T>(s: seq<T>, x: T, y: T)
    requires y in s
    ensures FirstIndex(s + [x], y) == FirstIndex(s, y)
  {
    if s[0] != y {
      assert (s + [x])[1..] == s[1..] + [x];
      FirstIndexSnoc(s[1..], x, y);
    }
  }

  /** The values of `Dedup(s)` are listed in the order in which they first occur in `s`. */
  lemma {:induction false} DedupFirstOccurrenceOrder<T>(s: seq<T>)
    ensures forall x :: x in Dedup(s) ==> x in s
    ensures forall i, j :: 0 <= i < j < |Dedup(s)| ==>
              FirstIndex(s, Dedup(s)[i]) < FirstIndex(s, Dedup(s)[j])
  {
    DedupMembers(s);
    if s != [] {
      var p, x := s[..|s| - 1], s[|s| - 1];
      assert s == p + [x];
      var r := Dedup(p);
      DedupFirstOccurrenceOrder(p);
      DedupMembers(p);
      forall i, j | 0 <= i < j < |Dedup(s)|
        ensures FirstIndex(s, Dedup(s)[i]) < FirstIndex(s, Dedup(s)[j])
      {
        FirstIndexSnoc(p, x, r[i]);
        if j < |r| {
          FirstIndexSnoc(p, x, r[j]);
        } else {
          assert x !in p && Dedup(s)[j] == x;
          assert FirstIndex(s, x) == |p|;
        }
      }
    }
  }
}
