/**
 * The list operations the pages use (Array.prototype.filter, find, reduce,
 * slice and a stable sort with a descending numeric comparator), with the
 * properties the views rely on.
 */
module Seqs {

  import opened Common

  /** `r` is `s` with some elements dropped and the rest in their original order. */
  predicate SubseqOf<T(==)>(r: seq<T>, s: seq<T>)
    decreases |s|
  {
    if r == [] then true
    else if s == [] then false
    else if r[0] == s[0] then SubseqOf(r[1..], s[1..])
    else SubseqOf(r, s[1..])
  }

  lemma {:induction false} SubseqOfSelf<T>(s: seq<T>)
    ensures SubseqOf(s, s)
  {
    if s != [] {
      SubseqOfSelf(s[1..]);
    }
  }

  /** `s.filter(p)`. */
  function Filter<T(==, !new)>(s: seq<T>, p: T -> bool): (r: seq<T>)
    ensures |r| <= |s|
    ensures forall x :: x in r ==> x in s && p(x)
    ensures forall x :: x in s && p(x) ==> x in r
    ensures forall x :: multiset(r)[x] == if p(x) then multiset(s)[x] else 0
    ensures SubseqOf(r, s)
  {
    if s == [] then []
    else
      var rest := Filter(s[1..], p);
      assert s == [s[0]] + s[1..];
      if p(s[0]) then [s[0]] + rest else
        SubseqDropHead(rest, s);
        rest
  }

  lemma {:induction false} SubseqDropHead<T>(r: seq<T>, s: seq<T>)
    requires s != [] && SubseqOf(r, s[1..])
    ensures SubseqOf(r, s)
    decreases |s|, |r|
  {
    if r != [] && r[0] == s[0] {
      SubseqTail(r, s[1..]);
    }
  }

  lemma {:induction false} SubseqTail<T>(r: seq<T>, s: seq<T>)
    requires r != [] && SubseqOf(r, s)
    ensures SubseqOf(r[1..], s)
    decreases |s|, |r|
  {
    if r[0] == s[0] {
      if r[1..] != [] {
        SubseqDropHead(r[1..], s);
      }
    } else {
      SubseqTail(r, s[1..]);
      if r[1..] != [] {
        SubseqDropHead(r[1..], s);
      }
    }
  }

  /** A filter that every element passes changes nothing. */
  lemma {:induction false} FilterKeepsAll<T(!new)>(s: seq<T>, p: T -> bool)
    requires forall x :: x in s ==> p(x)
    ensures Filter(s, p) == s
  {
    if s != [] {
      FilterKeepsAll(s[1..], p);
      assert s == [s[0]] + s[1..];
    }
  }

  lemma {:induction false} FilterAppend<T(!new)>(a: seq<T>, b: seq<T>, p: T -> bool)
    ensures Filter(a + b, p) == Filter(a, p) + Filter(b, p)
  {
    if a == [] {
      assert a + b == b;
    } else {
      assert (a + b)[0] == a[0];
      assert (a + b)[1..] == a[1..] + b;
      FilterAppend(a[1..], b, p);
    }
  }

  /** `s.find(p)`: the first element that passes `p`, if any. */
  function FindFirst<T(==)>(s: seq<T>, p: T -> bool): (r: Option<T>)
    ensures r.None? <==> forall x :: x in s ==> !p(x)
    ensures r.Some? ==> exists i :: 0 <= i < |s| && s[i] == r.value && p(s[i])
                                     && forall j :: 0 <= j < i ==> !p(s[j])
  {
    if s == [] then None
    else if p(s[0]) then Some(s[0])
    else
      var r := FindFirst(s[1..], p);
      assert forall x :: x in s ==> x == s[0] || x in s[1..];
      if r.Some? then
        var i :| 0 < i + 1 <= |s[1..]| && s[1..][i] == r.value && p(s[1..][i])
                  && forall j :: 0 <= j < i ==> !p(s[1..][j]);
        assert s[i + 1] == r.value;
        assert forall j :: 0 <= j < i + 1 ==> !p(s[j]) by {
          forall j | 0 <= j < i + 1 ensures !p(s[j]) {
            if j > 0 { assert s[j] == s[1..][j - 1]; }
          }
        }
        r
      else r
  }

  /** `s.reduce((sum, x) => sum + f(x), 0)`. */
  function Sum<T>(s: seq<T>, f: T -> int): int {
    if s == [] then 0 else f(s[0]) + Sum(s[1..], f)
  }

  lemma {:induction false} SumAppend<T>(a: seq<T>, b: seq<T>, f: T -> int)
    ensures Sum(a + b, f) == Sum(a, f) + Sum(b, f)
  {
    if a == [] {
      assert a + b == b;
    } else {
      assert (a + b)[1..] == a[1..] + b;
      SumAppend(a[1..], b, f);
    }
  }

  lemma {:induction false} SumRemoveAt<T>(t: seq<T>, j: int, f: T -> int)
    requires 0 <= j < |t|
    ensures Sum(t, f) == f(t[j]) + Sum(t[..j] + t[j + 1..], f)
  {
    var pre, mid, post := t[..j], [t[j]] + t[j + 1..], t[j + 1..];
    assert t == pre + mid;
    SumAppend(pre, mid, f);
    assert mid[1..] == post;
    assert Sum(mid, f) == f(t[j]) + Sum(post, f);
    SumAppend(pre, post, f);
  }

  lemma MultisetRemoveAt<T>(t: seq<T>, j: int)
    requires 0 <= j < |t|
    ensures multiset(t[..j] + t[j + 1..]) == multiset(t) - multiset{t[j]}
  {
    assert t == t[..j] + [t[j]] + t[j + 1..];
  }

  /** Reordering a list does not change its sum. */
  lemma {:induction false} SumOfPermutation<T>(s: seq<T>, t: seq<T>, f: T -> int)
    requires multiset(s) == multiset(t)
    ensures Sum(s, f) == Sum(t, f)
    decreases |s|
  {
    if s != [] {
      assert s[0] in multiset(t);
      var j :| 0 <= j < |t| && t[j] == s[0];
      var rest := t[..j] + t[j + 1..];
      MultisetRemoveAt(t, j);
      assert s == [s[0]] + s[1..];
      assert multiset(s[1..]) == multiset(s) - multiset{s[0]};
      SumOfPermutation(s[1..], rest, f);
      SumRemoveAt(t, j, f);
    }
  }

  /** Non-increasing by `key`: the order a comparator `(a, b) => key(b) - key(a)` asks for. */
  ghost predicate SortedDesc<T>(s: seq<T>, key: T -> int) {
    forall i, j :: 0 <= i < j < |s| ==> key(s[i]) >= key(s[j])
  }

  /** Puts `x` into the sorted `s` after every element whose key is at least its own. */
  function Insert<T>(x: T, s: seq<T>, key: T -> int): (r: seq<T>)
    requires SortedDesc(s, key)
    ensures SortedDesc(r, key)
    ensures multiset(r) == multiset(s) + multiset{x}
    ensures |r| == |s| + 1
    ensures s != [] ==> r[0] == x || r[0] == s[0]
  {
    if s == [] then [x]
    else if key(x) > key(s[0]) then [x] + s
    else
      assert s == [s[0]] + s[1..];
      [s[0]] + Insert(x, s[1..], key)
  }

  /**
   * A stable sort of `s` by descending `key`: elements with equal keys keep
   * their relative order, as Array.prototype.sort guarantees.
   */
  function SortDesc<T>(s: seq<T>, key: T -> int): (r: seq<T>)
    ensures SortedDesc(r, key)
    ensures multiset(r) == multiset(s)
    ensures |r| == |s|
  {
    if s == [] then []
    else
      assert s == s[..|s| - 1] + [s[|s| - 1]];
      Insert(s[|s| - 1], SortDesc(s[..|s| - 1], key), key)
  }

  /** With every key equal (a comparator that always answers 0) the order is kept. */
  lemma {:induction false} SortDescConstantKey<T>(s: seq<T>, key: T -> int, k: int)
    requires forall x :: x in s ==> key(x) == k
    ensures SortDesc(s, key) == s
  {
    if s != [] {
      var init, last := s[..|s| - 1], s[|s| - 1];
      assert s == init + [last];
      assert forall x :: x in init ==> x in s;
      SortDescConstantKey(init, key, k);
      InsertLast(last, init, key);
    }
  }

  lemma {:induction false} InsertLast<T>(x: T, s: seq<T>, key: T -> int)
    requires SortedDesc(s, key)
    requires forall y :: y in s ==> key(y) >= key(x)
    ensures Insert(x, s, key) == s + [x]
  {
    if s != [] {
      InsertLast(x, s[1..], key);
      assert s == [s[0]] + s[1..];
    }
  }

  /** `s.map(f)`. */
  function Map<A, B>(s: seq<A>, f: A -> B): (r: seq<B>)
    ensures |r| == |s|
    ensures forall i :: 0 <= i < |s| ==> r[i] == f(s[i])
  {
    seq(|s|, i requires 0 <= i < |s| => f(s[i]))
  }

  lemma MapCons<A, B>(x: A, tail: seq<A>, f: A -> B)
    ensures Map([x] + tail, f) == [f(x)] + Map(tail, f)
  {
    var l, r := Map([x] + tail, f), [f(x)] + Map(tail, f);
    forall i | 0 <= i < |l| ensures l[i] == r[i] {
      if i > 0 {
        assert ([x] + tail)[i] == tail[i - 1];
      }
    }
  }

  /** `s.slice(0, k)`: the first `k` elements, or all of them when there are fewer. */
  function Take<T>(s: seq<T>, k: nat): (r: seq<T>)
    ensures |r| == if |s| < k then |s| else k
    ensures forall i :: 0 <= i < |r| ==> r[i] == s[i]
  {
    if |s| <= k then s else s[..k]
  }

  /** The top `k` of a list sorted by descending key: nothing left out has a larger key than the last one kept. */
  lemma TopK<T>(s: seq<T>, k: nat, key: T -> int)
    requires SortedDesc(s, key) && 0 < k
    ensures SortedDesc(Take(s, k), key)
    ensures forall j :: |Take(s, k)| <= j < |s| ==> key(s[j]) <= key(Take(s, k)[|Take(s, k)| - 1])
  {
  }

  method Swap<T>(a: array<T>, i: int, j: int)
    requires 0 <= i < a.Length && 0 <= j < a.Length
    modifies a
    ensures a[i] == old(a[j]) && a[j] == old(a[i])
    ensures forall m :: 0 <= m < a.Length && m != i && m != j ==> a[m] == old(a[m])
    ensures multiset(a[..]) == old(multiset(a[..]))
  {
    a[i], a[j] := a[j], a[i];
  }

  /**
   * `Insert` puts `x` at a position `j` that has every key at least its own
   * before it and every smaller key after it.
   */
  lemma {:induction false} InsertAt<T>(x: T, s: seq<T>, j: nat, key: T -> int)
    requires SortedDesc(s, key) && j <= |s|
    requires forall q :: 0 <= q < j ==> key(s[q]) >= key(x)
    requires forall q :: j <= q < |s| ==> key(s[q]) < key(x)
    ensures Insert(x, s, key) == s[..j] + [x] + s[j..]
  {
    if s == [] {
    } else if j == 0 {
      assert key(x) > key(s[0]);
      assert Insert(x, s, key) == [x] + s;
    } else {
      SortedDescTail(s, key);
      InsertAfterHead(x, s, key);
      InsertAt(x, s[1..], j - 1, key);
      SplitAfterHead(s, j, x);
    }
  }

  lemma SortedDescTail<T>(s: seq<T>, key: T -> int)
    requires s != [] && SortedDesc(s, key)
    ensures SortedDesc(s[1..], key)
  {
  }

  /** When `x` does not go before the head, `Insert` keeps the head and inserts into the rest. */
  lemma InsertAfterHead<T>(x: T, s: seq<T>, key: T -> int)
    requires s != [] && SortedDesc(s, key) && SortedDesc(s[1..], key)
    requires key(x) <= key(s[0])
    ensures Insert(x, s, key) == [s[0]] + Insert(x, s[1..], key)
  {
  }

  lemma SplitAfterHead<T>(s: seq<T>, j: nat, x: T)
    requires 0 < j <= |s|
    ensures [s[0]] + (s[1..][..j - 1] + [x] + s[1..][j - 1..]) == s[..j] + [x] + s[j..]
  {
    assert s[..j] == [s[0]] + s[1..][..j - 1];
    assert s[1..][j - 1..] == s[j..];
  }

  /** `InsertAt` for the position where the swaps of `InsertStep` stop. */
  lemma InsertAtStop<T>(x: T, s: seq<T>, j: nat, key: T -> int)
    requires SortedDesc(s, key) && j <= |s|
    requires j == 0 || key(s[j - 1]) >= key(x)
    requires forall q :: j <= q < |s| ==> key(s[q]) < key(x)
    ensures Insert(x, s, key) == s[..j] + [x] + s[j..]
  {
    forall q | 0 <= q < j ensures key(s[q]) >= key(x) {
      assert key(s[q]) >= key(s[j - 1]);
    }
    InsertAt(x, s, j, key);
  }

  /** Sorting one more element of a prefix is inserting it into the sorted shorter prefix. */
  lemma SortDescSnoc<T>(s: seq<T>, i: nat, key: T -> int)
    requires i < |s|
    ensures SortDesc(s[..i + 1], key) == Insert(s[i], SortDesc(s[..i], key), key)
  {
    assert s[..i + 1][..i] == s[..i];
  }

  /** A sequence that agrees with `s` before `j`, holds `x` at `j` and `s` shifted by one after it. */
  lemma ShiftedIn<T>(b: seq<T>, s: seq<T>, j: nat, x: T)
    requires |b| == |s| + 1 && j <= |s|
    requires forall m :: 0 <= m < j ==> b[m] == s[m]
    requires b[j] == x
    requires forall m :: j < m < |b| ==> b[m] == s[m - 1]
    ensures b == s[..j] + [x] + s[j..]
  {
  }

  /**
   * One pass of the insertion sort: `a[i]` moves left by adjacent swaps past
   * every element with a strictly smaller key, which is `Insert`.
   */
  method InsertStep<T>(a: array<T>, i: int, key: T -> int)
    requires 0 <= i < a.Length && SortedDesc(a[..i], key)
    modifies a
    ensures a[..i + 1] == Insert(old(a[i]), old(a[..i]), key)
    ensures forall m :: i < m < a.Length ==> a[m] == old(a[m])
  {
    ghost var sorted := a[..i];
    var x := a[i];
    var j := i;
    while j > 0 && key(a[j - 1]) < key(a[j])
      invariant 0 <= j <= i
      invariant forall m :: 0 <= m < j ==> a[m] == sorted[m]
      invariant a[j] == x
      invariant forall m :: j < m <= i ==> a[m] == sorted[m - 1]
      invariant forall m :: i < m < a.Length ==> a[m] == old(a[m])
      invariant forall q :: j <= q < i ==> key(sorted[q]) < key(x)
    {
      Swap(a, j - 1, j);
      j := j - 1;
    }
    InsertAtStop(x, sorted, j, key);
    ShiftedIn(a[..i + 1], sorted, j, x);
  }

  /**
   * Sorts `a` in place by descending `key` (insertion sort by adjacent swaps).
   * An element moves left only past elements with a strictly smaller key, so
   * equal keys keep their order: the result is exactly the stable `SortDesc`.
   */
  method SortInPlace<T>(a: array<T>, key: T -> int)
    modifies a
    ensures a[..] == SortDesc(old(a[..]), key)
    ensures SortedDesc(a[..], key)
    ensures multiset(a[..]) == old(multiset(a[..]))
  {
    ghost var s := a[..];
    var i := 0;
    while i < a.Length
      invariant 0 <= i <= a.Length
      invariant a[..i] == SortDesc(s[..i], key)
      invariant forall m :: i <= m < a.Length ==> a[m] == s[m]
    {
      InsertStep(a, i, key);
      SortDescSnoc(s, i, key);
      i := i + 1;
    }
    assert a[..] == a[..a.Length] && s == s[..a.Length];
  }
}
