/** The two JavaScript array methods the calculator builds its state updates and
    lookups from: Array.prototype.filter and Array.prototype.find, over sequences. */
module ArrayOps {

  /** What `find` returns: the element, or `undefined`. */
  datatype Option<+T> = None | Some(value: T)

  /** `r` can be obtained from `s` by deleting elements: same relative order. */
  predicate IsSubsequence<T(==)>(r: seq<T>, s: seq<T>)
    decreases |s|
  {
    if r == [] then true
    else if s == [] then false
    else if r[0] == s[0] then IsSubsequence(r[1..], s[1..])
    else IsSubsequence(r, s[1..])
  }

  /** `s.filter(keep)`: exactly the elements that pass; nothing changes when every
      element passes. */
  function Filter<T(!new)>(s: seq<T>, keep: T -> bool): (r: seq<T>)
    ensures |r| <= |s|
    ensures forall x :: x in r <==> x in s && keep(x)
    ensures (forall i :: 0 <= i < |s| ==> keep(s[i])) ==> r == s
  {
    if s == [] then []
    else if keep(s[0]) then [s[0]] + Filter(s[1..], keep)
    else Filter(s[1..], keep)
  }

  /** Filtering keeps each passing element as often as it occurs and drops every
      occurrence of the others. */
  lemma {:induction false} FilterCounts<T(!new)>(s: seq<T>, keep: T -> bool)
    ensures forall x :: multiset(Filter(s, keep))[x] == if keep(x) then multiset(s)[x] else 0
  {
    if s != [] {
      FilterCounts(s[1..], keep);
      assert s == [s[0]] + s[1..];
    }
  }

  /** Filtering keeps the relative order of the elements it keeps. */
  lemma {:induction false} FilterKeepsOrder<T(!new)>(s: seq<T>, keep: T -> bool)
    ensures IsSubsequence(Filter(s, keep), s)
  {
    if s != [] {
      FilterKeepsOrder(s[1..], keep);
      var rest := Filter(s[1..], keep);
      if !keep(s[0]) {
        assert rest != [] ==> rest[0] in rest;
      }
    }
  }

  /** Filtering a concatenation filters each part and concatenates the results. */
  lemma {:induction false} FilterConcat<T(!new)>(a: seq<T>, b: seq<T>, keep: T -> bool)
    ensures Filter(a + b, keep) == Filter(a, keep) + Filter(b, keep)
  {
    if a != [] {
      assert (a + b)[1..] == a[1..] + b;
      FilterConcat(a[1..], b, keep);
    } else {
      assert a + b == b;
    }
  }

  /** Filtering out one failing element between two runs that pass drops exactly it. */
  lemma {:induction false} FilterDropsOne<T(!new)>(a: seq<T>, x: T, b: seq<T>, keep: T -> bool)
    requires forall i :: 0 <= i < |a| ==> keep(a[i])
    requires forall i :: 0 <= i < |b| ==> keep(b[i])
    requires !keep(x)
    ensures Filter(a + [x] + b, keep) == a + b
  {
    if a == [] {
      assert a + [x] + b == [x] + b;
      assert ([x] + b)[1..] == b;
    } else {
      assert (a + [x] + b)[1..] == a[1..] + [x] + b;
      FilterDropsOne(a[1..], x, b, keep);
      assert a + b == [a[0]] + (a[1..] + b);
    }
  }

  /** `s.find(pred)`: the first element that satisfies `pred`, or `None` when no
      element does. */
  function Find<T(==)>(s: seq<T>, pred: T -> bool): (r: Option<T>)
    ensures r.None? <==> forall i :: 0 <= i < |s| ==> !pred(s[i])
    ensures r.Some? ==> r.value in s && pred(r.value)
  {
    if s == [] then None
    else if pred(s[0]) then Some(s[0])
    else
      var r := Find(s[1..], pred);
      assert forall i :: 1 <= i < |s| ==> s[i] == s[1..][i - 1];
      r
  }

  /** The element `find` returns is the one at the first index that satisfies `pred`. */
  lemma {:induction false} FindFirst<T>(s: seq<T>, pred: T -> bool, k: nat)
    requires k < |s| && pred(s[k])
    requires forall j :: 0 <= j < k ==> !pred(s[j])
    ensures Find(s, pred) == Some(s[k])
  {
    if k > 0 {
      FindFirst(s[1..], pred, k - 1);
    }
  }

  /** Deleting elements that `pred` never accepts does not change what `find` returns. */
  lemma {:induction false} FindAfterFilter<T(!new)>(s: seq<T>, keep: T -> bool, pred: T -> bool)
    requires forall x :: pred(x) ==> keep(x)
    ensures Find(Filter(s, keep), pred) == Find(s, pred)
  {
    if s != [] {
      FindAfterFilter(s[1..], keep, pred);
    }
  }

  /** No two elements of `s` share a key. */
  predicate KeysUnique<T, K(==)>(s: seq<T>, key: T -> K) {
    forall i, j :: 0 <= i < j < |s| ==> key(s[i]) != key(s[j])
  }

  /** Filtering keeps keys unique. */
  lemma {:induction false} FilterKeepsKeysUnique<T(!new), K>(s: seq<T>, keep: T -> bool, key: T -> K)
    requires KeysUnique(s, key)
    ensures KeysUnique(Filter(s, keep), key)
  {
    if s != [] {
      var rest := Filter(s[1..], keep);
      assert KeysUnique(s[1..], key) by {
        forall i, j | 0 <= i < j < |s| - 1 ensures key(s[1..][i]) != key(s[1..][j]) {
          assert s[1..][i] == s[i + 1] && s[1..][j] == s[j + 1];
        }
      }
      FilterKeepsKeysUnique(s[1..], keep, key);
      if keep(s[0]) {
        var r := [s[0]] + rest;
        forall i, j | 0 <= i < j < |r| ensures key(r[i]) != key(r[j]) {
          if i == 0 {
            assert r[j] in s[1..];
            var m :| 0 <= m < |s| - 1 && s[1..][m] == r[j];
            assert s[m + 1] == r[j];
          } else {
            assert r[i] == rest[i - 1] && r[j] == rest[j - 1];
          }
        }
      }
    }
  }
}
