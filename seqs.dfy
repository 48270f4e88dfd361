/** Generic list operations used by the store, the API routes and the pages:
    the `Array.prototype.filter`, `find` and `new Set(...)` idioms of the
    application, each with the property that makes it useful. */
module Seqs {

  datatype Option<T> = None | Some(value: T)

  /** `a` is an order-preserving subsequence of `b`. */
  predicate IsSubseq<T(==)>(a: seq<T>, b: seq<T>)
    decreases |b|
  {
    a == [] ||
    (b != [] && ((a[0] == b[0] && IsSubseq(a[1..], b[1..])) || IsSubseq(a, b[1..])))
  }

  /** No element occurs twice. */
  predicate NoDup<T(==)>(s: seq<T>) {
    forall i, j :: 0 <= i < j < |s| ==> s[i] != s[j]
  }

  /** `s.filter(f)`: the elements satisfying `f`, in their original order,
      each as often as it occurs in `s`. */
  function Filter<T(==, !new)>(s: seq<T>, f: T -> bool): (r: seq<T>)
    ensures forall x :: x in r <==> x in s && f(x)
    ensures IsSubseq(r, s)
  {
    if s == [] then []
    else
      assert s == [s[0]] + s[1..];
      if f(s[0]) then [s[0]] + Filter(s[1..], f) else Filter(s[1..], f)
  }

  /** A filter keeps each element that passes exactly as often as it occurs
      and drops every other. */
  lemma {:induction false} FilterCounts<T(!new)>(s: seq<T>, f: T -> bool)
    ensures forall x :: multiset(Filter(s, f))[x] == if f(x) then multiset(s)[x] else 0
  {
    if s != [] {
      assert s == [s[0]] + s[1..];
      FilterCounts(s[1..], f);
    }
  }

  /** Filtering distributes over concatenation. */
  lemma {:induction false} FilterAppend<T(!new)>(a: seq<T>, b: seq<T>, f: T -> bool)
    ensures Filter(a + b, f) == Filter(a, f) + Filter(b, f)
  {
    if a == [] {
      assert a + b == b;
    } else {
      assert (a + b)[0] == a[0];
      assert (a + b)[1..] == a[1..] + b;
      FilterAppend(a[1..], b, f);
      if f(a[0]) {
        calc {
          Filter(a + b, f);
          [a[0]] + Filter(a[1..] + b, f);
          [a[0]] + (Filter(a[1..], f) + Filter(b, f));
          ([a[0]] + Filter(a[1..], f)) + Filter(b, f);
        }
      }
    }
  }

  /** A filter that keeps everything is the identity. */
  lemma {:induction false} FilterKeepsAll<T(!new)>(s: seq<T>, f: T -> bool)
    requires forall x :: x in s ==> f(x)
    ensures Filter(s, f) == s
  {
    if s != [] {
      FilterKeepsAll(s[1..], f);
    }
  }

  /** A filter that keeps nothing of `s` is empty. */
  lemma {:induction false} FilterDropsAll<T(!new)>(s: seq<T>, f: T -> bool)
    requires forall x :: x in s ==> !f(x)
    ensures Filter(s, f) == []
  {
    if s != [] {
      FilterDropsAll(s[1..], f);
    }
  }

  /** Filtering a list without duplicates gives a list without
      duplicates. */
  lemma {:induction false} FilterKeepsNoDup<T(!new)>(s: seq<T>, f: T -> bool)
    requires NoDup(s)
    ensures NoDup(Filter(s, f))
  {
    if s != [] {
      var rest := s[1..];
      assert NoDup(rest) by {
        forall i, j | 0 <= i < j < |rest| ensures rest[i] != rest[j] {
          assert rest[i] == s[i + 1] && rest[j] == s[j + 1];
        }
      }
      FilterKeepsNoDup(rest, f);
      var fr := Filter(rest, f);
      assert s[0] !in rest by {
        forall j | 0 <= j < |rest| ensures rest[j] != s[0] {
          assert rest[j] == s[j + 1];
        }
      }
      if f(s[0]) {
        var r := [s[0]] + fr;
        forall i, j | 0 <= i < j < |r| ensures r[i] != r[j] {
          if i == 0 {
            assert r[j] == fr[j - 1] && fr[j - 1] in fr;
          } else {
            assert r[i] == fr[i - 1] && r[j] == fr[j - 1];
          }
        }
      }
    }
  }

  /** Two successive filters are one filter by the conjunction `h`. */
  lemma {:induction false} FilterFuse<T(!new)>(s: seq<T>, f: T -> bool, g: T -> bool, h: T -> bool)
    requires forall x :: h(x) == (f(x) && g(x))
    ensures Filter(Filter(s, f), g) == Filter(s, h)
  {
    if s != [] {
      FilterFuse(s[1..], f, g, h);
    }
  }

  /** Filters by two tests that agree on every element are the same. */
  lemma {:induction false} FilterCongruent<T(!new)>(s: seq<T>, f: T -> bool, g: T -> bool)
    requires forall x :: f(x) == g(x)
    ensures Filter(s, f) == Filter(s, g)
  {
    if s != [] {
      FilterCongruent(s[1..], f, g);
    }
  }

  /** `s.filter(y => y !== x)`: every occurrence of `x` removed, all other
      elements kept with their multiplicity and order. */
  function RemoveAll<T(==, !new)>(s: seq<T>, x: T): (r: seq<T>)
    ensures x !in r
    ensures multiset(r) == multiset(s)[x := 0]
    ensures IsSubseq(r, s)
    ensures NoDup(s) ==> NoDup(r)
  {
    var keep := y => y != x;
    FilterCounts(s, keep);
    if NoDup(s) then FilterKeepsNoDup(s, keep); Filter(s, keep) else Filter(s, keep)
  }

  /** Removing an element that was just appended to a list that did not
      contain it gives the list back. */
  lemma RemoveAllAppended<T(!new)>(s: seq<T>, x: T)
    requires x !in s
    ensures RemoveAll(s + [x], x) == s
  {
    FilterAppend(s, [x], y => y != x);
    FilterKeepsAll(s, y => y != x);
  }

  /** `s.find(f)`: the first element satisfying `f`, or nothing. */
  function FindFirst<T>(s: seq<T>, f: T -> bool): (r: Option<T>)
    ensures r.None? <==> forall i :: 0 <= i < |s| ==> !f(s[i])
    ensures r.Some? ==> exists i :: 0 <= i < |s| && s[i] == r.value && f(s[i]) &&
                                    forall j :: 0 <= j < i ==> !f(s[j])
  {
    if s == [] then None
    else if f(s[0]) then Some(s[0])
    else
      var r := FindFirst(s[1..], f);
      assert r.Some? ==> exists i :: 0 < i < |s| && s[i] == r.value && f(s[i]) &&
                                     forall j :: 0 <= j < i ==> !f(s[j]) by {
        if r.Some? {
          var k :| 0 <= k < |s| - 1 && s[1..][k] == r.value && f(s[1..][k]) &&
                   forall j :: 0 <= j < k ==> !f(s[1..][j]);
          assert s[k + 1] == r.value;
          assert forall j :: 1 <= j < k + 1 ==> !f(s[j]) by {
            forall j | 1 <= j < k + 1 ensures !f(s[j]) { assert s[j] == s[1..][j - 1]; }
          }
        }
      }
      r
  }

  /** The first element satisfying `f` of a list whose earlier elements all
      fail `f` is the one appended last. */
  lemma FindFirstAppended<T>(s: seq<T>, x: T, f: T -> bool)
    requires forall y :: y in s ==> !f(y)
    requires f(x)
    ensures FindFirst(s + [x], f) == Some(x)
  {
    var t := s + [x];
    assert t[|s|] == x;
    forall j | 0 <= j < |s| ensures !f(t[j]) {
      assert t[j] == s[j] && s[j] in s;
    }
  }

  /** The position of the first occurrence of `x` in `s`. */
  function FirstIndex<T(==)>(s: seq<T>, x: T): (i: nat)
    requires x in s
    ensures i < |s| && s[i] == x
    ensures forall k :: 0 <= k < i ==> s[k] != x
  {
    if s[0] == x then 0 else 1 + FirstIndex(s[1..], x)
  }

  /** An element of a prefix first occurs at the same place in the whole. */
  lemma FirstIndexInPrefix<T>(s: seq<T>, n: nat, x: T)
    requires n <= |s| && x in s[..n]
    ensures FirstIndex(s, x) == FirstIndex(s[..n], x)
  {
    var j := FirstIndex(s[..n], x);
    assert s[j] == x;
  }

  /** `[...new Set(s)]`: the distinct elements of `s`, each once, in the order
      of their first occurrence. */
  function Distinct<T(==, !new)>(s: seq<T>): (r: seq<T>)
    ensures NoDup(r)
    ensures forall x :: x in r <==> x in s
    ensures forall i, j :: 0 <= i < j < |r| ==> FirstIndex(s, r[i]) < FirstIndex(s, r[j])
  {
    if s == [] then []
    else
      var n := |s| - 1;
      var init := Distinct(s[..n]);
      var last := s[n];
      assert s == s[..n] + [last];
      forall x | x in init ensures FirstIndex(s, x) == FirstIndex(s[..n], x) < n {
        FirstIndexInPrefix(s, n, x);
      }
      if last in init then init
      else
        assert FirstIndex(s, last) == n;
        init + [last]
  }
}
