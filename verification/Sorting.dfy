/** Library sorting as the program relies on it: some ordered rearrangement, ties in any order. */
module Sorting {

  /** Byte-wise order of strings. */
  predicate StringLeq(a: string, b: string) {
    a == [] || (b != [] && (a[0] < b[0] || (a[0] == b[0] && StringLeq(a[1..], b[1..]))))
  }

  lemma {:induction false} StringLeqTransitive(a: string, b: string, c: string)
    requires StringLeq(a, b) && StringLeq(b, c)
    ensures StringLeq(a, c)
  {
    if a != [] && a[0] == b[0] == c[0] {
      StringLeqTransitive(a[1..], b[1..], c[1..]);
    }
  }

  lemma {:induction false} StringLeqTotal(a: string, b: string)
    ensures StringLeq(a, b) || StringLeq(b, a)
  {
    if a != [] && b != [] && a[0] == b[0] {
      StringLeqTotal(a[1..], b[1..]);
    }
  }

  ghost predicate Ordering<T(!new)>(leq: (T, T) -> bool) {
    && (forall a, b :: leq(a, b) || leq(b, a))
    && (forall a, b, c :: leq(a, b) && leq(b, c) ==> leq(a, c))
  }

  ghost predicate Sorted<T>(s: seq<T>, leq: (T, T) -> bool) {
    forall i, j :: 0 <= i < j < |s| ==> leq(s[i], s[j])
  }

  /** One more value at its place in a sorted sequence. */
  method Insert<T(!new)>(r: seq<T>, x: T, leq: (T, T) -> bool) returns (r': seq<T>)
    requires Ordering(leq) && Sorted(r, leq)
    ensures multiset(r') == multiset(r) + multiset{x} && Sorted(r', leq)
  {
    var j := |r|;
    while j > 0 && !leq(r[j - 1], x)
      invariant 0 <= j <= |r|
      invariant forall k :: j <= k < |r| ==> leq(x, r[k])
    {
      j := j - 1;
    }
    r' := r[..j] + [x] + r[j..];
    InsertedSorted(r, x, j, leq);
    InsertedValues(r, x, j);
  }

  lemma InsertedSorted<T(!new)>(r: seq<T>, x: T, j: nat, leq: (T, T) -> bool)
    requires Ordering(leq) && Sorted(r, leq) && j <= |r|
    requires j > 0 ==> leq(r[j - 1], x)
    requires forall k :: j <= k < |r| ==> leq(x, r[k])
    ensures Sorted(r[..j] + [x] + r[j..], leq)
  {
    forall k | 0 <= k < j
      ensures leq(r[k], x)
    {
      if k < j - 1 {
        assert leq(r[k], r[j - 1]);
      }
    }
  }

  lemma InsertedValues<T>(r: seq<T>, x: T, j: nat)
    requires j <= |r|
    ensures multiset(r[..j] + [x] + r[j..]) == multiset(r) + multiset{x}
  {
    assert r == r[..j] + r[j..];
  }

  /** A sorted rearrangement of `s`. */
  method Sort<T(!new)>(s: seq<T>, leq: (T, T) -> bool) returns (r: seq<T>)
    requires Ordering(leq)
    ensures multiset(r) == multiset(s) && Sorted(r, leq)
  {
    r := [];
    for i := 0 to |s|
      invariant multiset(r) == multiset(s[..i]) && Sorted(r, leq)
    {
      r := Insert(r, s[i], leq);
      assert s[..i + 1] == s[..i] + [s[i]];
    }
    assert s[..|s|] == s;
  }

  ghost predicate StrictlyAscending(s: seq<string>) {
    forall i, j :: 0 <= i < j < |s| ==> s[i] != s[j] && StringLeq(s[i], s[j])
  }

  lemma StringOrdering()
    ensures Ordering(StringLeq)
  {
    forall a, b ensures StringLeq(a, b) || StringLeq(b, a) { StringLeqTotal(a, b); }
    forall a, b, c | StringLeq(a, b) && StringLeq(b, c) ensures StringLeq(a, c) { StringLeqTransitive(a, b, c); }
  }

  /** A rearrangement holds the same values. */
  lemma SameValues<T>(r: seq<T>, s: seq<T>)
    requires multiset(r) == multiset(s)
    ensures |r| == |s| && forall x :: x in r <==> x in s
  {
    assert |multiset(r)| == |multiset(s)|;
    forall x ensures x in r <==> x in s {
      assert x in r <==> x in multiset(r);
      assert x in s <==> x in multiset(s);
    }
  }

  /** A rearrangement of different values has different values. */
  lemma StaysDistinct<T>(r: seq<T>, s: seq<T>)
    requires multiset(r) == multiset(s) && forall i, j :: 0 <= i < j < |s| ==> s[i] != s[j]
    ensures forall i, j :: 0 <= i < j < |r| ==> r[i] != r[j]
  {
    forall x ensures multiset(s)[x] <= 1 { OnceInDistinct(s, x); }
    forall i, j | 0 <= i < j < |r| ensures r[i] != r[j] {
      CountedTwice(r, i, j);
    }
  }

  lemma CountedTwice<T>(r: seq<T>, i: nat, j: nat)
    requires i < j < |r|
    ensures r[i] == r[j] ==> multiset(r)[r[i]] >= 2
  {
    assert r == r[..i] + [r[i]] + r[i + 1..j] + [r[j]] + r[j + 1..];
  }

  lemma {:induction false} OnceInDistinct<T>(s: seq<T>, x: T)
    requires forall i, j :: 0 <= i < j < |s| ==> s[i] != s[j]
    ensures multiset(s)[x] <= 1
  {
    if s != [] {
      var front, last := s[..|s| - 1], s[|s| - 1];
      OnceInDistinct(front, x);
      assert s == front + [last];
      assert last !in multiset(front);
    }
  }

  method SortStrings(s: seq<string>) returns (r: seq<string>)
    ensures multiset(r) == multiset(s) && Sorted(r, StringLeq)
    ensures forall v :: v in r <==> v in s
    ensures (forall i, j :: 0 <= i < j < |s| ==> s[i] != s[j]) ==> StrictlyAscending(r)
  {
    StringOrdering();
    r := Sort(s, StringLeq);
    SameValues(r, s);
    if forall i, j :: 0 <= i < j < |s| ==> s[i] != s[j] {
      StaysDistinct(r, s);
    }
  }

  /** One text comes before another when it is a front of it, or smaller at the first place where they differ. */
  lemma {:induction false} StringLeqSpelled(a: string, b: string)
    ensures StringLeq(a, b) <==>
            a <= b || exists i :: 0 <= i < |a| && i < |b| && a[..i] == b[..i] && a[i] < b[i]
  {
    if a != [] && b != [] && a[0] == b[0] {
      StringLeqSpelled(a[1..], b[1..]);
      if i :| 0 <= i < |a[1..]| && i < |b[1..]| && a[1..][..i] == b[1..][..i] && a[1..][i] < b[1..][i] {
        assert a[..i + 1] == [a[0]] + a[1..][..i] && b[..i + 1] == [b[0]] + b[1..][..i];
        assert a[i + 1] < b[i + 1];
      }
      if i :| 0 <= i < |a| && i < |b| && a[..i] == b[..i] && a[i] < b[i] {
        assert a[1..][..i - 1] == a[..i][1..] && b[1..][..i - 1] == b[..i][1..];
        assert a[1..][i - 1] < b[1..][i - 1];
      }
      assert a == [a[0]] + a[1..] && b == [b[0]] + b[1..];
    } else if a != [] && b != [] {
      assert a[..0] == b[..0];
      if i :| 0 <= i < |a| && i < |b| && a[..i] == b[..i] && a[i] < b[i] {
        assert i > 0 ==> a[..i][0] == b[..i][0];
      }
    }
  }
}
