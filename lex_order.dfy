/** Python's ordering of `str` values and the in-place `list.sort()` of a list of names. */
module LexOrder {

  /** `a <= b` on Python strings: code point by code point, a proper prefix sorting first. */
  predicate LexLeq(a: string, b: string)
    decreases |a|
  {
    if a == [] then true
    else if b == [] then false
    else if a[0] != b[0] then a[0] < b[0]
    else LexLeq(a[1..], b[1..])
  }

  lemma {:induction false} LexReflexive(a: string)
    ensures LexLeq(a, a)
    decreases |a|
  {
    if a != [] { LexReflexive(a[1..]); }
  }

  lemma {:induction false} LexTotal(a: string, b: string)
    ensures LexLeq(a, b) || LexLeq(b, a)
    decreases |a|
  {
    if a != [] && b != [] && a[0] == b[0] { LexTotal(a[1..], b[1..]); }
  }

  lemma {:induction false} LexAntisymmetric(a: string, b: string)
    requires LexLeq(a, b) && LexLeq(b, a)
    ensures a == b
    decreases |a|
  {
    if a != [] {
      LexAntisymmetric(a[1..], b[1..]);
      assert a == [a[0]] + a[1..] && b == [b[0]] + b[1..];
    }
  }

  lemma {:induction false} LexTransitive(a: string, b: string, c: string)
    requires LexLeq(a, b) && LexLeq(b, c)
    ensures LexLeq(a, c)
    decreases |a|
  {
    if a != [] && a[0] == b[0] && b[0] == c[0] { LexTransitive(a[1..], b[1..], c[1..]); }
  }

  /** Non-decreasing under `LexLeq`, stated pairwise. */
  predicate Sorted(s: seq<string>) {
    forall i, j :: 0 <= i < j < |s| ==> LexLeq(s[i], s[j])
  }

  /** Inserts `x` before the first element it does not exceed. */
  function Insert(x: string, s: seq<string>): (r: seq<string>)
    ensures multiset(r) == multiset(s) + multiset{x}
    ensures Sorted(s) ==> Sorted(r)
  {
    if s == [] then [x]
    else if LexLeq(x, s[0]) then
      assert Sorted(s) ==> forall j :: 0 < j < |s| ==> LexLeq(s[0], s[j]);
      InsertFrontSorted(x, s);
      [x] + s
    else
      var r' := Insert(x, s[1..]);
      LexTotal(x, s[0]);
      assert s == [s[0]] + s[1..];
      InsertBehindSorted(s[0], x, s[1..], r');
      [s[0]] + r'
  }

  lemma InsertFrontSorted(x: string, s: seq<string>)
    requires s != [] && LexLeq(x, s[0])
    ensures Sorted(s) ==> Sorted([x] + s)
  {
    if Sorted(s) {
      forall j | 0 < j < |s| ensures LexLeq(x, s[j]) { LexTransitive(x, s[0], s[j]); }
    }
  }

  lemma InsertBehindSorted(h: string, x: string, t: seq<string>, r: seq<string>)
    requires LexLeq(h, x)
    requires multiset(r) == multiset(t) + multiset{x}
    requires Sorted([h] + t) ==> Sorted(r)
    ensures Sorted([h] + t) ==> Sorted([h] + r)
  {
    if Sorted([h] + t) {
      forall j | 0 <= j < |r| ensures LexLeq(h, r[j]) {
        assert ([h] + t)[0] == h;
        assert r[j] in multiset(r);
        if r[j] != x {
          assert r[j] in multiset(t);
          var k :| 0 <= k < |t| && t[k] == r[j];
          assert ([h] + t)[k + 1] == t[k];
        }
      }
    }
  }

  /** Insertion sort: the sorted permutation of `s`. */
  function SortNames(s: seq<string>): (r: seq<string>)
    ensures Sorted(r) && multiset(r) == multiset(s)
  {
    if s == [] then []
    else
      assert s == [s[0]] + s[1..];
      Insert(s[0], SortNames(s[1..]))
  }

  /** A sorted permutation is unique: sorting has exactly one possible outcome. */
  lemma {:induction false} SortedUnique(a: seq<string>, b: seq<string>)
    requires Sorted(a) && Sorted(b) && multiset(a) == multiset(b)
    ensures a == b
    decreases |a|
  {
    if a != [] {
      SortedHeadsEqual(a, b);
      SortedTail(a);
      SortedTail(b);
      SortedUnique(a[1..], b[1..]);
      assert a == [a[0]] + a[1..] && b == [b[0]] + b[1..];
    }
  }

  /** Dropping the head keeps a list sorted and removes one occurrence of the head from its multiset. */
  lemma SortedTail(a: seq<string>)
    requires Sorted(a) && a != []
    ensures Sorted(a[1..])
    ensures multiset(a[1..]) == multiset(a) - multiset{a[0]}
  {
    assert a == [a[0]] + a[1..];
    assert multiset(a) == multiset{a[0]} + multiset(a[1..]);
  }

  lemma SortedHeadsEqual(a: seq<string>, b: seq<string>)
    requires Sorted(a) && Sorted(b) && multiset(a) == multiset(b) && a != []
    ensures b != [] && a[0] == b[0]
  {
    assert a[0] in multiset(b);
    var k :| 0 <= k < |b| && b[k] == a[0];
    assert b[0] in multiset(a);
    var m :| 0 <= m < |a| && a[m] == b[0];
    if m == 0 { LexReflexive(a[0]); }
    if k == 0 { LexReflexive(b[0]); }
    LexAntisymmetric(a[0], b[0]);
  }

  /** `list.sort()` on a list of names: insertion sort by adjacent swaps. */
  method SortInPlace(a: array<string>)
    modifies a
    ensures a[..] == SortNames(old(a[..]))
  {
    var i := 0;
    while i < a.Length
      invariant 0 <= i <= a.Length
      invariant Sorted(a[..i])
      invariant multiset(a[..]) == multiset(old(a[..]))
    {
      SinkLast(a, i);
      i := i + 1;
    }
    assert a[..a.Length] == a[..];
    SortedUnique(a[..], SortNames(old(a[..])));
  }

  /** Moves `a[i]` down into the sorted prefix `a[..i]`. */
  method SinkLast(a: array<string>, i: nat)
    requires i < a.Length && Sorted(a[..i])
    modifies a
    ensures Sorted(a[..i + 1])
    ensures multiset(a[..]) == multiset(old(a[..]))
  {
    var j := i;
    while j > 0 && !LexLeq(a[j - 1], a[j])
      invariant 0 <= j <= i
      invariant forall k, l :: 0 <= k < l <= i && k != j && l != j ==> LexLeq(a[k], a[l])
      invariant forall l :: j < l <= i ==> LexLeq(a[j], a[l])
      invariant multiset(a[..]) == multiset(old(a[..]))
    {
      LexTotal(a[j - 1], a[j]);
      Swap(a, j - 1, j);
      j := j - 1;
    }
    forall k | 0 <= k < j ensures LexLeq(a[k], a[j]) {
      if k < j - 1 { LexTransitive(a[k], a[j - 1], a[j]); }
    }
  }

  method Swap(a: array<string>, i: nat, j: nat)
    requires i < j < a.Length
    modifies a
    ensures a[i] == old(a[j]) && a[j] == old(a[i])
    ensures forall k :: 0 <= k < a.Length && k != i && k != j ==> a[k] == old(a[k])
    ensures multiset(a[..]) == multiset(old(a[..]))
  {
    a[i], a[j] := a[j], a[i];
  }
}
