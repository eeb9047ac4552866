/** `sort.Strings`: byte-wise order, in place. */
module Sorting {
  import opened Prelude

  predicate Less(a: Str, b: Str) {
    if b == [] then false
    else if a == [] then true
    else if a[0] != b[0] then a[0] < b[0]
    else Less(a[1..], b[1..])
  }

  /** The byte order: a proper prefix comes first, else the first byte that differs decides. */
  ghost predicate Before(a: Str, b: Str) {
    || (|a| < |b| && a == b[..|a|])
    || exists k :: SmallerAt(a, b, k)
  }

  ghost predicate SmallerAt(a: Str, b: Str, k: nat) {
    k < |a| && k < |b| && a[..k] == b[..k] && a[k] < b[k]
  }

  lemma SmallerLater(a: Str, b: Str, k: nat)
    requires a != [] && b != [] && a[0] == b[0]
    ensures SmallerAt(a, b, k + 1) <==> SmallerAt(a[1..], b[1..], k)
    ensures !SmallerAt(a, b, 0)
  {
    if k < |a| - 1 && k < |b| - 1 {
      assert a[..k + 1] == [a[0]] + a[1..][..k] && b[..k + 1] == [b[0]] + b[1..][..k];
      assert a[1..][..k] == a[..k + 1][1..] && b[1..][..k] == b[..k + 1][1..];
    }
  }

  lemma SmallerSomewhere(a: Str, b: Str)
    requires a != [] && b != [] && a[0] == b[0]
    ensures (exists k :: SmallerAt(a, b, k)) <==> exists k :: SmallerAt(a[1..], b[1..], k)
  {
    hide SmallerAt;
    if k: nat :| SmallerAt(a, b, k) {
      SmallerLater(a, b, if k == 0 then 0 else k - 1);
      assert SmallerAt(a[1..], b[1..], k - 1);
    }
    if k: nat :| SmallerAt(a[1..], b[1..], k) {
      SmallerLater(a, b, k);
      assert SmallerAt(a, b, k + 1);
    }
  }

  lemma PrefixLater(a: Str, b: Str)
    requires a != [] && b != [] && a[0] == b[0] && |a| < |b|
    ensures a == b[..|a|] <==> a[1..] == b[1..][..|a| - 1]
  {
    assert a == [a[0]] + a[1..] && b[..|a|] == [b[0]] + b[1..][..|a| - 1];
    assert b[..|a|][1..] == b[1..][..|a| - 1];
  }

  /** The recursive comparison is the byte order. */
  lemma {:induction false} LessIsByteOrder(a: Str, b: Str)
    ensures Less(a, b) <==> Before(a, b)
    decreases |a|
  {
    if a != [] && b != [] {
      if a[0] == b[0] {
        LessIsByteOrder(a[1..], b[1..]);
        SmallerSomewhere(a, b);
        if |a| < |b| { PrefixLater(a, b); }
      } else {
        FirstBytesDecide(a, b);
      }
    }
  }

  lemma FirstBytesDecide(a: Str, b: Str)
    requires a != [] && b != [] && a[0] != b[0]
    ensures Before(a, b) <==> a[0] < b[0]
  {
    assert a[0] < b[0] ==> SmallerAt(a, b, 0);
    assert forall k: nat :: 0 < k < |a| && k < |b| ==> a[..k][0] == a[0] && b[..k][0] == b[0];
  }

  lemma {:induction false} LessIsAsymmetric(a: Str, b: Str)
    ensures !(Less(a, b) && Less(b, a))
    decreases |a|
  {
    if a != [] && b != [] && a[0] == b[0] {
      LessIsAsymmetric(a[1..], b[1..]);
    }
  }

  lemma {:induction false} LessIsConnected(a: Str, b: Str)
    ensures a == b || Less(a, b) || Less(b, a)
    decreases |a|
  {
    if a != [] && b != [] && a[0] == b[0] {
      LessIsConnected(a[1..], b[1..]);
      assert a == [a[0]] + a[1..] && b == [b[0]] + b[1..];
    }
  }

  lemma {:induction false} LessIsTransitive(a: Str, b: Str, c: Str)
    ensures Less(a, b) && Less(b, c) ==> Less(a, c)
    decreases |a|
  {
    if a != [] && b != [] && c != [] && a[0] == b[0] == c[0] {
      LessIsTransitive(a[1..], b[1..], c[1..]);
    }
  }

  /** The complement is transitive too, so `!Less(b, a)` is a total order. */
  lemma NotLessIsTransitive(a: Str, b: Str, c: Str)
    ensures !Less(b, a) && !Less(c, b) ==> !Less(c, a)
  {
    LessIsConnected(b, c);
    LessIsTransitive(b, c, a);
    LessIsAsymmetric(a, c);
    LessIsTransitive(c, a, b);
  }

  ghost predicate Sorted(s: seq<Str>) {
    forall i, j :: 0 <= i < j < |s| ==> !Less(s[j], s[i])
  }

  function Insert(s: seq<Str>, x: Str): seq<Str> {
    if s == [] || !Less(x, s[|s| - 1]) then s + [x]
    else Insert(s[..|s| - 1], x) + [s[|s| - 1]]
  }

  function Sort(s: seq<Str>): seq<Str> {
    if s == [] then [] else Insert(Sort(s[..|s| - 1]), s[|s| - 1])
  }

  lemma {:induction false} InsertPermutes(s: seq<Str>, x: Str)
    ensures multiset(Insert(s, x)) == multiset(s) + multiset{x}
  {
    if s != [] && Less(x, s[|s| - 1]) {
      InsertPermutes(s[..|s| - 1], x);
      WithoutLast(s);
    }
  }

  lemma InMultiset(s: seq<Str>, t: seq<Str>, i: nat)
    requires multiset(s) == multiset(t) && i < |s|
    ensures exists j :: 0 <= j < |t| && t[j] == s[i]
  {
    assert s[i] in multiset(s);
    assert s[i] in t;
  }

  lemma SnocSorts(s: seq<Str>, last: Str)
    requires Sorted(s) && forall i :: 0 <= i < |s| ==> !Less(last, s[i])
    ensures Sorted(s + [last])
  {
  }

  lemma {:induction false} InsertSorts(s: seq<Str>, x: Str)
    requires Sorted(s)
    ensures Sorted(Insert(s, x))
  {
    if s != [] && Less(x, s[|s| - 1]) {
      var init, last := s[..|s| - 1], s[|s| - 1];
      InsertSorts(init, x);
      InsertPermutes(init, x);
      LessIsAsymmetric(x, last);
      forall i | 0 <= i < |Insert(init, x)| ensures !Less(last, Insert(init, x)[i]) {
        InMultiset(Insert(init, x), init + [x], i);
      }
      SnocSorts(Insert(init, x), last);
    } else {
      forall i | 0 <= i < |s| ensures !Less(x, s[i]) {
        NotLessIsTransitive(s[i], s[|s| - 1], x);
      }
      SnocSorts(s, x);
    }
  }

  lemma {:induction false} SortPermutes(s: seq<Str>)
    ensures multiset(Sort(s)) == multiset(s) && Sorted(Sort(s))
  {
    if s != [] {
      SortPermutes(s[..|s| - 1]);
      InsertPermutes(Sort(s[..|s| - 1]), s[|s| - 1]);
      InsertSorts(Sort(s[..|s| - 1]), s[|s| - 1]);
      WithoutLast(s);
    }
  }

  /** The last element of a sorted list is not below any element of a permutation of it. */
  lemma LastIsGreatest(a: seq<Str>, b: seq<Str>, i: nat)
    requires Sorted(a) && multiset(a) == multiset(b) && i < |b| == |a|
    ensures !Less(a[|a| - 1], b[i])
  {
    InMultiset(b, a, i);
    LessIsAsymmetric(b[i], b[i]);
  }

  lemma WithoutLast(a: seq<Str>)
    requires a != []
    ensures multiset(a[..|a| - 1]) == multiset(a) - multiset{a[|a| - 1]}
    ensures multiset(a) == multiset(a[..|a| - 1]) + multiset{a[|a| - 1]}
  {
    assert a == a[..|a| - 1] + [a[|a| - 1]];
  }

  lemma SameLast(a: seq<Str>, b: seq<Str>)
    requires Sorted(a) && Sorted(b) && multiset(a) == multiset(b) && a != []
    ensures |a| == |b| && a[|a| - 1] == b[|b| - 1]
    ensures multiset(a[..|a| - 1]) == multiset(b[..|b| - 1])
  {
    assert |a| == |multiset(a)| == |multiset(b)| == |b|;
    LastIsGreatest(a, b, |b| - 1);
    LastIsGreatest(b, a, |a| - 1);
    LessIsConnected(a[|a| - 1], b[|b| - 1]);
    WithoutLast(a);
    WithoutLast(b);
  }

  lemma {:induction false} SortedIsUnique(a: seq<Str>, b: seq<Str>)
    requires Sorted(a) && Sorted(b) && multiset(a) == multiset(b)
    ensures a == b
    decreases |a|
  {
    if a == [] {
      assert |b| == |multiset(b)| == |multiset(a)| == 0;
    } else {
      var n := |a| - 1;
      SameLast(a, b);
      SortedIsUnique(a[..n], b[..n]);
      assert a == a[..n] + [a[n]] && b == b[..n] + [b[n]];
    }
  }

  /** Two argument lists sort to the same list exactly when they are permutations of each other. */
  lemma SortIgnoresOrder(a: seq<Str>, b: seq<Str>)
    ensures Sort(a) == Sort(b) <==> multiset(a) == multiset(b)
  {
    SortPermutes(a);
    SortPermutes(b);
    if multiset(a) == multiset(b) {
      SortedIsUnique(Sort(a), Sort(b));
    }
  }

  lemma {:induction false} InsertAt(s: seq<Str>, x: Str, j: nat)
    requires j <= |s| && (j == 0 || !Less(x, s[j - 1]))
    requires forall k :: j <= k < |s| ==> Less(x, s[k])
    ensures Insert(s, x) == s[..j] + [x] + s[j..]
    decreases |s|
  {
    if j < |s| {
      var init := s[..|s| - 1];
      InsertAt(init, x, j);
      assert init[..j] == s[..j] && init[j..] + [s[|s| - 1]] == s[j..];
    } else {
      assert s[..j] == s && s[j..] == [];
    }
  }

  /** A list with `y` put in at position `j`. */
  function Opened(s: seq<Str>, j: nat, y: Str): seq<Str>
    requires j <= |s|
  {
    s[..j] + [y] + s[j..]
  }

  lemma GapMovesDown(s: seq<Str>, j: nat, y: Str, rest: seq<Str>)
    requires 0 < j <= |s|
    ensures (Opened(s, j, y) + rest)[j - 1] == s[j - 1]
    ensures (Opened(s, j, y) + rest)[j := s[j - 1]] == Opened(s, j - 1, s[j - 1]) + rest
  {
  }

  lemma GapFilled(s: seq<Str>, j: nat, y: Str, x: Str, rest: seq<Str>)
    requires j <= |s|
    ensures var filled := (Opened(s, j, y) + rest)[j := x];
            filled[..|s| + 1] == Opened(s, j, x) && filled[|s| + 1..] == rest
  {
  }

  /** Moves `a[i]` down to its place among the sorted elements before it. */
  method Sink(a: array<Str>, i: nat)
    requires i < a.Length
    modifies a
    ensures a[..i + 1] == Insert(old(a[..i]), old(a[i]))
    ensures a[i + 1..] == old(a[i + 1..])
  {
    ghost var front, rest := a[..i], a[i + 1..];
    var x := a[i];
    var j := i;
    assert a[..] == Opened(front, j, a[j]) + rest;
    while j > 0 && Less(x, a[j - 1])
      invariant 0 <= j <= i
      invariant a[..] == Opened(front, j, a[j]) + rest
      invariant forall k :: j <= k < i ==> Less(x, front[k])
    {
      GapMovesDown(front, j, a[j], rest);
      a[j] := a[j - 1];
      j := j - 1;
    }
    GapFilled(front, j, a[j], x, rest);
    a[j] := x;
    InsertAt(front, x, j);
    assert a[..i + 1] == a[..][..i + 1] && a[i + 1..] == a[..][i + 1..];
  }

  lemma SortNothing()
    ensures Sort([]) == []
  {
  }

  lemma SortSnoc(s: seq<Str>, i: nat)
    requires i < |s|
    ensures Sort(s[..i + 1]) == Insert(Sort(s[..i]), s[i])
  {
    assert s[..i + 1][..i] == s[..i];
  }

  /** Sorting puts the elements in byte order and keeps each as often as it was there. */
  lemma SortOrders(s: seq<Str>)
    ensures multiset(Sort(s)) == multiset(s)
    ensures forall i, j :: 0 <= i < j < |Sort(s)| ==> !Before(Sort(s)[j], Sort(s)[i])
  {
    SortPermutes(s);
    forall i, j | 0 <= i < j < |Sort(s)| ensures !Before(Sort(s)[j], Sort(s)[i]) {
      LessIsByteOrder(Sort(s)[j], Sort(s)[i]);
    }
  }

  method SortStrings(a: array<Str>)
    modifies a
    ensures a[..] == Sort(old(a[..]))
    ensures multiset(a[..]) == multiset(old(a[..]))
    ensures forall i, j :: 0 <= i < j < a.Length ==> !Before(a[j], a[i])
  {
    hide Sort, Insert, Before;
    ghost var was := a[..];
    SortNothing();
    var i := 0;
    while i < a.Length
      invariant 0 <= i <= a.Length
      invariant a[..i] == Sort(was[..i])
      invariant a[i..] == was[i..]
    {
      assert a[i] == a[i..][0] == was[i];
      SortSnoc(was, i);
      Sink(a, i);
      i := i + 1;
    }
    assert a[..] == a[..i] && was == was[..i];
    SortOrders(was);
    assert forall i, j :: 0 <= i < j < a.Length ==> a[i] == a[..][i] && a[j] == a[..][j];
  }
}
