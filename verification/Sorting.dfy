/** The library sorts the program calls (`sort.Strings`, `slices.SortFunc`,
    `sort.SliceStable`), as one stable in-place insertion sort. */
module Sorting {

  /** `le` is total and transitive on the elements of `s`. */
  ghost predicate PreorderOn<T>(le: (T, T) -> bool, s: seq<T>) {
    && (forall i, j | 0 <= i < |s| && 0 <= j < |s| :: le(s[i], s[j]) || le(s[j], s[i]))
    && (forall i, j, k | 0 <= i < |s| && 0 <= j < |s| && 0 <= k < |s| && le(s[i], s[j]) && le(s[j], s[k])
          :: le(s[i], s[k]))
  }

  lemma PreorderOnPart<T>(le: (T, T) -> bool, s: seq<T>, t: seq<T>)
    requires PreorderOn(le, s) && forall k | 0 <= k < |t| :: t[k] in s
    ensures PreorderOn(le, t)
  {
    forall i, j | 0 <= i < |t| && 0 <= j < |t|
      ensures le(t[i], t[j]) || le(t[j], t[i])
      ensures forall k | 0 <= k < |t| && le(t[i], t[j]) && le(t[j], t[k]) :: le(t[i], t[k])
    {
      assert t[i] in s && t[j] in s;
      var x :| 0 <= x < |s| && s[x] == t[i];
      var y :| 0 <= y < |s| && s[y] == t[j];
      forall k | 0 <= k < |t| && le(t[i], t[j]) && le(t[j], t[k])
        ensures le(t[i], t[k])
      {
        assert t[k] in s;
        var z :| 0 <= z < |s| && s[z] == t[k];
      }
    }
  }

  ghost predicate Ordered<T>(le: (T, T) -> bool, s: seq<T>) {
    forall i, j | 0 <= i < j < |s| :: le(s[i], s[j])
  }

  /** Puts `x` behind the last element it does not precede, so ties keep arrival order. */
  function Insert<T>(le: (T, T) -> bool, x: T, s: seq<T>): (r: seq<T>)
    ensures |r| == |s| + 1
  {
    if s == [] then [x]
    else if le(s[|s| - 1], x) then s + [x]
    else Insert(le, x, s[..|s| - 1]) + [s[|s| - 1]]
  }

  function StableSorted<T>(le: (T, T) -> bool, s: seq<T>): (r: seq<T>)
    ensures |r| == |s|
  {
    if s == [] then [] else Insert(le, s[|s| - 1], StableSorted(le, s[..|s| - 1]))
  }

  lemma SortedAppend<T>(le: (T, T) -> bool, s: seq<T>, x: T)
    ensures StableSorted(le, s + [x]) == Insert(le, x, StableSorted(le, s))
  {
    assert (s + [x])[..|s|] == s;
  }

  lemma {:induction false} InsertElements<T>(le: (T, T) -> bool, x: T, s: seq<T>)
    ensures multiset(Insert(le, x, s)) == multiset(s) + multiset{x}
  {
    if s != [] {
      assert s == s[..|s| - 1] + [s[|s| - 1]];
      if !le(s[|s| - 1], x) {
        InsertElements(le, x, s[..|s| - 1]);
      }
    }
  }

  /** Sorting rearranges: nothing is lost and nothing is duplicated. */
  lemma {:induction false} SortedElements<T>(le: (T, T) -> bool, s: seq<T>)
    ensures multiset(StableSorted(le, s)) == multiset(s)
  {
    if s != [] {
      assert s == s[..|s| - 1] + [s[|s| - 1]];
      SortedElements(le, s[..|s| - 1]);
      InsertElements(le, s[|s| - 1], StableSorted(le, s[..|s| - 1]));
    }
  }

  lemma SortedMember<T>(le: (T, T) -> bool, s: seq<T>, x: T)
    ensures x in StableSorted(le, s) <==> x in s
  {
    SortedElements(le, s);
    assert x in StableSorted(le, s) <==> x in multiset(StableSorted(le, s));
    assert x in s <==> x in multiset(s);
  }

  lemma {:induction false} InsertOrdered<T>(le: (T, T) -> bool, x: T, s: seq<T>)
    requires PreorderOn(le, s + [x]) && Ordered(le, s)
    ensures Ordered(le, Insert(le, x, s))
  {
    if s != [] {
      var n := |s| - 1;
      var u := s + [x];
      assert forall i | 0 <= i < |s| :: u[i] == s[i];
      assert u[n] == s[n] && u[n + 1] == x;
      if le(s[n], x) {
        forall i | 0 <= i < |s|
          ensures le(s[i], x)
        {
          assert le(u[i], u[n]) || i == n;
        }
      } else {
        PreorderOnPart(le, u, s[..n] + [x]);
        InsertOrdered(le, x, s[..n]);
        InsertElements(le, x, s[..n]);
        var r := Insert(le, x, s[..n]);
        forall i | 0 <= i < |r|
          ensures le(r[i], s[n])
        {
          assert r[i] in multiset(r);
          assert r[i] in s[..n] || r[i] == x;
        }
      }
    }
  }

  lemma {:induction false} SortedOrdered<T>(le: (T, T) -> bool, s: seq<T>)
    requires PreorderOn(le, s)
    ensures Ordered(le, StableSorted(le, s))
  {
    if s != [] {
      var t := s[..|s| - 1];
      PreorderOnPart(le, s, t);
      SortedOrdered(le, t);
      var u := StableSorted(le, t);
      forall k | 0 <= k < |u|
        ensures u[k] in s
      {
        SortedMember(le, t, u[k]);
      }
      PreorderOnPart(le, s, u + [s[|s| - 1]]);
      InsertOrdered(le, s[|s| - 1], u);
    }
  }

  /** The insertion point is the one position with nothing larger before it and nothing
      preceding `x` behind it. */
  lemma {:induction false} InsertAt<T>(le: (T, T) -> bool, x: T, s: seq<T>, j: nat)
    requires j <= |s| && (j == 0 || le(s[j - 1], x))
    requires forall k | j <= k < |s| :: !le(s[k], x)
    ensures Insert(le, x, s) == s[..j] + [x] + s[j..]
  {
    var n := |s| - 1;
    if j == |s| {
      assert s[..j] == s && s[j..] == [];
    } else {
      InsertAt(le, x, s[..n], j);
      assert s[..n][..j] == s[..j];
      assert s[j..] == s[..n][j..] + [s[n]];
    }
  }

  /** Moves `a[i]` left to its place among the sorted `a[..i]`. */
  method InsertInPlace<T>(a: array<T>, le: (T, T) -> bool, i: nat)
    requires i < a.Length
    modifies a
    ensures a[..i + 1] == Insert(le, old(a[i]), old(a[..i]))
    ensures a[i + 1..] == old(a[i + 1..])
  {
    hide Insert;
    ghost var done := a[..i];
    var x := a[i];
    var j := i;
    while j > 0 && !le(a[j - 1], x)
      invariant 0 <= j <= i
      invariant forall k | j <= k < i :: !le(done[k], x) && a[k + 1] == done[k]
      invariant forall k | 0 <= k < j :: a[k] == done[k]
      invariant forall k | i < k < a.Length :: a[k] == old(a[k])
    {
      a[j] := a[j - 1];
      j := j - 1;
    }
    a[j] := x;
    InsertAt(le, x, done, j);
    assert a[..i + 1] == done[..j] + [x] + done[j..];
  }

  /** In-place insertion sort, the shape of the library's sort on short slices. */
  method SortInPlace<T>(a: array<T>, le: (T, T) -> bool)
    modifies a
    ensures a[..] == StableSorted(le, old(a[..]))
  {
    ghost var was := a[..];
    for i := 0 to a.Length
      invariant a[..i] == StableSorted(le, was[..i])
      invariant a[i..] == was[i..]
    {
      assert a[i] == a[i..][0] == was[i..][0] == was[i];
      assert a[i + 1..] == a[i..][1..];
      InsertInPlace(a, le, i);
      assert was[..i + 1][..i] == was[..i];
    }
    assert a[..] == a[..a.Length] && was == was[..a.Length];
  }
}
