/** Byte strings: the program's strings, their order, and 64-bit big-endian integers. */
module Bytes {
  import opened Basics

  type byte = x: int | 0 <= x < 256
  type Bytes = seq<byte>

  /** A string, whose length always fits a signed 64-bit `int`. */
  type GoString = s: Bytes | |s| < TWO_63

  /** The conversion `uint64(v)`: two's complement. */
  function ToUint64(v: int64): (u: uint64)
    ensures u == if v < 0 then v + TWO_64 else v
  {
    v % TWO_64
  }

  /** The byte order of `sort.Strings`: lexicographic, a proper prefix first. */
  predicate Before(a: Bytes, b: Bytes) {
    if b == [] then false
    else if a == [] then true
    else if a[0] != b[0] then a[0] < b[0]
    else Before(a[1..], b[1..])
  }

  /** Strings are compared at the first place where they differ; a proper prefix comes first. */
  lemma {:induction false} BeforeMeans(a: Bytes, b: Bytes)
    ensures Before(a, b) <==>
              || (|a| < |b| && b[..|a|] == a)
              || exists i :: 0 <= i < |a| && i < |b| && a[..i] == b[..i] && a[i] < b[i]
  {
    if a != [] && b != [] && a[0] == b[0] {
      BeforeMeans(a[1..], b[1..]);
      PrefixFromTail(a, b);
      if i :| 0 <= i < |a| && i < |b| && a[..i] == b[..i] && a[i] < b[i] {
        FirstDifference(a, b, i);
      }
      if i :| 0 <= i < |a[1..]| && i < |b[1..]| && a[1..][..i] == b[1..][..i] && a[1..][i] < b[1..][i] {
        FirstDifference(a, b, i + 1);
      }
    } else if a != [] && b != [] {
      assert a[..0] == b[..0];
    }
  }

  lemma PrefixFromTail(a: Bytes, b: Bytes)
    requires a != [] && b != [] && a[0] == b[0]
    ensures |a| < |b| && b[..|a|] == a <==> |a[1..]| < |b[1..]| && b[1..][..|a[1..]|] == a[1..]
  {
    if |a| < |b| {
      assert b[..|a|] == [b[0]] + b[1..][..|a| - 1];
      assert a == [a[0]] + a[1..];
    }
  }

  /** Where two strings with one first byte part, their tails part one place earlier. */
  lemma FirstDifference(a: Bytes, b: Bytes, i: nat)
    requires 0 < i < |a| && i < |b| && a[0] == b[0]
    ensures a[..i] == b[..i] <==> a[1..][..i - 1] == b[1..][..i - 1]
    ensures a[1..][i - 1] == a[i] && b[1..][i - 1] == b[i]
  {
    assert a[..i] == [a[0]] + a[1..][..i - 1];
    assert b[..i] == [b[0]] + b[1..][..i - 1];
  }

  predicate AtMost(a: Bytes, b: Bytes) {
    a == b || Before(a, b)
  }

  lemma {:induction false} BeforeTotal(a: Bytes, b: Bytes)
    ensures a == b || Before(a, b) || Before(b, a)
  {
    if a != [] && b != [] && a[0] == b[0] {
      BeforeTotal(a[1..], b[1..]);
      assert a == [a[0]] + a[1..] && b == [b[0]] + b[1..];
    }
  }

  lemma {:induction false} BeforeAsymmetric(a: Bytes, b: Bytes)
    requires Before(a, b)
    ensures a != b && !Before(b, a)
  {
    if a != [] && a[0] == b[0] {
      BeforeAsymmetric(a[1..], b[1..]);
    }
  }

  lemma {:induction false} BeforeTransitive(a: Bytes, b: Bytes, c: Bytes)
    requires Before(a, b) && Before(b, c)
    ensures Before(a, c)
  {
    if a != [] && a[0] == b[0] == c[0] {
      BeforeTransitive(a[1..], b[1..], c[1..]);
    }
  }

  /** The `k` low bytes of `n`, most significant first. */
  function BigEndian(n: nat, k: nat): (b: Bytes)
    ensures |b| == k
  {
    if k == 0 then [] else BigEndian(n / 256, k - 1) + [n % 256]
  }

  function FromBigEndian(b: Bytes): nat {
    if b == [] then 0 else FromBigEndian(b[..|b| - 1]) * 256 + b[|b| - 1]
  }

  function Pow256(k: nat): (p: nat)
    ensures p > 0
  {
    if k == 0 then 1 else 256 * Pow256(k - 1)
  }

  lemma {:induction false} BigEndianRoundTrip(n: nat, k: nat)
    requires n < Pow256(k)
    ensures FromBigEndian(BigEndian(n, k)) == n
  {
    if k > 0 {
      BigEndianRoundTrip(n / 256, k - 1);
      assert BigEndian(n, k)[..k - 1] == BigEndian(n / 256, k - 1);
    }
  }

  /** The most significant byte comes first. */
  lemma Uint64Bytes(n: uint64)
    ensures var b := BigEndian(n, 8);
            n == b[0] as int * 0x100_0000_0000_0000 + b[1] as int * 0x1_0000_0000_0000 + b[2] as int * 0x100_0000_0000
                 + b[3] as int * 0x1_0000_0000 + b[4] as int * 0x100_0000 + b[5] as int * 0x1_0000
                 + b[6] as int * 0x100 + b[7]
  {
    Uint64RoundTrip(n);
    var b := BigEndian(n, 8);
    hide BigEndian;
    assert b[..6][..4] == b[..4] && b[..4][..2] == b[..2] && b[..2][..0] == [];
    UnfoldTwo(b);
    UnfoldTwo(b[..6]);
    UnfoldTwo(b[..4]);
    UnfoldTwo(b[..2]);
  }

  lemma UnfoldTwo(b: Bytes)
    requires |b| >= 2
    ensures FromBigEndian(b) == FromBigEndian(b[..|b| - 2]) * 0x1_0000 + b[|b| - 2] as int * 0x100 + b[|b| - 1]
  {
    assert b[..|b| - 1][..|b| - 2] == b[..|b| - 2];
  }

  lemma Uint64RoundTrip(n: uint64)
    ensures FromBigEndian(BigEndian(n, 8)) == n
  {
    assert Pow256(8) == 256 * Pow256(7) == 0x1_0000 * Pow256(6) == 0x1_0000_0000 * Pow256(4);
    assert Pow256(4) == 256 * Pow256(3) == 0x1_0000 * Pow256(2) == 0x1_0000_0000;
    BigEndianRoundTrip(n, 8);
  }
}
