/** Merging a weight patch and reducing the result by its greatest common divisor. */
module Weights {

  type Weights = map<string, nat>

  datatype Error = UnknownBlock | ZeroWeight

  datatype Result = Ok(weights: Weights) | Err(error: Error)

  ghost predicate Divides(d: nat, n: nat) {
    exists k: nat :: n == d * k
  }

  // ---------- divisibility ----------

  lemma DividesTimes(d: nat, n: nat, k: nat)
    requires n == d * k
    ensures Divides(d, n)
  {
  }

  lemma DividesSum(d: nat, m: nat, n: nat, q: nat)
    requires Divides(d, m) && Divides(d, n)
    ensures Divides(d, m + n * q)
  {
    var i: nat :| m == d * i;
    var j: nat :| n == d * j;
    Distribute(d, i, j, q);
    DividesTimes(d, m + n * q, i + j * q);
  }

  lemma Distribute(d: nat, i: nat, j: nat, q: nat)
    ensures d * (i + j * q) == d * i + (d * j) * q
  {
    assert d * (j * q) == (d * j) * q;
  }

  lemma DividesDifference(d: nat, m: nat, n: nat, q: nat)
    requires Divides(d, m) && Divides(d, n) && n * q <= m
    ensures Divides(d, m - n * q)
  {
    var i: nat :| m == d * i;
    var j: nat :| n == d * j;
    assert (d * j) * q == d * (j * q);
    if d == 0 {
      DividesTimes(d, m - n * q, 0);
    } else {
      Cancel(d, j * q, i);
      assert d * (i - j * q) == d * i - d * (j * q);
      DividesTimes(d, m - n * q, i - j * q);
    }
  }

  lemma Cancel(d: nat, x: nat, y: nat)
    requires d > 0 && d * x <= d * y
    ensures x <= y
  {
    if y < x {
      StrictScale(d, y, x);
    }
  }

  lemma StrictScale(d: nat, x: nat, y: nat)
    requires d > 0 && x < y
    ensures d * x + d <= d * y
  {
    assert d * y == d * (x + 1) + d * (y - x - 1);
  }

  lemma DividesAntisymmetric(a: nat, b: nat)
    requires Divides(a, b) && Divides(b, a)
    ensures a == b
  {
    var i: nat :| b == a * i;
    var j: nat :| a == b * j;
    if a > 0 && b > 0 {
      assert i > 0 && j > 0;
      AtLeast(a, i);
      AtLeast(b, j);
    }
  }

  lemma AtLeast(a: nat, i: nat)
    requires i > 0
    ensures a * i >= a
  {
  }

  lemma DividesSelf(d: nat)
    ensures Divides(d, d) && Divides(d, 0)
  {
    DividesTimes(d, d, 1);
    DividesTimes(d, 0, 0);
  }

  // ---------- the pairwise gcd ----------

  function GcdPair(a: nat, b: nat): nat
    decreases b
  {
    if b == 0 then a else GcdPair(b, a % b)
  }

  lemma SameDivisors(d: nat, a: nat, b: nat)
    requires b > 0
    ensures Divides(d, a) && Divides(d, b) <==> Divides(d, b) && Divides(d, a % b)
  {
    var q := a / b;
    assert a == b * q + a % b;
    if Divides(d, a) && Divides(d, b) {
      DividesDifference(d, a, b, q);
    }
    if Divides(d, b) && Divides(d, a % b) {
      DividesSum(d, a % b, b, q);
    }
  }

  /** The divisors of the gcd are exactly the common divisors. */
  lemma {:induction false} GcdPairMeaning(d: nat, a: nat, b: nat)
    ensures Divides(d, GcdPair(a, b)) <==> Divides(d, a) && Divides(d, b)
    decreases b
  {
    if b == 0 {
      DividesSelf(d);
    } else {
      SameDivisors(d, a, b);
      GcdPairMeaning(d, b, a % b);
    }
  }

  // ---------- the gcd of a weight map ----------

  /** The divisors of `g` are exactly the numbers dividing every weight. */
  ghost predicate IsGcd(g: nat, m: Weights) {
    forall d: nat :: Divides(d, g) <==> DividesAll(d, m)
  }

  ghost predicate DividesAll(d: nat, m: Weights) {
    forall id | id in m :: Divides(d, m[id])
  }

  lemma GcdUnique(g: nat, h: nat, m: Weights)
    requires IsGcd(g, m) && IsGcd(h, m)
    ensures g == h
  {
    DividesSelf(g);
    DividesSelf(h);
    assert Divides(g, h) && Divides(h, g);
    DividesAntisymmetric(g, h);
  }

  lemma GcdExtend(g: nat, m: Weights, id: string, v: nat)
    requires IsGcd(g, m) && id !in m
    ensures IsGcd(GcdPair(g, v), m[id := v])
  {
    var n := m[id := v];
    forall d: nat
      ensures Divides(d, GcdPair(g, v)) <==> DividesAll(d, n)
    {
      GcdPairMeaning(d, g, v);
      if Divides(d, v) && DividesAll(d, m) {
        assert forall i | i in n :: i == id || (i in m && n[i] == m[i]);
      }
      if DividesAll(d, n) {
        assert id in n && n[id] == v;
        assert forall i | i in m :: i in n && n[i] == m[i];
      }
    }
  }

  lemma GcdOfNothing()
    ensures IsGcd(0, map[])
  {
    forall d: nat
      ensures Divides(d, 0)
    {
      DividesSelf(d);
    }
  }

  ghost predicate Positive(m: Weights) {
    forall id | id in m :: m[id] > 0
  }

  lemma GcdPositive(g: nat, m: Weights)
    requires IsGcd(g, m) && Positive(m) && m != map[]
    ensures g > 0
  {
    DividesSelf(g);
    var id :| id in m;
    var k: nat :| m[id] == g * k;
  }

  function Scaled(m: Weights, g: nat): Weights
    requires g > 0
  {
    map id | id in m :: m[id] / g
  }

  lemma ScaledBack(m: Weights, g: nat, id: string)
    requires g > 0 && IsGcd(g, m) && id in m
    ensures m[id] == Scaled(m, g)[id] * g
  {
    DividesSelf(g);
    assert Divides(g, m[id]);
    var k: nat :| m[id] == g * k;
    Quotient(g, k);
  }

  lemma Quotient(g: nat, k: nat)
    requires g > 0
    ensures (g * k) / g == k
  {
    var n := g * k;
    var q, r := n / g, n % g;
    assert n == g * q + r;
    if q < k {
      StrictScale(g, q, k);
    } else if k < q {
      StrictScale(g, k, q);
    }
  }

  // ---------- what the patch promises ----------

  /** `w` is `m` divided by its greatest common divisor. */
  ghost predicate IsNormalized(m: Weights, w: Weights) {
    if m == map[] then w == map[] else exists g: nat | g > 0 && IsGcd(g, m) :: w == Scaled(m, g)
  }

  /** There is one normal form, so no iteration order can show. */
  lemma NormalizedUnique(m: Weights, v: Weights, w: Weights)
    requires IsNormalized(m, v) && IsNormalized(m, w)
    ensures v == w
  {
    if m != map[] {
      var g: nat :| g > 0 && IsGcd(g, m) && v == Scaled(m, g);
      var h: nat :| h > 0 && IsGcd(h, m) && w == Scaled(m, h);
      GcdUnique(g, h, m);
    }
  }

  lemma NormalizedKeys(m: Weights, w: Weights)
    requires IsNormalized(m, w)
    ensures w.Keys == m.Keys
  {
    if m != map[] {
      var g: nat :| g > 0 && IsGcd(g, m) && w == Scaled(m, g);
    }
  }

  lemma NormalizedKeepsRatios(m: Weights, w: Weights, x: string, y: string)
    requires IsNormalized(m, w) && x in m && y in m
    ensures x in w && y in w && w[x] * m[y] == w[y] * m[x]
  {
    var g: nat :| g > 0 && IsGcd(g, m) && w == Scaled(m, g);
    ScaledBack(m, g, x);
    ScaledBack(m, g, y);
    hide *;
    CrossMultiply(w[x], w[y], g);
  }

  lemma CrossMultiply(a: nat, b: nat, g: nat)
    ensures a * (b * g) == b * (a * g)
  {
  }

  lemma NormalizedPositive(m: Weights, w: Weights)
    requires IsNormalized(m, w) && Positive(m)
    ensures Positive(w) && w.Keys == m.Keys
  {
    if m != map[] {
      var g: nat :| g > 0 && IsGcd(g, m) && w == Scaled(m, g);
      forall id | id in w
        ensures w[id] > 0
      {
        ScaledBack(m, g, id);
      }
    }
  }

  /** Nothing but 1 divides all the normalized weights. */
  lemma NormalizedCoprime(m: Weights, w: Weights, d: nat)
    requires IsNormalized(m, w) && Positive(m) && m != map[]
    requires DividesAll(d, w)
    ensures d == 1
  {
    var g: nat :| g > 0 && IsGcd(g, m) && w == Scaled(m, g);
    forall id | id in m
      ensures Divides(d * g, m[id])
    {
      ScaledBack(m, g, id);
      DividesScaled(d, w[id], g);
    }
    assert DividesAll(d * g, m);
    assert Divides(d * g, g);
    UnitDivisor(g, d);
  }

  lemma DividesScaled(d: nat, n: nat, g: nat)
    requires Divides(d, n)
    ensures Divides(d * g, n * g)
  {
    var k: nat :| n == d * k;
    assert (d * k) * g == (d * g) * k;
    DividesTimes(d * g, n * g, k);
  }

  lemma UnitDivisor(g: nat, d: nat)
    requires g > 0 && Divides(d * g, g)
    ensures d == 1
  {
    var j: nat :| g == (d * g) * j;
    assert (d * g) * j == g * (d * j);
    UnitProduct(g, d, j);
  }

  lemma UnitProduct(g: nat, d: nat, j: nat)
    requires g > 0 && g == g * (d * j)
    ensures d == 1
  {
    if d * j == 0 {
    } else if d * j >= 2 {
      AtLeastTwice(g, d * j);
    } else {
      if d >= 2 {
        AtLeast(d, j);
      }
    }
  }

  lemma AtLeastTwice(g: nat, x: nat)
    requires x >= 2
    ensures g * x >= g + g
  {
    assert g * x == g + g + g * (x - 2);
  }

  /** Normalizing what is already normal changes nothing: re-applying an empty patch is the
      identity. */
  lemma NormalizedIdempotent(m: Weights, w: Weights, v: Weights)
    requires IsNormalized(m, w) && IsNormalized(w, v) && Positive(m)
    ensures v == w
  {
    if m != map[] {
      NormalizedPositive(m, w);
      NormalizedKeys(m, w);
      var id :| id in m;
      assert id in w;
      var g: nat :| g > 0 && IsGcd(g, w) && v == Scaled(w, g);
      DividesSelf(g);
      NormalizedCoprime(m, w, g);
    }
  }

  // ---------- the code ----------

  method Gcd(a0: nat, b0: nat) returns (g: nat)
    ensures g == GcdPair(a0, b0)
  {
    var a, b := a0, b0;
    while b != 0
      invariant GcdPair(a, b) == GcdPair(a0, b0)
      decreases b
    {
      a, b := b, a % b;
    }
    g := a;
  }

  /** The running gcd of the values, visited in any order. */
  method GcdOfValues(m: Weights) returns (g: nat)
    ensures IsGcd(g, m)
  {
    g := 0;
    var rest := m.Keys;
    ghost var seen: Weights := map[];
    GcdOfNothing();
    while rest != {}
      invariant rest <= m.Keys
      invariant seen.Keys == m.Keys - rest
      invariant forall id | id in seen :: seen[id] == m[id]
      invariant IsGcd(g, seen)
      decreases rest
    {
      var id :| id in rest;
      GcdExtend(g, seen, id, m[id]);
      g := Gcd(g, m[id]);
      seen := seen[id := m[id]];
      rest := rest - {id};
    }
    assert seen == m;
  }

  /** Refuses a patch naming an unknown block or a zero weight (which of the two it reports
      depends on the iteration order); otherwise returns the normal form of the merge. */
  method NormalizeWeights(current: Weights, patch: Weights) returns (r: Result)
    requires Positive(current)
    ensures r.Err? <==> exists id | id in patch :: id !in current || patch[id] == 0
    ensures r == Err(UnknownBlock) ==> exists id | id in patch :: id !in current
    ensures r == Err(ZeroWeight) ==> exists id | id in patch :: patch[id] == 0
    ensures r.Ok? ==> IsNormalized(current + patch, r.weights) && r.weights.Keys == current.Keys
  {
    var merged: Weights := map[];
    var rest := patch.Keys;
    while rest != {}
      invariant rest <= patch.Keys
      invariant merged.Keys == patch.Keys - rest
      invariant forall id | id in merged :: id in current && merged[id] == patch[id] && patch[id] > 0
      decreases rest
    {
      var id :| id in rest;
      if id !in current {
        return Err(UnknownBlock);
      }
      if patch[id] == 0 {
        return Err(ZeroWeight);
      }
      merged := merged[id := patch[id]];
      rest := rest - {id};
    }
    rest := current.Keys;
    while rest != {}
      invariant rest <= current.Keys
      invariant merged.Keys == patch.Keys + (current.Keys - rest)
      invariant forall id | id in merged :: merged[id] == (if id in patch then patch[id] else current[id])
      decreases rest
    {
      var id :| id in rest;
      if id !in merged {
        merged := merged[id := current[id]];
      }
      rest := rest - {id};
    }
    assert merged == current + patch;
    var g := GcdOfValues(merged);
    if merged != map[] {
      GcdPositive(g, merged);
    }
    if g > 1 {
      r := Ok(Scaled(merged, g));
    } else {
      assert g == 1 ==> Scaled(merged, 1) == merged;
      r := Ok(merged);
    }
  }
}
