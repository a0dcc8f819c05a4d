/** The lazily refilled token bucket and the ideal bucket it stands for. Instants are
    nanoseconds; token amounts are exact reals. */
module TokenBucket {

  datatype Bucket = Bucket(rps: real, burst: real, tokens: real, last: int)

  function Min(a: real, b: real): real {
    if a <= b then a else b
  }

  function Seconds(d: int): real {
    d as real / 1_000_000_000.0
  }

  /** Tokens accrued at `rps` over `d` nanoseconds. */
  function Gain(rps: real, d: int): real {
    Seconds(d) * rps
  }

  function NewBucket(rps: real, burst: real, now: int): Bucket {
    Bucket(rps, burst, burst, now)
  }

  /** The clock is read twice: `now` becomes the refill instant, `since` measures the time
      elapsed. */
  function Refill(b: Bucket, now: int, since: int): Bucket {
    var elapsed := since - b.last;
    if elapsed <= 0 then b.(last := now)
    else b.(last := now, tokens := Min(b.burst, b.tokens + Gain(b.rps, elapsed)))
  }

  function Grants(b: Bucket, n: real, now: int, since: int): bool {
    b.rps <= 0.0 || Refill(b, now, since).tokens >= n
  }

  function Take(b: Bucket, n: real, now: int, since: int): Bucket {
    if b.rps <= 0.0 then b
    else
      var r := Refill(b, now, since);
      if r.tokens < n then r else r.(tokens := r.tokens - n)
  }

  /** The uncapped return of a token just taken. */
  function GiveBack(b: Bucket, n: real): Bucket {
    b.(tokens := b.tokens + n)
  }

  /** The capped return of an unused reservation. */
  function Refund(b: Bucket, n: real): Bucket {
    if n <= 0.0 then b else b.(tokens := Min(b.burst, b.tokens + n))
  }

  /** A bucket with a positive rate holds between nothing and its burst. */
  predicate Good(b: Bucket) {
    b.rps > 0.0 ==> 0.0 <= b.tokens <= b.burst
  }

  // ---------- arithmetic ----------

  lemma GainAdd(rps: real, a: int, b: int)
    ensures Gain(rps, a + b) == Gain(rps, a) + Gain(rps, b)
  {
    assert Seconds(a + b) == Seconds(a) + Seconds(b);
    Distribute(Seconds(a), Seconds(b), rps);
  }

  lemma Distribute(x: real, y: real, z: real)
    ensures (x + y) * z == x * z + y * z
  {
  }

  lemma GainSign(rps: real, d: int)
    requires rps > 0.0
    ensures d >= 0 ==> Gain(rps, d) >= 0.0
    ensures d > 0 ==> Gain(rps, d) > 0.0
    ensures d == 0 ==> Gain(rps, d) == 0.0
  {
    var x := Seconds(d);
    if d > 0 {
      assert x > 0.0;
    }
  }

  lemma GainOrder(rps: real, a: int, b: int)
    requires rps > 0.0 && a <= b
    ensures Gain(rps, a) <= Gain(rps, b)
  {
    GainAdd(rps, a, b - a);
    GainSign(rps, b - a);
  }

  /** Instants are nanoseconds and rates are per second. */
  lemma GainIs(rps: real, d: int)
    ensures Gain(rps, d) == rps * (d as real / 1_000_000_000.0)
  {
  }

  // ---------- refinement of the ideal bucket ----------

  /** The ideal bucket, filling continuously: what it holds at `t`. */
  function Level(b: Bucket, t: int): real {
    Min(b.burst, b.tokens + Gain(b.rps, t - b.last))
  }

  /** The ideal bucket, written out. */
  lemma LevelIs(b: Bucket, t: int)
    ensures var full := b.tokens + b.rps * ((t - b.last) as real / 1_000_000_000.0);
            Level(b, t) == if full <= b.burst then full else b.burst
  {
    GainIs(b.rps, t - b.last);
    hide Gain;
  }

  /** A refill stores what the ideal bucket holds at the second reading, dated with the first. */
  lemma RefillIsLevel(b: Bucket, now: int, since: int)
    requires b.rps > 0.0 && Good(b) && b.last <= now <= since
    ensures Refill(b, now, since) == b.(last := now, tokens := Level(b, since))
    ensures var full := b.tokens + b.rps * ((since - b.last) as real / 1_000_000_000.0);
            Refill(b, now, since).tokens == if full <= b.burst then full else b.burst
  {
    GainSign(b.rps, since - b.last);
    LevelIs(b, since);
  }

  /** The level seen from a later moment depends only on the level now. */
  lemma LevelAdvances(b: Bucket, t: int, u: int)
    requires b.rps > 0.0 && b.last <= t <= u
    ensures Level(b, u) == Min(b.burst, Level(b, t) + Gain(b.rps, u - t))
  {
    GainAdd(b.rps, t - b.last, u - t);
    GainSign(b.rps, u - t);
    assert (t - b.last) + (u - t) == u - b.last;
  }

  /** The time between two readings `now` and `since` of one refill counts twice, and shows at
      `u` unless the bucket would be full by then. */
  predicate GapIsHarmless(b: Bucket, now: int, since: int, u: int) {
    now == since || b.tokens + Gain(b.rps, u - b.last) >= b.burst
  }

  /** How a refill differs from the ideal bucket, seen at any later moment. */
  lemma LevelAfterRefillIff(b: Bucket, now: int, since: int, u: int)
    requires b.rps > 0.0 && Good(b) && b.last <= now <= since <= u
    ensures Level(Refill(b, now, since), u) == Level(b, u) <==> GapIsHarmless(b, now, since, u)
  {
    hide Gain;
    RefillIsLevel(b, now, since);
    GainSign(b.rps, since - b.last);
    GainSign(b.rps, since - now);
    GainSign(b.rps, u - since);
    SplitGain(b.rps, b.last, since, u);
    SplitGain(b.rps, now, since, u);
  }

  /** Refilling at one pair of readings and then at another is refilling once at the later pair,
      exactly when the first pair's gap is harmless by then; with coinciding readings, always. */
  lemma RefillPathIndependentIff(b: Bucket, a: int, a': int, c: int, c': int)
    requires b.rps > 0.0 && Good(b) && b.last <= a <= a' <= c <= c'
    ensures Refill(Refill(b, a, a'), c, c') == Refill(b, c, c') <==> GapIsHarmless(b, a, a', c')
  {
    hide Gain;
    GainSign(b.rps, a' - b.last);
    RefillIsLevel(b, a, a');
    RefillIsLevel(Refill(b, a, a'), c, c');
    RefillIsLevel(b, c, c');
    LevelAfterRefillIff(b, a, a', c');
  }

  /** A refill is faithful to the ideal bucket for ever exactly when its readings coincide or
      the bucket is full. */
  lemma RefillFaithfulIff(b: Bucket, now: int, since: int)
    requires b.rps > 0.0 && Good(b) && b.last <= now <= since
    ensures (forall u | since <= u :: Level(Refill(b, now, since), u) == Level(b, u)) <==>
              GapIsHarmless(b, now, since, since)
  {
    hide Gain, GapIsHarmless, Level, Refill;
    forall u | since <= u
      ensures GapIsHarmless(b, now, since, since) ==> Level(Refill(b, now, since), u) == Level(b, u)
    {
      LevelAfterRefillIff(b, now, since, u);
      HarmlessLater(b, now, since, since, u);
    }
    LevelAfterRefillIff(b, now, since, since);
  }

  lemma HarmlessLater(b: Bucket, now: int, since: int, t: int, u: int)
    requires b.rps > 0.0 && t <= u
    ensures GapIsHarmless(b, now, since, t) ==> GapIsHarmless(b, now, since, u)
  {
    GainOrder(b.rps, t - b.last, u - b.last);
  }

  lemma SplitGain(rps: real, a: int, b: int, c: int)
    ensures Gain(rps, c - a) == Gain(rps, b - a) + Gain(rps, c - b)
  {
    GainAdd(rps, b - a, c - b);
    assert (b - a) + (c - b) == c - a;
  }

  // ---------- the rate bound, as a potential ----------

  function Later(a: int, b: int): int {
    if a <= b then b else a
  }

  /** What the bucket holds plus what was drawn from it since `s` is covered by one burst,
      the accrual since `s`, and the time between double clock readings (`gaps`). */
  predicate Covered(b: Bucket, drawn: real, s: int, gaps: int) {
    && b.tokens + drawn <= b.burst + Gain(b.rps, Later(b.last, s) - s) + Gain(b.rps, gaps)
    && (b.last < s ==> drawn <= 0.0)
  }

  lemma CoveredAtStart(b: Bucket, s: int)
    requires b.rps > 0.0 && Good(b)
    ensures Covered(b, 0.0, s, 0)
  {
    GainSign(b.rps, Later(b.last, s) - s);
    GainSign(b.rps, 0);
  }

  lemma RefillCovered(b: Bucket, drawn: real, s: int, gaps: int, now: int, since: int)
    requires b.rps > 0.0 && Good(b) && gaps >= 0
    requires Covered(b, drawn, s, gaps) && b.last <= now <= since && s <= now
    ensures Covered(Refill(b, now, since), drawn, s, gaps + (since - now)) && Good(Refill(b, now, since))
  {
    hide Gain;
    var r := Refill(b, now, since);
    GainAdd(b.rps, gaps, since - now);
    GainSign(b.rps, gaps);
    GainSign(b.rps, since - now);
    GainSign(b.rps, now - s);
    GainSign(b.rps, since - b.last);
    if b.last >= s {
      SplitGain(b.rps, b.last, now, since);
      SplitGain(b.rps, s, b.last, now);
      GainSign(b.rps, now - b.last);
    }
  }

  lemma TakeCovered(b: Bucket, n: real, drawn: real, s: int, gaps: int, now: int, since: int)
    requires b.rps > 0.0 && Good(b) && gaps >= 0 && n >= 0.0
    requires Covered(b, drawn, s, gaps) && b.last <= now <= since && s <= now
    ensures Covered(Take(b, n, now, since), if Grants(b, n, now, since) then drawn + n else drawn, s,
                    gaps + (since - now))
    ensures Good(Take(b, n, now, since)) && Take(b, n, now, since).last == now
  {
    hide Gain;
    RefillCovered(b, drawn, s, gaps, now, since);
  }

  /** Giving back what was just taken uncounts it. */
  lemma GiveBackCovered(b: Bucket, n: real, drawn: real, s: int, gaps: int)
    requires n >= 0.0 && Covered(b, drawn, s, gaps)
    ensures Covered(GiveBack(b, n), drawn - n, s, gaps)
  {
    hide Gain;
  }

  /** A take is decided by the ideal level at the second reading and takes exactly what it grants. */
  lemma TakeIs(b: Bucket, n: real, now: int, since: int)
    requires b.rps > 0.0 && Good(b) && b.last <= now <= since
    ensures Grants(b, n, now, since) <==> Level(b, since) >= n
    ensures Take(b, n, now, since)
            == b.(last := now, tokens := if Level(b, since) >= n then Level(b, since) - n else Level(b, since))
  {
    hide Gain;
    RefillIsLevel(b, now, since);
  }

  /** A capped credit uncounts at least what it puts back. */
  lemma RefundCovered(b: Bucket, n: real, drawn: real, s: int, gaps: int)
    requires n > 0.0 && Covered(b, drawn, s, gaps)
    ensures Covered(Refund(b, n), drawn - n, s, gaps)
  {
    hide Gain;
  }

  /** No more than the burst and what accrues over `d` nanoseconds at `rps` a second. */
  predicate Within(amount: real, burst: real, rps: real, d: int) {
    amount <= burst + rps * (d as real / 1_000_000_000.0)
  }

  lemma GainWithin(amount: real, burst: real, rps: real, d: int)
    requires amount <= burst + Gain(rps, d)
    ensures Within(amount, burst, rps, d)
  {
  }

  lemma WithinMeans(amount: real, burst: real, rps: real, d: int)
    requires Within(amount, burst, rps, d)
    ensures amount <= burst + rps * (d as real / 1_000_000_000.0)
  {
  }

  /** A drawn amount that is covered is bounded by burst + rate * time. */
  lemma CoveredBound(b: Bucket, drawn: real, s: int, e: int, gaps: int)
    requires b.rps > 0.0 && Good(b) && Covered(b, drawn, s, gaps) && s <= e && b.last <= e
    ensures Within(drawn, b.burst, b.rps, e - s + gaps)
  {
    hide Gain, Within;
    GainOrder(b.rps, Later(b.last, s) - s, e - s);
    GainAdd(b.rps, e - s, gaps);
    GainWithin(drawn, b.burst, b.rps, e - s + gaps);
  }

  // ---------- the code ----------

  class TokenBucket {
    const rps: real
    const burst: real
    var tokens: real
    var last: int

    function View(): Bucket
      reads this
    {
      Bucket(rps, burst, tokens, last)
    }

    constructor (rps: real, burst: real, now: int)
      ensures View() == NewBucket(rps, burst, now)
      ensures this.rps == rps && this.burst == burst && tokens == burst && last == now
    {
      this.rps, this.burst, tokens, last := rps, burst, burst, now;
    }

    method RefillNow(now: int, since: int)
      modifies this
      ensures View() == Refill(old(View()), now, since)
      ensures var full := old(tokens) + rps * ((since - old(last)) as real / 1_000_000_000.0);
              last == now && tokens == if since <= old(last) then old(tokens) else if full <= burst then full else burst
    {
      var elapsed := since - last;
      GainIs(rps, elapsed);
      last := now;
      if elapsed <= 0 {
        return;
      }
      tokens := tokens + Gain(rps, elapsed);
      if tokens > burst {
        tokens := burst;
      }
    }

    method TryTake(n: real, now: int, since: int) returns (ok: bool)
      modifies this
      ensures View() == Take(old(View()), n, now, since)
      ensures ok == Grants(old(View()), n, now, since)
      ensures rps <= 0.0 ==> ok && View() == old(View())
      ensures rps > 0.0 && Good(old(View())) && old(last) <= now <= since ==>
                && (ok <==> Level(old(View()), since) >= n)
                && tokens == Level(old(View()), since) - (if ok then n else 0.0)
    {
      if rps > 0.0 && Good(View()) && last <= now <= since {
        TakeIs(View(), n, now, since);
      }
      if rps <= 0.0 {
        return true;
      }
      RefillNow(now, since);
      if tokens < n {
        return false;
      }
      tokens := tokens - n;
      return true;
    }
  }
}
