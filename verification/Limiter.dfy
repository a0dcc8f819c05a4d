/** Two-tier admission: a per-target bucket, a global bucket and an optional byte bucket,
    with rollback when a later tier refuses. */
module Limiter {
  import opened Basics
  import opened TokenBucket

  type TargetID = string

  /** The clock readings of one call, in the order the code takes them: at bucket creation
      and twice per bucket. */
  datatype Reads = Reads(create: int, ptNow: int, ptSince: int, gNow: int, gSince: int, bNow: int, bSince: int)

  predicate InOrder(r: Reads) {
    r.create <= r.ptNow <= r.ptSince <= r.gNow <= r.gSince <= r.bNow <= r.bSince
  }

  /** A clock that stands still during the call. */
  function Frozen(t: int): Reads {
    Reads(t, t, t, t, t, t, t)
  }

  datatype Limiter = Limiter(perTarget: map<TargetID, Bucket>, global: Bucket, bytes: Option<Bucket>, ptRPS: real)

  datatype Outcome = Admitted(reserved: real) | TargetCap | GlobalCap | ByteCap

  /** At least one token of burst for any positive rate. */
  function Max1(rps: real): (burst: real)
    ensures rps > 0.0 ==> burst >= 1.0 && burst >= rps && (burst == 1.0 || burst == rps)
    ensures rps <= 0.0 ==> burst == 0.0
  {
    if rps <= 0.0 then 0.0 else if rps < 1.0 then 1.0 else rps
  }

  function BucketFor(l: Limiter, x: TargetID, create: int): Bucket {
    if x in l.perTarget then l.perTarget[x] else NewBucket(l.ptRPS, Max1(l.ptRPS), create)
  }

  function Reserve(l: Limiter, est: int): real {
    if l.bytes.Some? && est > 0 then est as real else 0.0
  }

  function Decide(l: Limiter, x: TargetID, est: int, r: Reads): Outcome {
    if !Grants(BucketFor(l, x, r.create), 1.0, r.ptNow, r.ptSince) then TargetCap
    else if !Grants(l.global, 1.0, r.gNow, r.gSince) then GlobalCap
    else if l.bytes.Some? && est > 0 && !Grants(l.bytes.value, est as real, r.bNow, r.bSince) then ByteCap
    else Admitted(Reserve(l, est))
  }

  function Acquire(l: Limiter, x: TargetID, est: int, r: Reads): Limiter {
    var out := Decide(l, x, est, r);
    var pt := Take(BucketFor(l, x, r.create), 1.0, r.ptNow, r.ptSince);
    var g := Take(l.global, 1.0, r.gNow, r.gSince);
    var b := if l.bytes.Some? && est > 0 then Some(Take(l.bytes.value, est as real, r.bNow, r.bSince)) else l.bytes;
    match out
    case TargetCap => l.(perTarget := l.perTarget[x := pt])
    case GlobalCap => l.(perTarget := l.perTarget[x := GiveBack(pt, 1.0)], global := g)
    case ByteCap => l.(perTarget := l.perTarget[x := GiveBack(pt, 1.0)], global := GiveBack(g, 1.0), bytes := b)
    case Admitted(_) => l.(perTarget := l.perTarget[x := pt], global := g, bytes := b)
  }

  /** Only the asked target's bucket changes among the targets' buckets. */
  lemma AcquireShape(l: Limiter, x: TargetID, est: int, r: Reads)
    ensures var m := Acquire(l, x, est, r);
            x in m.perTarget && m == Limiter(l.perTarget[x := m.perTarget[x]], m.global, m.bytes, l.ptRPS)
  {
  }

  function ReturnBytes(l: Limiter, n: real): Limiter {
    if l.bytes.None? then l else l.(bytes := Some(Refund(l.bytes.value, n)))
  }

  datatype Call = Ask(x: TargetID, est: int, r: Reads) | Return(n: real)

  function Step(l: Limiter, c: Call): Limiter {
    match c
    case Ask(x, est, r) => Acquire(l, x, est, r)
    case Return(n) => ReturnBytes(l, n)
  }

  function Run(l: Limiter, calls: seq<Call>): Limiter {
    if calls == [] then l else Step(Run(l, calls[..|calls| - 1]), calls[|calls| - 1])
  }

  predicate AdmittedBy(l: Limiter, c: Call) {
    c.Ask? && Decide(l, c.x, c.est, c.r).Admitted?
  }

  /** Admissions for one target in a run, and admissions in all. */
  function AdmittedFor(l: Limiter, calls: seq<Call>, x: TargetID): nat {
    if calls == [] then 0
    else
      var front, c := calls[..|calls| - 1], calls[|calls| - 1];
      AdmittedFor(l, front, x) + if AdmittedBy(Run(l, front), c) && c.x == x then 1 else 0
  }

  function AdmittedInAll(l: Limiter, calls: seq<Call>): nat {
    if calls == [] then 0
    else
      var front, c := calls[..|calls| - 1], calls[|calls| - 1];
      AdmittedInAll(l, front) + if AdmittedBy(Run(l, front), c) then 1 else 0
  }

  /** Time lost between the double readings, per tier; zero for a clock that stands still
      during calls. */
  function TargetGaps(calls: seq<Call>, x: TargetID): int {
    if calls == [] then 0
    else
      var c := calls[|calls| - 1];
      TargetGaps(calls[..|calls| - 1], x) + if c.Ask? && c.x == x then c.r.ptSince - c.r.ptNow else 0
  }

  function GlobalGaps(calls: seq<Call>): int {
    if calls == [] then 0
    else
      var c := calls[|calls| - 1];
      GlobalGaps(calls[..|calls| - 1]) + if c.Ask? then c.r.gSince - c.r.gNow else 0
  }

  /** Bytes reserved in a run, less the bytes credited back. */
  function NetBytes(l: Limiter, calls: seq<Call>): real {
    if calls == [] then 0.0
    else
      var front, c := calls[..|calls| - 1], calls[|calls| - 1];
      NetBytes(l, front) + Charge(Run(l, front), c)
  }

  function Charge(l: Limiter, c: Call): real {
    match c
    case Ask(x, est, r) => if Decide(l, x, est, r).Admitted? then Reserve(l, est) else 0.0
    case Return(n) => if n <= 0.0 then 0.0 else -n
  }

  function ByteGaps(calls: seq<Call>): int {
    if calls == [] then 0
    else
      var c := calls[|calls| - 1];
      ByteGaps(calls[..|calls| - 1]) + if c.Ask? then c.r.bSince - c.r.bNow else 0
  }

  // ---------- the invariant ----------

  /** Every bucket is within its bounds and no refill instant lies after `t`. */
  ghost predicate Valid(l: Limiter, t: int) {
    && (forall x | x in l.perTarget :: PtOk(l, l.perTarget[x], t))
    && Good(l.global) && l.global.last <= t && (l.global.rps > 0.0 ==> l.global.burst >= 1.0)
    && (l.bytes.Some? ==> Good(l.bytes.value) && l.bytes.value.last <= t)
  }

  predicate PtOk(l: Limiter, b: Bucket, t: int) {
    b.rps == l.ptRPS && b.burst == Max1(l.ptRPS) && Good(b) && b.last <= t
  }

  /** Calls read the clock in order, each after the one before, all within [s, e]. */
  ghost predicate Timed(calls: seq<Call>, s: int, e: int) {
    s <= e &&
    if calls == [] then true
    else
      var c := calls[|calls| - 1];
      match c
      case Ask(_, _, r) => InOrder(r) && r.bSince <= e && Timed(calls[..|calls| - 1], s, r.create)
      case Return(_) => Timed(calls[..|calls| - 1], s, e)
  }

  lemma GoodTake(b: Bucket, n: real, now: int, since: int)
    requires Good(b) && n >= 0.0 && b.last <= now <= since
    ensures Good(Take(b, n, now, since)) && Take(b, n, now, since).last <= now
    ensures b.rps > 0.0 && Grants(b, n, now, since) ==> Take(b, n, now, since).tokens <= b.burst - n
  {
    if b.rps > 0.0 {
      GainSign(b.rps, since - b.last);
    }
  }

  lemma BucketForOk(l: Limiter, x: TargetID, create: int, t: int)
    requires Valid(l, t) && create >= t
    ensures PtOk(l, BucketFor(l, x, create), create)
  {
  }

  lemma AcquireValid(l: Limiter, x: TargetID, est: int, r: Reads, t: int)
    requires Valid(l, t) && InOrder(r) && t <= r.create
    ensures Valid(Acquire(l, x, est, r), r.bSince)
  {
    hide Take, Grants;
    BucketForOk(l, x, r.create, t);
    GoodTake(BucketFor(l, x, r.create), 1.0, r.ptNow, r.ptSince);
    TakeKeeps(BucketFor(l, x, r.create), 1.0, r.ptNow, r.ptSince);
    GoodTake(l.global, 1.0, r.gNow, r.gSince);
    TakeKeeps(l.global, 1.0, r.gNow, r.gSince);
    if l.bytes.Some? && est > 0 {
      GoodTake(l.bytes.value, est as real, r.bNow, r.bSince);
      TakeKeeps(l.bytes.value, est as real, r.bNow, r.bSince);
    }
  }

  lemma TakeKeeps(b: Bucket, n: real, now: int, since: int)
    ensures Take(b, n, now, since).rps == b.rps && Take(b, n, now, since).burst == b.burst
  {
  }

  lemma StepValid(l: Limiter, c: Call, t: int, e: int)
    requires Valid(l, t) && t <= e
    requires c.Ask? ==> InOrder(c.r) && t <= c.r.create && c.r.bSince <= e
    ensures Valid(Step(l, c), e)
  {
    match c
    case Ask(x, est, r) => AcquireValid(l, x, est, r, t);
    case Return(n) =>
  }

  /** In every run, no bucket with a positive rate ever holds a negative amount or more than
      its burst, whatever was rolled back or refunded. */
  lemma {:induction false} RunValid(l: Limiter, calls: seq<Call>, s: int, e: int)
    requires Valid(l, s) && Timed(calls, s, e)
    ensures Valid(Run(l, calls), e)
  {
    if calls != [] {
      var front, c := calls[..|calls| - 1], calls[|calls| - 1];
      var t := if c.Ask? then c.r.create else e;
      RunValid(l, front, s, t);
      StepValid(Run(l, front), c, t, e);
    }
  }

  // ---------- the rate bound ----------

  lemma {:induction false} GapsNonNegative(calls: seq<Call>, x: TargetID, s: int, e: int)
    requires Timed(calls, s, e)
    ensures TargetGaps(calls, x) >= 0 && GlobalGaps(calls) >= 0 && ByteGaps(calls) >= 0
  {
    if calls != [] {
      var c := calls[|calls| - 1];
      GapsNonNegative(calls[..|calls| - 1], x, s, if c.Ask? then c.r.create else e);
    }
  }

  /** One call's effect on the bucket of the target it asks for. */
  lemma TargetCovered(l: Limiter, c: Call, drawn: real, s: int, gaps: int, t: int)
    requires c.Ask? && InOrder(c.r) && t <= c.r.create && s <= t && gaps >= 0
    requires Valid(l, t) && l.ptRPS > 0.0
    requires Covered(BucketFor(l, c.x, s), drawn, s, gaps)
    ensures Covered(BucketFor(Step(l, c), c.x, s), if AdmittedBy(l, c) then drawn + 1.0 else drawn, s,
                    gaps + (c.r.ptSince - c.r.ptNow))
  {
    hide Take, Grants, Covered, Gain;
    var b := BucketFor(l, c.x, c.r.create);
    BucketForOk(l, c.x, c.r.create, t);
    FreshCovered(l, c.x, c.r.create, drawn, s, gaps);
    TakeCovered(b, 1.0, drawn, s, gaps, c.r.ptNow, c.r.ptSince);
    var taken := Take(b, 1.0, c.r.ptNow, c.r.ptSince);
    if Grants(b, 1.0, c.r.ptNow, c.r.ptSince) {
      GiveBackCovered(taken, 1.0, drawn + 1.0, s, gaps + (c.r.ptSince - c.r.ptNow));
      assert drawn + 1.0 - 1.0 == drawn;
    }
  }

  /** A bucket created later is no worse than one created at the window's start. */
  lemma FreshCovered(l: Limiter, x: TargetID, create: int, drawn: real, s: int, gaps: int)
    requires s <= create && l.ptRPS > 0.0 && Covered(BucketFor(l, x, s), drawn, s, gaps)
    ensures Covered(BucketFor(l, x, create), drawn, s, gaps)
  {
    if x !in l.perTarget {
      GainOrder(l.ptRPS, 0, create - s);
    }
  }

  lemma GlobalCovered(l: Limiter, c: Call, drawn: real, s: int, gaps: int, t: int)
    requires c.Ask? && InOrder(c.r) && t <= c.r.create && s <= t && gaps >= 0
    requires Valid(l, t) && l.global.rps > 0.0
    requires Covered(l.global, drawn, s, gaps)
    ensures Covered(Step(l, c).global, if AdmittedBy(l, c) then drawn + 1.0 else drawn, s,
                    gaps + (c.r.gSince - c.r.gNow))
  {
    hide Take, Grants, Covered, Gain;
    TakeCovered(l.global, 1.0, drawn, s, gaps, c.r.gNow, c.r.gSince);
    var taken, more := Take(l.global, 1.0, c.r.gNow, c.r.gSince), gaps + (c.r.gSince - c.r.gNow);
    if Decide(l, c.x, c.est, c.r).ByteCap? {
      GiveBackCovered(taken, 1.0, drawn + 1.0, s, more);
      assert drawn + 1.0 - 1.0 == drawn;
    } else if Decide(l, c.x, c.est, c.r).TargetCap? {
      MoreGaps(l.global, drawn, s, gaps, more);
    }
  }

  lemma MoreGaps(b: Bucket, drawn: real, s: int, gaps: int, more: int)
    requires b.rps > 0.0 && gaps <= more && Covered(b, drawn, s, gaps)
    ensures Covered(b, drawn, s, more)
  {
    GainOrder(b.rps, gaps, more);
  }

  lemma OtherTarget(l: Limiter, c: Call, x: TargetID, s: int)
    requires c.Return? || c.x != x
    ensures BucketFor(Step(l, c), x, s) == BucketFor(l, x, s)
  {
  }

  lemma {:induction false} TargetCoveredRun(l: Limiter, calls: seq<Call>, x: TargetID, s: int, e: int)
    requires Valid(l, s) && Timed(calls, s, e) && l.ptRPS > 0.0
    ensures Run(l, calls).ptRPS == l.ptRPS
    ensures Covered(BucketFor(Run(l, calls), x, s), AdmittedFor(l, calls, x) as real, s, TargetGaps(calls, x))
  {
    if calls == [] {
      CoveredAtStart(BucketFor(l, x, s), s);
    } else {
      hide Covered, Take, Grants, Valid, Gain;
      var front, c := calls[..|calls| - 1], calls[|calls| - 1];
      var t := if c.Ask? then c.r.create else e;
      TargetCoveredRun(l, front, x, s, t);
      RunValid(l, front, s, t);
      GapsNonNegative(front, x, s, t);
      if c.Ask? && c.x == x {
        TargetCovered(Run(l, front), c, AdmittedFor(l, front, x) as real, s, TargetGaps(front, x), t);
      } else {
        OtherTarget(Run(l, front), c, x, s);
      }
    }
  }

  lemma {:induction false} GlobalCoveredRun(l: Limiter, calls: seq<Call>, s: int, e: int)
    requires Valid(l, s) && Timed(calls, s, e) && l.global.rps > 0.0
    ensures Run(l, calls).global.rps == l.global.rps && Run(l, calls).global.burst == l.global.burst
    ensures Covered(Run(l, calls).global, AdmittedInAll(l, calls) as real, s, GlobalGaps(calls))
  {
    if calls == [] {
      CoveredAtStart(l.global, s);
    } else {
      var front, c := calls[..|calls| - 1], calls[|calls| - 1];
      var t := if c.Ask? then c.r.create else e;
      GlobalCoveredRun(l, front, s, t);
      RunValid(l, front, s, t);
      GapsNonNegative(front, "", s, t);
      hide Covered, Take, Grants, Valid, Gain;
      if c.Ask? {
        TakeKeeps(Run(l, front).global, 1.0, c.r.gNow, c.r.gSince);
        GlobalCovered(Run(l, front), c, AdmittedInAll(l, front) as real, s, GlobalGaps(front), t);
      }
    }
  }

  lemma ByteCovered(l: Limiter, c: Call, drawn: real, s: int, gaps: int, t: int)
    requires c.Ask? ==> InOrder(c.r) && t <= c.r.create
    requires s <= t && gaps >= 0 && Valid(l, t) && l.bytes.Some? && l.bytes.value.rps > 0.0
    requires Covered(l.bytes.value, drawn, s, gaps)
    ensures Step(l, c).bytes.Some? && Step(l, c).bytes.value.rps == l.bytes.value.rps
    ensures Step(l, c).bytes.value.burst == l.bytes.value.burst
    ensures Covered(Step(l, c).bytes.value, drawn + Charge(l, c), s,
                    gaps + if c.Ask? then c.r.bSince - c.r.bNow else 0)
  {
    hide Take, Grants, Covered, Gain;
    var b := l.bytes.value;
    match c
    case Return(n) =>
      if n > 0.0 {
        RefundCovered(b, n, drawn, s, gaps);
      }
    case Ask(x, est, r) =>
      MoreGaps(b, drawn, s, gaps, gaps + (r.bSince - r.bNow));
      if est > 0 {
        TakeCovered(b, est as real, drawn, s, gaps, r.bNow, r.bSince);
        TakeKeeps(b, est as real, r.bNow, r.bSince);
      }
  }

  lemma {:induction false} ByteCoveredRun(l: Limiter, calls: seq<Call>, s: int, e: int)
    requires Valid(l, s) && Timed(calls, s, e) && l.bytes.Some? && l.bytes.value.rps > 0.0
    ensures var m := Run(l, calls);
            && m.bytes.Some? && m.bytes.value.rps == l.bytes.value.rps && m.bytes.value.burst == l.bytes.value.burst
            && Covered(m.bytes.value, NetBytes(l, calls), s, ByteGaps(calls))
  {
    if calls == [] {
      CoveredAtStart(l.bytes.value, s);
    } else {
      var front, c := calls[..|calls| - 1], calls[|calls| - 1];
      var t := if c.Ask? then c.r.create else e;
      ByteCoveredRun(l, front, s, t);
      RunValid(l, front, s, t);
      GapsNonNegative(front, "", s, t);
      hide Covered, Take, Grants, Valid, Gain, Step, Charge;
      ByteCovered(Run(l, front), c, NetBytes(l, front), s, ByteGaps(front), t);
    }
  }

  lemma TargetBound(l: Limiter, calls: seq<Call>, x: TargetID, s: int, e: int)
    requires Valid(l, s) && Timed(calls, s, e) && l.ptRPS > 0.0
    ensures Within(AdmittedFor(l, calls, x) as real, Max1(l.ptRPS), l.ptRPS, e - s + TargetGaps(calls, x))
  {
    hide *;
    RunValid(l, calls, s, e);
    TargetCoveredRun(l, calls, x, s, e);
    TimedOrder(calls, s, e);
    var b := BucketFor(Run(l, calls), x, s);
    BoundFacts(Run(l, calls), x, s, e);
    CoveredBound(b, AdmittedFor(l, calls, x) as real, s, e, TargetGaps(calls, x));
  }

  lemma BoundFacts(l: Limiter, x: TargetID, s: int, e: int)
    requires Valid(l, e) && s <= e
    ensures var b := BucketFor(l, x, s);
            b.rps == l.ptRPS && b.burst == Max1(l.ptRPS) && Good(b) && b.last <= e
  {
  }

  lemma SharedFacts(l: Limiter, t: int)
    requires Valid(l, t)
    ensures Good(l.global) && l.global.last <= t
    ensures l.bytes.Some? ==> Good(l.bytes.value) && l.bytes.value.last <= t
  {
  }

  lemma TimedOrder(calls: seq<Call>, s: int, e: int)
    requires Timed(calls, s, e)
    ensures s <= e
  {
  }

  lemma GlobalBound(l: Limiter, calls: seq<Call>, s: int, e: int)
    requires Valid(l, s) && Timed(calls, s, e) && l.global.rps > 0.0
    ensures Within(AdmittedInAll(l, calls) as real, l.global.burst, l.global.rps, e - s + GlobalGaps(calls))
  {
    hide *;
    RunValid(l, calls, s, e);
    GlobalCoveredRun(l, calls, s, e);
    SharedFacts(Run(l, calls), e);
    TimedOrder(calls, s, e);
    CoveredBound(Run(l, calls).global, AdmittedInAll(l, calls) as real, s, e, GlobalGaps(calls));
  }

  lemma ByteBound(l: Limiter, calls: seq<Call>, s: int, e: int)
    requires Valid(l, s) && Timed(calls, s, e) && l.bytes.Some? && l.bytes.value.rps > 0.0
    ensures var b := l.bytes.value; Within(NetBytes(l, calls), b.burst, b.rps, e - s + ByteGaps(calls))
  {
    hide *;
    RunValid(l, calls, s, e);
    ByteCoveredRun(l, calls, s, e);
    SharedFacts(Run(l, calls), e);
    TimedOrder(calls, s, e);
    CoveredBound(Run(l, calls).bytes.value, NetBytes(l, calls), s, e, ByteGaps(calls));
  }

  /** In a window from `s` to `e`, whatever happened before it and however targets, refusals
      and refunds interleave in it, one target gets at most its burst plus its rate times the
      window (plus its rate times the time between double readings), and all targets
      together at most the same of the global bucket. The bytes reserved there and not
      credited back are bounded the same way. */
  lemma WindowBound(l: Limiter, calls: seq<Call>, x: TargetID, s: int, e: int)
    requires Valid(l, s) && Timed(calls, s, e)
    ensures l.ptRPS > 0.0 ==>
              AdmittedFor(l, calls, x) as real
              <= Max1(l.ptRPS) + l.ptRPS * ((e - s + TargetGaps(calls, x)) as real / 1_000_000_000.0)
    ensures l.global.rps > 0.0 ==>
              AdmittedInAll(l, calls) as real
              <= l.global.burst + l.global.rps * ((e - s + GlobalGaps(calls)) as real / 1_000_000_000.0)
    ensures l.bytes.Some? && l.bytes.value.rps > 0.0 ==>
              var b := l.bytes.value;
              NetBytes(l, calls) <= b.burst + b.rps * ((e - s + ByteGaps(calls)) as real / 1_000_000_000.0)
  {
    hide *;
    if l.ptRPS > 0.0 {
      TargetBound(l, calls, x, s, e);
      WithinMeans(AdmittedFor(l, calls, x) as real, Max1(l.ptRPS), l.ptRPS, e - s + TargetGaps(calls, x));
    }
    if l.global.rps > 0.0 {
      GlobalBound(l, calls, s, e);
      WithinMeans(AdmittedInAll(l, calls) as real, l.global.burst, l.global.rps, e - s + GlobalGaps(calls));
    }
    if l.bytes.Some? && l.bytes.value.rps > 0.0 {
      ByteBound(l, calls, s, e);
      WithinMeans(NetBytes(l, calls), l.bytes.value.burst, l.bytes.value.rps, e - s + ByteGaps(calls));
    }
  }

  function ByteRate(kbps: int): real {
    kbps as real * 1000.0 / 8.0
  }

  /** The two buckets made at construction read the clock one after the other. */
  function NewLimiter(ptRPS: real, globalRPS: real, kbps: int, gNow: int, bNow: int): Limiter {
    var byteRate := ByteRate(kbps);
    Limiter(map[], NewBucket(globalRPS, Max1(globalRPS), gNow),
            if byteRate > 0.0 then Some(NewBucket(byteRate, byteRate, bNow)) else None, ptRPS)
  }

  /** Hence in every window of every run of a new limiter. */
  lemma EveryWindow(ptRPS: real, globalRPS: real, kbps: int, gNow: int, bNow: int,
                    before: seq<Call>, window: seq<Call>, x: TargetID, s: int, e: int)
    requires gNow <= bNow && Timed(before, bNow, s) && Timed(window, s, e)
    ensures var l := Run(NewLimiter(ptRPS, globalRPS, kbps, gNow, bNow), before);
            && (ptRPS > 0.0 ==>
                  AdmittedFor(l, window, x) as real
                  <= (if ptRPS < 1.0 then 1.0 else ptRPS)
                     + ptRPS * ((e - s + TargetGaps(window, x)) as real / 1_000_000_000.0))
            && (globalRPS > 0.0 ==>
                  AdmittedInAll(l, window) as real
                  <= (if globalRPS < 1.0 then 1.0 else globalRPS)
                     + globalRPS * ((e - s + GlobalGaps(window)) as real / 1_000_000_000.0))
            && (kbps > 0 ==>
                  var bytesPerSecond := kbps as real * 125.0;
                  NetBytes(l, window)
                  <= bytesPerSecond + bytesPerSecond * ((e - s + ByteGaps(window)) as real / 1_000_000_000.0))
  {
    hide *;
    var start := NewLimiter(ptRPS, globalRPS, kbps, gNow, bNow);
    StartIsValid(ptRPS, globalRPS, kbps, gNow, bNow);
    StartingRates(ptRPS, globalRPS, kbps, gNow, bNow);
    RunValid(start, before, bNow, s);
    SettingsKept(start, before);
    WindowBound(Run(start, before), window, x, s, e);
  }

  lemma StartIsValid(ptRPS: real, globalRPS: real, kbps: int, gNow: int, bNow: int)
    requires gNow <= bNow
    ensures Valid(NewLimiter(ptRPS, globalRPS, kbps, gNow, bNow), bNow)
  {
  }

  lemma StartingRates(ptRPS: real, globalRPS: real, kbps: int, gNow: int, bNow: int)
    ensures var l := NewLimiter(ptRPS, globalRPS, kbps, gNow, bNow);
            && l.ptRPS == ptRPS && l.global.rps == globalRPS
            && Max1(ptRPS) == (if ptRPS <= 0.0 then 0.0 else if ptRPS < 1.0 then 1.0 else ptRPS)
            && l.global.burst == (if globalRPS <= 0.0 then 0.0 else if globalRPS < 1.0 then 1.0 else globalRPS)
            && (kbps > 0 ==> l.bytes.Some? && l.bytes.value.rps == l.bytes.value.burst == kbps as real * 125.0)
            && (kbps <= 0 ==> l.bytes.None?)
  {
  }

  /** With readings that coincide the gaps are nothing: the bounds are burst plus rate times time. */
  lemma {:induction false} NoGaps(calls: seq<Call>, x: TargetID)
    requires forall i :: 0 <= i < |calls| && calls[i].Ask? ==>
               var r := calls[i].r; r.ptNow == r.ptSince && r.gNow == r.gSince && r.bNow == r.bSince
    ensures TargetGaps(calls, x) == 0 && GlobalGaps(calls) == 0 && ByteGaps(calls) == 0
  {
    if calls != [] {
      NoGaps(calls[..|calls| - 1], x);
    }
  }

  // ---------- a call's decision and charge, written out ----------

  predicate Affords(b: Bucket, n: real, at: int) {
    b.rps <= 0.0 || Level(b, at) >= n
  }

  /** A request is admitted exactly when the target's bucket and the global one hold a token, and
      the byte bucket, if there is one and bytes are estimated, holds the estimate; what it is
      charged leaves each exactly that much lower. A refusal names the first of the three, in that
      order, that could not afford it. */
  lemma AdmittedIff(l: Limiter, x: TargetID, est: int, r: Reads, t: int)
    requires Valid(l, t) && t <= r.create && InOrder(r)
    ensures var pt := BucketFor(l, x, r.create);
            Decide(l, x, est, r).Admitted? <==>
              && Affords(pt, 1.0, r.ptSince) && Affords(l.global, 1.0, r.gSince)
              && (l.bytes.Some? && est > 0 ==> Affords(l.bytes.value, est as real, r.bSince))
    ensures var pt := BucketFor(l, x, r.create);
            && (Decide(l, x, est, r).TargetCap? <==> !Affords(pt, 1.0, r.ptSince))
            && (Decide(l, x, est, r).GlobalCap? <==>
                  Affords(pt, 1.0, r.ptSince) && !Affords(l.global, 1.0, r.gSince))
    ensures Decide(l, x, est, r).Admitted? ==>
              var m := Acquire(l, x, est, r);
              && x in m.perTarget && Charged(BucketFor(l, x, r.create), m.perTarget[x], 1.0, r.ptNow, r.ptSince)
              && Charged(l.global, m.global, 1.0, r.gNow, r.gSince)
              && (l.bytes.Some? && est > 0 ==>
                    m.bytes.Some? && Charged(l.bytes.value, m.bytes.value, est as real, r.bNow, r.bSince))
              && (l.bytes.None? || est <= 0 ==> m.bytes == l.bytes)
              && Decide(l, x, est, r).reserved == (if l.bytes.Some? && est > 0 then est as real else 0.0)
  {
    hide Take, Grants, Level;
    BucketForOk(l, x, r.create, t);
    ChargedIs(BucketFor(l, x, r.create), 1.0, r.ptNow, r.ptSince);
    ChargedIs(l.global, 1.0, r.gNow, r.gSince);
    if l.bytes.Some? && est > 0 {
      ChargedIs(l.bytes.value, est as real, r.bNow, r.bSince);
    }
  }

  predicate Charged(b: Bucket, c: Bucket, n: real, now: int, since: int) {
    if b.rps <= 0.0 then c == b else c == b.(last := now, tokens := Level(b, since) - n)
  }

  lemma ChargedIs(b: Bucket, n: real, now: int, since: int)
    requires Good(b) && b.last <= now <= since
    ensures Grants(b, n, now, since) <==> Affords(b, n, since)
    ensures Grants(b, n, now, since) ==> Charged(b, Take(b, n, now, since), n, now, since)
  {
    if b.rps > 0.0 {
      TakeIs(b, n, now, since);
    }
  }

  /** The first request to a new limiter that estimates no bytes is admitted, whatever its rates. */
  lemma FirstRequestAdmitted(ptRPS: real, globalRPS: real, kbps: int, gNow: int, bNow: int, x: TargetID, r: Reads)
    requires gNow <= bNow <= r.create && InOrder(r)
    ensures Decide(NewLimiter(ptRPS, globalRPS, kbps, gNow, bNow), x, 0, r) == Admitted(0.0)
  {
    var l := NewLimiter(ptRPS, globalRPS, kbps, gNow, bNow);
    assert Valid(l, bNow);
    AdmittedIff(l, x, 0, r, bNow);
    if ptRPS > 0.0 {
      GainSign(ptRPS, r.ptSince - r.create);
    }
    if globalRPS > 0.0 {
      GainSign(globalRPS, r.gSince - gNow);
    }
    hide Gain;
  }

  lemma {:induction false} SettingsKept(l: Limiter, calls: seq<Call>)
    ensures Run(l, calls).ptRPS == l.ptRPS
    ensures Run(l, calls).global.rps == l.global.rps && Run(l, calls).global.burst == l.global.burst
    ensures Run(l, calls).bytes.Some? <==> l.bytes.Some?
    ensures l.bytes.Some? ==> Run(l, calls).bytes.value.rps == l.bytes.value.rps
    ensures l.bytes.Some? ==> Run(l, calls).bytes.value.burst == l.bytes.value.burst
  {
    if calls != [] {
      SettingsKept(l, calls[..|calls| - 1]);
    }
  }

  // ---------- a rejected call leaves no trace ----------

  /** Two buckets no later request can tell apart. */
  ghost predicate SameBucket(b: Bucket, c: Bucket, t: int) {
    && b.rps == c.rps && b.burst == c.burst
    && (b.rps > 0.0 ==> Good(b) && Good(c) && b.last <= t && c.last <= t && Level(b, t) == Level(c, t))
  }

  ghost predicate Same(l: Limiter, m: Limiter, t: int) {
    && l.ptRPS == m.ptRPS && (l.bytes.Some? <==> m.bytes.Some?)
    && (forall x :: SameBucket(BucketFor(l, x, t), BucketFor(m, x, t), t))
    && SameBucket(l.global, m.global, t)
    && (l.bytes.Some? ==> SameBucket(l.bytes.value, m.bytes.value, t))
  }

  /** Whatever two readings a take makes, it cannot tell the two buckets apart. */
  lemma SameTake(b: Bucket, c: Bucket, n: real, t: int, now: int, since: int, u: int)
    requires SameBucket(b, c, t) && n >= 0.0 && t <= now <= since <= u
    ensures Grants(b, n, now, since) == Grants(c, n, now, since)
    ensures SameBucket(Take(b, n, now, since), Take(c, n, now, since), u)
    ensures Grants(b, n, now, since) ==>
              SameBucket(GiveBack(Take(b, n, now, since), n), GiveBack(Take(c, n, now, since), n), u)
  {
    if b.rps > 0.0 {
      SameAdvances(b, c, t, since);
      RefillIsLevel(b, now, since);
      RefillIsLevel(c, now, since);
      GainSign(b.rps, since - b.last);
      GainSign(c.rps, since - c.last);
      hide Gain;
    }
  }

  function RolledBack(b: Bucket, n: real, now: int, since: int): Bucket {
    if Grants(b, n, now, since) then GiveBack(Take(b, n, now, since), n) else Take(b, n, now, since)
  }

  /** Taking and giving back, or being refused, is a bare refill: it leaves the bucket the same
      exactly when the gap between its readings is harmless. */
  lemma TakeRolledBackIff(b: Bucket, n: real, now: int, since: int, u: int)
    requires n >= 0.0 && Good(b) && b.last <= now <= since <= u
    ensures SameBucket(b, RolledBack(b, n, now, since), u)
            <==> b.rps <= 0.0 || GapIsHarmless(b, now, since, u)
  {
    if b.rps > 0.0 {
      RefillIsLevel(b, now, since);
      GainSign(b.rps, since - b.last);
      LevelAfterRefillIff(b, now, since, u);
      assert b.tokens + Gain(b.rps, since - b.last) >= 0.0;
      assert RolledBack(b, n, now, since) == Refill(b, now, since);
      hide Gain, Refill, RolledBack, GapIsHarmless;
    }
  }

  lemma SameAdvances(b: Bucket, c: Bucket, t: int, u: int)
    requires SameBucket(b, c, t) && t <= u
    ensures SameBucket(b, c, u)
  {
    if b.rps > 0.0 {
      LevelAdvances(b, t, u);
      LevelAdvances(c, t, u);
    }
  }

  lemma SameRefund(b: Bucket, c: Bucket, n: real, t: int)
    requires SameBucket(b, c, t)
    ensures SameBucket(Refund(b, n), Refund(c, n), t)
  {
    if b.rps > 0.0 {
      GainSign(b.rps, t - b.last);
      GainSign(c.rps, t - c.last);
      hide Gain;
    }
  }

  /** A bucket that does not exist yet and one created earlier and left alone are the same. */
  lemma SameUntouched(rps: real, t: int, u: int)
    requires t <= u
    ensures SameBucket(NewBucket(rps, Max1(rps), t), NewBucket(rps, Max1(rps), u), u)
  {
    if rps > 0.0 {
      GainSign(rps, u - t);
      GainSign(rps, 0);
    }
  }

  lemma SameTransitive(a: Bucket, b: Bucket, c: Bucket, t: int)
    requires SameBucket(a, b, t) && SameBucket(b, c, t)
    ensures SameBucket(a, c, t) && SameBucket(c, a, t)
  {
  }

  lemma SameBucketForLater(l: Limiter, m: Limiter, x: TargetID, t: int, u: int)
    requires Same(l, m, t) && t <= u
    ensures SameBucket(BucketFor(l, x, u), BucketFor(m, x, u), u)
  {
    var bl, bm := BucketFor(l, x, t), BucketFor(m, x, t);
    assert SameBucket(bl, bm, t);
    hide SameBucket;
    SameAdvances(bl, bm, t, u);
    SameUntouched(l.ptRPS, t, u);
    var start := NewBucket(l.ptRPS, Max1(l.ptRPS), u);
    if x !in l.perTarget && x in m.perTarget {
      SameTransitive(start, start, start, u) by {
        SameRefl(l.ptRPS, u);
      }
      SameSymmetric(bl, start, u);
      SameTransitive(start, bl, bm, u);
    } else if x in l.perTarget && x !in m.perTarget {
      SameTransitive(bl, bm, start, u);
    } else if x !in l.perTarget {
      SameRefl(l.ptRPS, u);
    }
  }

  lemma SameSymmetric(b: Bucket, c: Bucket, t: int)
    requires SameBucket(b, c, t)
    ensures SameBucket(c, b, t)
  {
  }

  lemma SameRefl(rps: real, t: int)
    ensures SameBucket(NewBucket(rps, Max1(rps), t), NewBucket(rps, Max1(rps), t), t)
  {
  }

  lemma SameDecision(l: Limiter, m: Limiter, x: TargetID, est: int, r: Reads, t: int)
    requires Same(l, m, t) && InOrder(r) && t <= r.create
    ensures Decide(l, x, est, r) == Decide(m, x, est, r)
  {
    var bl, bm := BucketFor(l, x, r.create), BucketFor(m, x, r.create);
    SameBucketForLater(l, m, x, t, r.create);
    hide SameBucket, Take, Grants, GiveBack, BucketFor;
    SameTake(bl, bm, 1.0, r.create, r.ptNow, r.ptSince, r.bSince);
    SameTake(l.global, m.global, 1.0, t, r.gNow, r.gSince, r.bSince);
    if l.bytes.Some? && est > 0 {
      SameTake(l.bytes.value, m.bytes.value, est as real, t, r.bNow, r.bSince, r.bSince);
    }
  }

  lemma SameAcquire(l: Limiter, m: Limiter, x: TargetID, est: int, r: Reads, t: int)
    requires Same(l, m, t) && InOrder(r) && t <= r.create
    ensures Same(Acquire(l, x, est, r), Acquire(m, x, est, r), r.bSince)
  {
    var l', m', u := Acquire(l, x, est, r), Acquire(m, x, est, r), r.bSince;
    forall y
      ensures SameBucket(BucketFor(l', y, u), BucketFor(m', y, u), u)
    {
      SameTargets(l, m, x, est, r, t, y);
    }
    hide SameBucket, Take, Grants, GiveBack, BucketFor;
    SameDecision(l, m, x, est, r, t);
    SameTake(l.global, m.global, 1.0, t, r.gNow, r.gSince, u);
    SameAdvances(l.global, m.global, t, u);
    if l.bytes.Some? {
      SameAdvances(l.bytes.value, m.bytes.value, t, u);
      if est > 0 {
        SameTake(l.bytes.value, m.bytes.value, est as real, t, r.bNow, r.bSince, u);
      }
    }
  }

  lemma SameTargets(l: Limiter, m: Limiter, x: TargetID, est: int, r: Reads, t: int, y: TargetID)
    requires Same(l, m, t) && InOrder(r) && t <= r.create
    ensures var u := r.bSince;
            SameBucket(BucketFor(Acquire(l, x, est, r), y, u), BucketFor(Acquire(m, x, est, r), y, u), u)
  {
    SameDecision(l, m, x, est, r, t);
    SameBucketForLater(l, m, x, t, r.create);
    SameBucketForLater(l, m, y, t, r.bSince);
    hide SameBucket, Take, Grants, GiveBack, Same;
    SameTake(BucketFor(l, x, r.create), BucketFor(m, x, r.create), 1.0, r.create, r.ptNow, r.ptSince, r.bSince);
  }

  lemma SameReturn(l: Limiter, m: Limiter, n: real, t: int)
    requires Same(l, m, t)
    ensures Same(ReturnBytes(l, n), ReturnBytes(m, n), t)
  {
    if l.bytes.Some? {
      SameRefund(l.bytes.value, m.bytes.value, n, t);
    }
    hide SameBucket;
    forall y
      ensures SameBucket(BucketFor(ReturnBytes(l, n), y, t), BucketFor(ReturnBytes(m, n), y, t), t)
    {
      assert SameBucket(BucketFor(l, y, t), BucketFor(m, y, t), t);
    }
  }

  /** No bucket the refused call consulted shows the gap between its two readings. */
  predicate GapsHarmless(l: Limiter, x: TargetID, est: int, r: Reads) {
    var out := Decide(l, x, est, r);
    && Harmless(BucketFor(l, x, r.create), r.ptNow, r.ptSince, r.bSince)
    && (!out.TargetCap? ==> Harmless(l.global, r.gNow, r.gSince, r.bSince))
    && (out.ByteCap? ==> l.bytes.Some? && Harmless(l.bytes.value, r.bNow, r.bSince, r.bSince))
  }

  predicate Harmless(b: Bucket, now: int, since: int, u: int) {
    b.rps <= 0.0 || GapIsHarmless(b, now, since, u)
  }

  lemma SelfSame(b: Bucket, t: int)
    requires Good(b) && b.last <= t
    ensures SameBucket(b, b, t)
  {
  }

  /** A bucket and what the refused call made of it, the bucket perhaps made by that call. */
  lemma RefusedTargetIff(l: Limiter, x: TargetID, est: int, r: Reads, t: int)
    requires Valid(l, t) && t <= r.create && InOrder(r) && !Decide(l, x, est, r).Admitted?
    ensures var u := r.bSince;
            SameBucket(BucketFor(l, x, u), BucketFor(Acquire(l, x, est, r), x, u), u)
            <==> Harmless(BucketFor(l, x, r.create), r.ptNow, r.ptSince, u)
  {
    var b, u := BucketFor(l, x, r.create), r.bSince;
    var after := BucketFor(Acquire(l, x, est, r), x, u);
    BucketForOk(l, x, r.create, t);
    TakeRolledBackIff(b, 1.0, r.ptNow, r.ptSince, u);
    if x !in l.perTarget {
      SameUntouched(l.ptRPS, r.create, u);
    }
    hide SameBucket, Take, Grants, GiveBack, Valid, GapIsHarmless;
    var start := BucketFor(l, x, u);
    if x !in l.perTarget && SameBucket(start, after, u) {
      SameTransitive(b, start, after, u);
    }
    if x !in l.perTarget && SameBucket(b, after, u) {
      SameSymmetric(b, start, u);
      SameTransitive(start, b, after, u);
    }
  }

  lemma RefusedOtherTarget(l: Limiter, x: TargetID, est: int, r: Reads, t: int, y: TargetID)
    requires Valid(l, t) && t <= r.create && InOrder(r) && y != x
    ensures var u := r.bSince; SameBucket(BucketFor(l, y, u), BucketFor(Acquire(l, x, est, r), y, u), u)
  {
    var u := r.bSince;
    AcquireShape(l, x, est, r);
    BucketForOk(l, y, u, t);
    hide Acquire;
    SelfSame(BucketFor(l, y, u), u);
  }

  lemma RefusedSharedIff(l: Limiter, x: TargetID, est: int, r: Reads, t: int)
    requires Valid(l, t) && t <= r.create && InOrder(r) && !Decide(l, x, est, r).Admitted?
    ensures var u, m, out := r.bSince, Acquire(l, x, est, r), Decide(l, x, est, r);
            && (SameBucket(l.global, m.global, u) <==> out.TargetCap? || Harmless(l.global, r.gNow, r.gSince, u))
            && (l.bytes.Some? <==> m.bytes.Some?)
            && (l.bytes.Some? ==>
                  (SameBucket(l.bytes.value, m.bytes.value, u)
                   <==> !out.ByteCap? || Harmless(l.bytes.value, r.bNow, r.bSince, u)))
            && (out.ByteCap? ==> l.bytes.Some?)
  {
    var u := r.bSince;
    TakeRolledBackIff(l.global, 1.0, r.gNow, r.gSince, u);
    SelfSame(l.global, u);
    if l.bytes.Some? {
      SelfSame(l.bytes.value, u);
      if est > 0 {
        TakeRolledBackIff(l.bytes.value, est as real, r.bNow, r.bSince, u);
      }
    }
    hide SameBucket, Take, Grants, GiveBack, Valid, GapIsHarmless;
  }

  /** A refused call, whichever tier refused it and even if it created the target's bucket,
      leaves every bucket at the level it would have had, exactly when in each bucket it
      consulted the two readings coincide, or the bucket would be full by the call's end. */
  lemma RefusedIsSameIff(l: Limiter, x: TargetID, est: int, r: Reads, t: int)
    requires Valid(l, t) && t <= r.create && InOrder(r) && !Decide(l, x, est, r).Admitted?
    ensures Same(l, Acquire(l, x, est, r), r.bSince) <==> GapsHarmless(l, x, est, r)
  {
    hide SameBucket, Decide, Acquire, Valid, Harmless;
    var u, m := r.bSince, Acquire(l, x, est, r);
    AcquireShape(l, x, est, r);
    RefusedTargetIff(l, x, est, r, t);
    RefusedSharedIff(l, x, est, r, t);
    forall y | y != x
      ensures SameBucket(BucketFor(l, y, u), BucketFor(m, y, u), u)
    {
      RefusedOtherTarget(l, x, est, r, t, y);
    }
    assert SameBucket(BucketFor(l, x, u), BucketFor(m, x, u), u) ==>
        forall y :: SameBucket(BucketFor(l, y, u), BucketFor(m, y, u), u);
    hide BucketFor;
  }

  /** Later calls, in order, from `t` on, each with readings of its own. */
  predicate From(later: seq<Call>, t: int)
    decreases |later|
  {
    later != [] ==>
      match later[0]
      case Ask(_, _, r) => InOrder(r) && t <= r.create && From(later[1..], r.bSince)
      case Return(_) => From(later[1..], t)
  }

  /** The decisions the limiter will take from here. */
  function Decisions(l: Limiter, later: seq<Call>): seq<Outcome>
    decreases |later|
  {
    if later == [] then []
    else
      var rest := Decisions(Step(l, later[0]), later[1..]);
      match later[0]
      case Ask(x, est, r) => [Decide(l, x, est, r)] + rest
      case Return(_) => rest
  }

  /** Limiters whose buckets stand at the same levels decide the same for ever, whatever the
      later calls are and however far apart their readings. */
  lemma {:induction false} SameDecisions(l: Limiter, m: Limiter, later: seq<Call>, t: int)
    requires Same(l, m, t) && From(later, t)
    ensures Decisions(l, later) == Decisions(m, later)
    decreases |later|
  {
    if later != [] {
      hide Same, Decide, Acquire, ReturnBytes;
      match later[0]
      case Ask(x, est, r) =>
        SameDecision(l, m, x, est, r, t);
        SameAcquire(l, m, x, est, r, t);
        SameDecisions(Acquire(l, x, est, r), Acquire(m, x, est, r), later[1..], r.bSince);
      case Return(n) =>
        SameReturn(l, m, n, t);
        SameDecisions(ReturnBytes(l, n), ReturnBytes(m, n), later[1..], t);
    }
  }

  /** So such a rejected call changes no later decision, of any target, ever. */
  lemma RejectionLeavesNoTrace(l: Limiter, x: TargetID, est: int, r: Reads, t: int, later: seq<Call>)
    requires Valid(l, t) && t <= r.create && InOrder(r) && !Decide(l, x, est, r).Admitted?
    requires GapsHarmless(l, x, est, r) && From(later, r.bSince)
    ensures Decisions(Acquire(l, x, est, r), later) == Decisions(l, later)
  {
    RefusedIsSameIff(l, x, est, r, t);
    SameDecisions(l, Acquire(l, x, est, r), later, r.bSince);
  }

  /** A clock that stands still during the call is one way to be harmless. */
  lemma FrozenIsHarmless(l: Limiter, x: TargetID, est: int, t: int, now: int)
    requires Valid(l, t) && t <= now && !Decide(l, x, est, Frozen(now)).Admitted?
    ensures GapsHarmless(l, x, est, Frozen(now))
  {
  }

  /** So under a clock that stands still during calls, no rejection ever shows. */
  lemma FrozenLeavesNoTrace(l: Limiter, x: TargetID, est: int, t: int, now: int, later: seq<Call>)
    requires Valid(l, t) && t <= now && !Decide(l, x, est, Frozen(now)).Admitted? && From(later, now)
    ensures Decisions(Acquire(l, x, est, Frozen(now)), later) == Decisions(l, later)
  {
    FrozenIsHarmless(l, x, est, t, now);
    RejectionLeavesNoTrace(l, x, est, Frozen(now), t, later);
  }

  /** Otherwise a rejected call can leave a trace: half a second between the two readings, at
      one token a second, turns the refusal of the next call into an admission. */
  lemma RejectionCanLeaveATrace()
    ensures var b := Bucket(1.0, 1.0, 0.0, 0);
            var l := Limiter(map["a" := b], Bucket(1.0, 1.0, 1.0, 0), None, 1.0);
            var half := 500_000_000;
            var r := Reads(0, 0, half, half, half, half, half);
            && Valid(l, 0) && InOrder(r) && Decide(l, "a", 0, r) == TargetCap
            && Decide(l, "a", 0, Frozen(half)) == TargetCap
            && Decide(Acquire(l, "a", 0, r), "a", 0, Frozen(half)).Admitted?
  {
    var half := 500_000_000;
    assert Seconds(half) == 0.5 && Gain(1.0, half) == 0.5;
  }
}
