/** The limiter and its reservations as the objects the engine calls. */
module Admission {
  import opened Basics
  import L = Limiter
  import TB = TokenBucket

  datatype Reply = Granted(reservation: Reservation) | Cancelled | Tripped | Capped(tier: L.Outcome)

  // ---------- reservations ----------

  /** A reservation as a value. */
  datatype Hold = Hold(reserved: real, actual: real, reconciled: bool, released: bool)

  /** What a first release hands back. */
  function Owed(h: Hold): real {
    if h.reconciled && h.actual < h.reserved then h.reserved - h.actual
    else if h.reconciled then 0.0
    else h.reserved
  }

  datatype HoldCall = Reconcile(actual: int) | Release

  function HoldStep(h: Hold, c: HoldCall): Hold {
    match c
    case Reconcile(actual) => h.(actual := actual as real, reconciled := true)
    case Release => h.(released := true)
  }

  function HoldRun(h: Hold, calls: seq<HoldCall>): Hold
    decreases |calls|
  {
    if calls == [] then h else HoldRun(HoldStep(h, calls[0]), calls[1..])
  }

  /** Everything a reservation hands back over a sequence of calls. */
  function HandedBack(h: Hold, calls: seq<HoldCall>): real
    decreases |calls|
  {
    if calls == [] then 0.0
    else (if calls[0].Release? && !h.released then Owed(h) else 0.0) + HandedBack(HoldStep(h, calls[0]), calls[1..])
  }

  lemma {:induction false} ReleasedHandsBackNothing(h: Hold, calls: seq<HoldCall>)
    requires h.released
    ensures HandedBack(h, calls) == 0.0 && HoldRun(h, calls).released
    decreases |calls|
  {
    if calls != [] {
      ReleasedHandsBackNothing(HoldStep(h, calls[0]), calls[1..]);
    }
  }

  predicate Unreleased(calls: seq<HoldCall>) {
    forall i :: 0 <= i < |calls| ==> calls[i].Reconcile?
  }

  /** The observation a release goes by: the last one before it. */
  function LastActual(calls: seq<HoldCall>): int
    requires calls != [] && Unreleased(calls)
  {
    calls[|calls| - 1].actual
  }

  /** Whatever is called after the first release, and however often, a reservation keeps
      charged exactly the smaller of estimate and observation, or nothing when it was never
      reconciled. */
  lemma {:induction false} ChargedOnce(h: Hold, before: seq<HoldCall>, after: seq<HoldCall>)
    requires !h.released && !h.reconciled && Unreleased(before)
    ensures before == [] ==> HandedBack(h, before + [Release] + after) == h.reserved
    ensures before != [] ==>
              var a := LastActual(before) as real;
              h.reserved - HandedBack(h, before + [Release] + after) == if a < h.reserved then a else h.reserved
  {
    ChargedFrom(h, before, after);
  }

  lemma {:induction false} ChargedFrom(h: Hold, before: seq<HoldCall>, after: seq<HoldCall>)
    requires !h.released && Unreleased(before)
    ensures before == [] ==> HandedBack(h, before + [Release] + after) == Owed(h)
    ensures before != [] ==> HandedBack(h, before + [Release] + after)
                             == Owed(h.(actual := LastActual(before) as real, reconciled := true))
    decreases |before|
  {
    var all := before + [Release] + after;
    if before == [] {
      assert all[1..] == after;
      ReleasedHandsBackNothing(HoldStep(h, Release), after);
    } else {
      assert all[1..] == before[1..] + [Release] + after;
      assert all[0] == before[0];
      ChargedFrom(HoldStep(h, before[0]), before[1..], after);
    }
  }

  class Reservation {
    const lim: Limiter
    const reservedBytes: real
    var actualBytes: real
    var reconciled: bool
    var released: bool

    function View(): Hold
      reads this
    {
      Hold(reservedBytes, actualBytes, reconciled, released)
    }

    constructor (lim: Limiter, reserved: real)
      ensures View() == Hold(reserved, 0.0, false, false) && this.lim == lim
    {
      this.lim, reservedBytes, actualBytes, reconciled, released := lim, reserved, 0.0, false, false;
    }

    method Reconcile(actual: int)
      modifies this
      ensures View() == HoldStep(old(View()), HoldCall.Reconcile(actual))
    {
      actualBytes := actual as real;
      reconciled := true;
    }

    method Release()
      requires lim.Valid()
      modifies this, lim.Repr()
      ensures lim.Valid() && lim.Repr() == old(lim.Repr())
      ensures View() == HoldStep(old(View()), HoldCall.Release)
      ensures lim.View() == if old(released) then old(lim.View()) else L.ReturnBytes(old(lim.View()), Owed(old(View())))
    {
      if released {
        return;
      }
      released := true;
      var refund := reservedBytes;
      if reconciled && actualBytes < reservedBytes {
        refund := reservedBytes - actualBytes;
      } else if reconciled {
        refund := 0.0;
      }
      lim.ReturnBytes(refund);
    }
  }

  // ---------- the limiter ----------

  class Limiter {
    var perTarget: map<L.TargetID, TB.TokenBucket>
    const global: TB.TokenBucket
    const bytes: TB.TokenBucket?
    const ptRPS: real

    ghost function Repr(): set<object>
      reads this
    {
      {this, global} + perTarget.Values + if bytes == null then {} else {bytes}
    }

    ghost predicate Valid()
      reads this
    {
      && (forall x, y :: x in perTarget && y in perTarget && x != y ==> perTarget[x] != perTarget[y])
      && global !in perTarget.Values
      && (bytes != null ==> bytes != global && bytes !in perTarget.Values)
    }

    ghost function View(): L.Limiter
      reads this, Repr()
    {
      L.Limiter(map x | x in perTarget :: perTarget[x].View(), global.View(),
                if bytes == null then None else Some(bytes.View()), ptRPS)
    }

    constructor (ptRPS: real, globalRPS: real, kbps: int, gNow: int, bNow: int)
      ensures Valid() && fresh(Repr()) && View() == L.NewLimiter(ptRPS, globalRPS, kbps, gNow, bNow)
    {
      var byteRate := L.ByteRate(kbps);
      perTarget := map[];
      this.ptRPS := ptRPS;
      global := new TB.TokenBucket(globalRPS, L.Max1(globalRPS), gNow);
      var b: TB.TokenBucket? := null;
      if byteRate > 0.0 {
        b := new TB.TokenBucket(byteRate, byteRate, bNow);
      }
      bytes := b;
    }

    method BucketFor(x: L.TargetID, create: int) returns (b: TB.TokenBucket)
      requires Valid()
      modifies this
      ensures Valid() && fresh(Repr() - old(Repr()))
      ensures x in perTarget && b == perTarget[x]
      ensures b.View() == L.BucketFor(old(View()), x, create)
      ensures View() == old(View()).(perTarget := old(View()).perTarget[x := b.View()])
    {
      ghost var pts := View().perTarget;
      if x in perTarget {
        b := perTarget[x];
        Rebuilt(x, pts, b.View(), pts);
      } else {
        b := AddBucket(x, create);
      }
    }

    method AddBucket(x: L.TargetID, create: int) returns (b: TB.TokenBucket)
      requires Valid() && x !in perTarget
      modifies this
      ensures Valid() && fresh(Repr() - old(Repr()))
      ensures perTarget == old(perTarget)[x := b] && b.View() == TB.NewBucket(ptRPS, L.Max1(ptRPS), create)
      ensures View() == old(View()).(perTarget := old(View()).perTarget[x := b.View()])
    {
      ghost var l, was := View(), perTarget;
      ghost var pts := l.perTarget;
      b := new TB.TokenBucket(ptRPS, L.Max1(ptRPS), create);
      perTarget := perTarget[x := b];
      Inserted(was, x, b);
      Rebuilt(x, pts, b.View(), pts[x := b.View()]);
    }

    static lemma Inserted(m: map<L.TargetID, TB.TokenBucket>, x: L.TargetID, b: TB.TokenBucket)
      requires x !in m
      ensures m[x := b].Values == m.Values + {b}
    {
      var n := m[x := b];
      assert forall o :: o in n.Values ==> o in m.Values || o == b;
      assert forall y :: y in m ==> n[y] == m[y] && y in n.Keys;
      assert x in n.Keys;
    }

    ghost function BytesView(): Option<TB.Bucket>
      reads this, Repr()
    {
      if bytes == null then None else Some(bytes.View())
    }

    /** The value of the limiter when every bucket but one target's is as recorded in `was`. */
    lemma Rebuilt(x: L.TargetID, pts: map<L.TargetID, TB.Bucket>, found: TB.Bucket, was: map<L.TargetID, TB.Bucket>)
      requires x in perTarget && was == pts[x := found] && perTarget.Keys == was.Keys
      requires forall y :: y in perTarget && y != x ==> perTarget[y].View() == was[y]
      ensures View() == L.Limiter(pts[x := perTarget[x].View()], global.View(), BytesView(), ptRPS)
    {
      var m := View().perTarget;
      assert forall y :: y in m <==> y in pts || y == x;
      assert forall y :: y in pts && y != x ==> was[y] == pts[y];
    }

    /** The three tiers in turn, each refusal giving back what the earlier tiers took. */
    method Draw(pt: TB.TokenBucket, est: int, r: L.Reads, ghost l: L.Limiter, ghost x: L.TargetID)
      returns (out: L.Outcome)
      requires pt != global && bytes != pt && bytes != global
      requires pt.View() == L.BucketFor(l, x, r.create) && global.View() == l.global && BytesView() == l.bytes
      modifies pt, global, if bytes == null then {} else {bytes}
      ensures out == L.Decide(l, x, est, r)
      ensures var m := L.Acquire(l, x, est, r);
              pt.View() == m.perTarget[x] && global.View() == m.global && BytesView() == m.bytes
    {
      var ok := pt.TryTake(1.0, r.ptNow, r.ptSince);
      if !ok {
        return L.TargetCap;
      }
      ok := global.TryTake(1.0, r.gNow, r.gSince);
      if !ok {
        pt.tokens := pt.tokens + 1.0;
        return L.GlobalCap;
      }
      var reserved := 0.0;
      if bytes != null && est > 0 {
        reserved := est as real;
        ok := bytes.TryTake(reserved, r.bNow, r.bSince);
        if !ok {
          pt.tokens := pt.tokens + 1.0;
          global.tokens := global.tokens + 1.0;
          return L.ByteCap;
        }
      }
      return L.Admitted(reserved);
    }

    /** A cancelled context or a latched tripwire refuses before anything is touched. */
    method Acquire(cancelled: bool, tripped: bool, x: L.TargetID, est: int, r: L.Reads) returns (reply: Reply)
      requires Valid()
      modifies Repr()
      ensures Valid() && fresh(Repr() - old(Repr()))
      ensures cancelled ==> reply == Cancelled
      ensures !cancelled && tripped ==> reply == Tripped
      ensures cancelled || tripped ==> View() == old(View())
      ensures !cancelled && !tripped ==> View() == L.Acquire(old(View()), x, est, r)
      ensures !cancelled && !tripped ==>
                var out := L.Decide(old(View()), x, est, r);
                if out.Admitted? then
                  reply.Granted? && fresh(reply.reservation) && reply.reservation.lim == this
                  && reply.reservation.View() == Hold(out.reserved, 0.0, false, false)
                else reply == Capped(out)
    {
      if cancelled {
        return Cancelled;
      }
      if tripped {
        return Tripped;
      }
      hide L.Acquire, L.Decide, L.BucketFor;
      ghost var l := View();
      var pt := BucketFor(x, r.create);
      ghost var found, was := pt.View(), View().perTarget;
      var out := Draw(pt, est, r, l, x);
      Rebuilt(x, l.perTarget, found, was);
      L.AcquireShape(l, x, est, r);
      assert View() == L.Acquire(l, x, est, r);
      if !out.Admitted? {
        return Capped(out);
      }
      var res := new Reservation(this, out.reserved);
      return Granted(res);
    }

    method ReturnBytes(n: real)
      requires Valid()
      modifies Repr()
      ensures Valid() && Repr() == old(Repr()) && View() == L.ReturnBytes(old(View()), n)
      ensures bytes != null && n > 0.0 ==>
                var full := old(bytes.tokens) + n;
                bytes.tokens == if full <= bytes.burst then full else bytes.burst
      ensures bytes != null && n <= 0.0 ==> bytes.tokens == old(bytes.tokens)
    {
      if bytes == null || n <= 0.0 {
        return;
      }
      bytes.tokens := bytes.tokens + n;
      if bytes.tokens > bytes.burst {
        bytes.tokens := bytes.burst;
      }
    }
  }
}
