/** The deterministic clock: time moves only by `Advance` and `Set`, and waiters fire in
    deadline order, ties in registration order. */
module FakeClock {
  import Sorting

  /** A registered timer, sleep or callback; `id` is its registration number. */
  datatype Waiter = Waiter(id: nat, deadline: int, callback: bool)

  /** `delivered` is the order in which waiters fired; `events` is what a test observes:
      channel sends happen under the lock, callbacks after it is released. */
  datatype Clock = Clock(now: int, pending: seq<Waiter>, nextId: nat, delivered: seq<Waiter>, events: seq<Waiter>)

  function Due(t: int, ws: seq<Waiter>): seq<Waiter> {
    if ws == [] then []
    else if ws[|ws| - 1].deadline <= t then Due(t, ws[..|ws| - 1]) + [ws[|ws| - 1]]
    else Due(t, ws[..|ws| - 1])
  }

  function Later(t: int, ws: seq<Waiter>): seq<Waiter> {
    if ws == [] then []
    else if ws[|ws| - 1].deadline <= t then Later(t, ws[..|ws| - 1])
    else Later(t, ws[..|ws| - 1]) + [ws[|ws| - 1]]
  }

  function Calls(ws: seq<Waiter>): seq<Waiter> {
    if ws == [] then []
    else if ws[|ws| - 1].callback then Calls(ws[..|ws| - 1]) + [ws[|ws| - 1]]
    else Calls(ws[..|ws| - 1])
  }

  function Sends(ws: seq<Waiter>): seq<Waiter> {
    if ws == [] then []
    else if ws[|ws| - 1].callback then Sends(ws[..|ws| - 1])
    else Sends(ws[..|ws| - 1]) + [ws[|ws| - 1]]
  }

  function Earlier(): (Waiter, Waiter) -> bool {
    (x: Waiter, y: Waiter) => x.deadline <= y.deadline
  }

  function Batch(t: int, ws: seq<Waiter>): seq<Waiter> {
    Sorting.StableSorted(Earlier(), Due(t, ws))
  }

  function MoveTo(c: Clock, t: int): Clock {
    var batch := Batch(t, c.pending);
    Clock(t, Later(t, c.pending), c.nextId, c.delivered + batch, c.events + Sends(batch) + Calls(batch))
  }

  function Add(c: Clock, d: int, callback: bool): Clock {
    var w := Waiter(c.nextId, c.now + d, callback);
    if d <= 0 then c.(nextId := c.nextId + 1, delivered := c.delivered + [w], events := c.events + [w])
    else c.(nextId := c.nextId + 1, pending := c.pending + [w])
  }

  function Without(id: nat, ws: seq<Waiter>): seq<Waiter> {
    if ws == [] then []
    else if ws[|ws| - 1].id == id then Without(id, ws[..|ws| - 1])
    else Without(id, ws[..|ws| - 1]) + [ws[|ws| - 1]]
  }

  predicate IsPending(c: Clock, id: nat) {
    exists w | w in c.pending :: w.id == id
  }

  function Stop(c: Clock, id: nat): Clock {
    c.(pending := Without(id, c.pending))
  }

  datatype Op = Advance(d: int) | Set(t: int) | Register(delay: int, callback: bool) | StopTimer(id: nat)

  function Step(c: Clock, op: Op): Clock {
    match op
    case Advance(d) => MoveTo(c, c.now + d)
    case Set(t) => MoveTo(c, t)
    case Register(delay, callback) => Add(c, delay, callback)
    case StopTimer(id) => Stop(c, id)
  }

  function Run(c: Clock, ops: seq<Op>): Clock {
    if ops == [] then c else Step(Run(c, ops[..|ops| - 1]), ops[|ops| - 1])
  }

  function New(now: int): Clock {
    Clock(now, [], 0, [], [])
  }

  predicate IdsIncrease(ws: seq<Waiter>) {
    forall i, j | 0 <= i < j < |ws| :: ws[i].id < ws[j].id
  }

  predicate IdsDistinct(ws: seq<Waiter>) {
    forall i, j | 0 <= i < j < |ws| :: ws[i].id != ws[j].id
  }

  predicate IdsBelow(ws: seq<Waiter>, n: nat) {
    forall w | w in ws :: w.id < n
  }

  predicate NoneDue(ws: seq<Waiter>, t: int) {
    forall w | w in ws :: t < w.deadline
  }

  predicate Apart(a: seq<Waiter>, b: seq<Waiter>) {
    forall v, w | v in a && w in b :: v.id != w.id
  }

  /** Waiters are listed in registration order, none of them due, and nobody is both
      waiting and delivered, or delivered twice. */
  predicate Inv(c: Clock) {
    && IdsIncrease(c.pending) && NoneDue(c.pending, c.now) && IdsBelow(c.pending, c.nextId)
    && IdsDistinct(c.delivered) && IdsBelow(c.delivered, c.nextId) && Apart(c.pending, c.delivered)
  }

  // ---------- filters ----------

  lemma FilterAppend(t: int, ws: seq<Waiter>, x: Waiter)
    ensures Due(t, ws + [x]) == if x.deadline <= t then Due(t, ws) + [x] else Due(t, ws)
    ensures Later(t, ws + [x]) == if x.deadline <= t then Later(t, ws) else Later(t, ws) + [x]
  {
    assert (ws + [x])[..|ws|] == ws;
  }

  lemma {:induction false} FilterMembers(t: int, ws: seq<Waiter>, w: Waiter)
    ensures w in Due(t, ws) <==> w in ws && w.deadline <= t
    ensures w in Later(t, ws) <==> w in ws && w.deadline > t
  {
    if ws != [] {
      FilterMembers(t, ws[..|ws| - 1], w);
      assert ws == ws[..|ws| - 1] + [ws[|ws| - 1]];
    }
  }

  lemma {:induction false} FilterOrder(t: int, ws: seq<Waiter>)
    requires IdsIncrease(ws)
    ensures IdsIncrease(Due(t, ws)) && IdsIncrease(Later(t, ws))
  {
    if ws != [] {
      var front, last := ws[..|ws| - 1], ws[|ws| - 1];
      FilterOrder(t, front);
      var due, later := Due(t, front), Later(t, front);
      forall i | 0 <= i < |due|
        ensures due[i].id < last.id
      {
        FilterMembers(t, front, due[i]);
      }
      forall i | 0 <= i < |later|
        ensures later[i].id < last.id
      {
        FilterMembers(t, front, later[i]);
      }
    }
  }

  lemma {:induction false} FilterTwice(t: int, u: int, ws: seq<Waiter>)
    requires t <= u
    ensures Due(t, Due(u, ws)) == Due(t, ws)
    ensures Later(t, Due(u, ws)) == Due(u, Later(t, ws))
    ensures Later(u, Later(t, ws)) == Later(u, ws)
  {
    if ws != [] {
      var front, last := ws[..|ws| - 1], ws[|ws| - 1];
      FilterTwice(t, u, front);
      hide Due, Later;
      assert ws == front + [last];
      FilterAppend(t, front, last);
      FilterAppend(u, front, last);
      FilterAppend(t, Due(u, front), last);
      FilterAppend(u, Later(t, front), last);
    }
  }

  lemma {:induction false} NothingDue(t: int, ws: seq<Waiter>)
    requires forall w | w in ws :: w.deadline > t
    ensures Due(t, ws) == [] && Later(t, ws) == ws
  {
    if ws != [] {
      assert ws == ws[..|ws| - 1] + [ws[|ws| - 1]];
      assert forall w | w in ws[..|ws| - 1] :: w in ws;
      assert ws[|ws| - 1] in ws;
      NothingDue(t, ws[..|ws| - 1]);
    }
  }

  // ---------- Advance(a) then Advance(b) is Advance(a + b) ----------

  lemma {:induction false} InsertAfterAll(x: Waiter, a: seq<Waiter>, b: seq<Waiter>)
    requires forall w | w in a :: w.deadline <= x.deadline
    ensures Sorting.Insert(Earlier(), x, a + b) == a + Sorting.Insert(Earlier(), x, b)
  {
    if b == [] {
      assert a + b == a;
      assert a != [] ==> a[|a| - 1] in a;
    } else {
      var n := |b| - 1;
      assert (a + b)[..|a| + n] == a + b[..n];
      InsertAfterAll(x, a, b[..n]);
    }
  }

  lemma {:induction false} InsertBeforeAll(x: Waiter, a: seq<Waiter>, b: seq<Waiter>)
    requires forall w | w in b :: x.deadline < w.deadline
    ensures Sorting.Insert(Earlier(), x, a + b) == Sorting.Insert(Earlier(), x, a) + b
  {
    if b == [] {
      assert a + b == a;
      assert Sorting.Insert(Earlier(), x, a) + [] == Sorting.Insert(Earlier(), x, a);
    } else {
      var n := |b| - 1;
      assert (a + b)[..|a| + n] == a + b[..n];
      assert b[n] in b && forall w | w in b[..n] :: w in b;
      InsertBeforeAll(x, a, b[..n]);
      assert b == b[..n] + [b[n]];
    }
  }

  /** Sorting may be cut at any deadline: first everything up to it, then the rest. */
  lemma {:induction false} SortCut(t: int, ws: seq<Waiter>)
    ensures Sorting.StableSorted(Earlier(), ws)
         == Sorting.StableSorted(Earlier(), Due(t, ws)) + Sorting.StableSorted(Earlier(), Later(t, ws))
  {
    if ws != [] {
      var front, x := ws[..|ws| - 1], ws[|ws| - 1];
      SortCut(t, front);
      assert ws == front + [x];
      var a, b := Sorting.StableSorted(Earlier(), Due(t, front)), Sorting.StableSorted(Earlier(), Later(t, front));
      FilterAppend(t, front, x);
      Sorting.SortedAppend(Earlier(), front, x);
      Sorting.SortedAppend(Earlier(), Due(t, front), x);
      Sorting.SortedAppend(Earlier(), Later(t, front), x);
      CutMembers(t, front);
      hide Sorting.StableSorted, Sorting.Insert, Due, Later;
      if x.deadline <= t {
        InsertBeforeAll(x, a, b);
      } else {
        InsertAfterAll(x, a, b);
      }
    }
  }

  lemma CutMembers(t: int, ws: seq<Waiter>)
    ensures forall w | w in Sorting.StableSorted(Earlier(), Due(t, ws)) :: w.deadline <= t
    ensures forall w | w in Sorting.StableSorted(Earlier(), Later(t, ws)) :: t < w.deadline
  {
    forall w | w in Sorting.StableSorted(Earlier(), Due(t, ws))
      ensures w.deadline <= t
    {
      Sorting.SortedMember(Earlier(), Due(t, ws), w);
      FilterMembers(t, ws, w);
    }
    forall w | w in Sorting.StableSorted(Earlier(), Later(t, ws))
      ensures t < w.deadline
    {
      Sorting.SortedMember(Earlier(), Later(t, ws), w);
      FilterMembers(t, ws, w);
    }
  }

  /** One long step fires what two short steps fire, in the same order. */
  lemma BatchSplit(t: int, u: int, ws: seq<Waiter>)
    requires t <= u
    ensures Batch(u, ws) == Batch(t, ws) + Batch(u, Later(t, ws))
  {
    SortCut(t, Due(u, ws));
    FilterTwice(t, u, ws);
  }

  /** Splitting an advance leaves the same time, the same waiters and the same delivery
      order, hence the same sequence of sends and the same sequence of callbacks. */
  lemma AdvanceSplit(c: Clock, a: int, b: nat)
    ensures var two, one := Step(Step(c, Advance(a)), Advance(b)), Step(c, Advance(a + b));
      two.now == one.now && two.pending == one.pending && two.delivered == one.delivered && two.nextId == one.nextId
  {
    hide Batch, Due, Later, Sends, Calls;
    var t, u := c.now + a, c.now + a + b;
    BatchSplit(t, u, c.pending);
    FilterTwice(t, u, c.pending);
  }

  /** A second step backwards undoes the time but not the deliveries: then the two runs agree
      exactly when nothing was due between the place reached first and the place reached last. */
  lemma AdvanceSplitIff(c: Clock, a: int, b: int)
    requires Inv(c)
    ensures var two, one := Step(Step(c, Advance(a)), Advance(b)), Step(c, Advance(a + b));
            two.now == one.now
            && (two.pending == one.pending && two.delivered == one.delivered && two.nextId == one.nextId
                <==> b >= 0 || forall w | w in c.pending :: w.deadline <= c.now + a ==> w.deadline <= c.now + a + b)
  {
    hide Inv, MoveTo;
    if b >= 0 {
      AdvanceSplit(c, a, b);
    } else {
      MoveParts(c, c.now + a);
      ThereAndBack(c, c.now + a, c.now + a + b);
    }
  }

  lemma MoveParts(c: Clock, t: int)
    ensures var d := MoveTo(c, t);
            d.now == t && d.pending == Later(t, c.pending) && d.delivered == c.delivered + Batch(t, c.pending)
            && d.nextId == c.nextId
  {
    hide Batch, Later;
  }

  lemma ThereAndBack(c: Clock, t: int, u: int)
    requires Inv(c) && u <= t
    ensures var two, one := MoveTo(MoveTo(c, t), u), MoveTo(c, u);
            two.now == one.now
            && (two.pending == one.pending && two.delivered == one.delivered && two.nextId == one.nextId
                <==> forall w | w in c.pending :: w.deadline <= t ==> w.deadline <= u)
  {
    hide *;
    BackAgain(c, t, u);
    MoveParts(c, t);
    MoveParts(c, u);
    SameLaterIff(c.pending, u, t);
    if Later(u, c.pending) == Later(t, c.pending) {
      SameBatch(c.pending, u, t);
    }
  }

  lemma BackAgain(c: Clock, t: int, u: int)
    requires Inv(c) && u <= t
    ensures MoveTo(MoveTo(c, t), u) == MoveTo(c, t).(now := u)
  {
    hide *;
    MoveInv(c, t);
    MoveParts(c, t);
    RewindIsSilent(MoveTo(c, t), u);
    SetMoves(MoveTo(c, t), u);
  }

  lemma SetMoves(c: Clock, t: int)
    ensures Step(c, Set(t)) == MoveTo(c, t)
  {
    hide MoveTo;
  }

  lemma SameLaterIff(ws: seq<Waiter>, u: int, t: int)
    requires u <= t
    ensures Later(u, ws) == Later(t, ws) <==> forall w | w in ws :: w.deadline <= t ==> w.deadline <= u
  {
    if Later(u, ws) == Later(t, ws) {
      forall w | w in ws && w.deadline <= t
        ensures w.deadline <= u
      {
        FilterMembers(u, ws, w);
        FilterMembers(t, ws, w);
      }
    } else if forall w | w in ws :: w.deadline <= t ==> w.deadline <= u {
      SameFilters(ws, u, t);
    }
  }

  lemma {:induction false} SameFilters(ws: seq<Waiter>, u: int, t: int)
    requires u <= t && forall w | w in ws :: w.deadline <= t ==> w.deadline <= u
    ensures Later(u, ws) == Later(t, ws) && Due(u, ws) == Due(t, ws)
  {
    if ws != [] {
      assert ws[|ws| - 1] in ws && forall w | w in ws[..|ws| - 1] :: w in ws;
      SameFilters(ws[..|ws| - 1], u, t);
    }
  }

  lemma SameBatch(ws: seq<Waiter>, u: int, t: int)
    requires u <= t && Later(u, ws) == Later(t, ws)
    ensures Batch(u, ws) == Batch(t, ws)
  {
    SameLaterIff(ws, u, t);
    SameFilters(ws, u, t);
  }

  lemma {:induction false} StreamsConcat(a: seq<Waiter>, b: seq<Waiter>)
    ensures Sends(a + b) == Sends(a) + Sends(b) && Calls(a + b) == Calls(a) + Calls(b)
  {
    if b == [] {
      assert a + b == a;
    } else {
      assert (a + b)[..|a + b| - 1] == a + b[..|b| - 1];
      StreamsConcat(a, b[..|b| - 1]);
    }
  }

  lemma {:induction false} StreamKinds(ws: seq<Waiter>)
    ensures forall w | w in Sends(ws) :: !w.callback
    ensures forall w | w in Calls(ws) :: w.callback
  {
    if ws != [] {
      StreamKinds(ws[..|ws| - 1]);
    }
  }

  /** How sends and callbacks interleave does depend on the split: the two runs look the
      same to an observer exactly when the first part fires no callback or the second part
      sends on no channel. */
  lemma AdvanceSplitInterleaving(c: Clock, a: int, b: nat)
    ensures var two, one := Step(Step(c, Advance(a)), Advance(b)), Step(c, Advance(a + b));
      two.events == one.events <==>
        Calls(Batch(c.now + a, c.pending)) == [] || Sends(Batch(c.now + a + b, Later(c.now + a, c.pending))) == []
  {
    hide *;
    var t, u := c.now + a, c.now + a + b;
    var p, q := Batch(t, c.pending), Batch(u, Later(t, c.pending));
    SplitEvents(c, a, b);
    BatchSplit(t, u, c.pending);
    StreamsConcat(p, q);
    StreamKinds(p);
    StreamKinds(q);
    Interleaved(c.events, Sends(p), Calls(p), Sends(q), Calls(q));
  }

  /** A waiter due at 2: going to 2 and back to 1 delivers it, going to 1 does not. */
  lemma SplitCanDiffer()
    ensures var c := Run(New(0), [Register(2, false)]);
            var two, one := Step(Step(c, Advance(2)), Advance(-1)), Step(c, Advance(1));
            Inv(c) && two.delivered != one.delivered && two.pending != one.pending
  {
    RunInv(0, [Register(2, false)]);
    OneTimer();
    hide *;
    var c := Run(New(0), [Register(2, false)]);
    var w := Waiter(0, 2, false);
    TwoSteps(c, 2, -1);
    BackAgain(c, 2, 1);
    MoveParts(c, 1);
    MoveParts(c, 2);
    BatchMember(1, c.pending, w);
    BatchMember(2, c.pending, w);
    FilterMembers(1, c.pending, w);
    FilterMembers(2, c.pending, w);
    var two, one := MoveTo(MoveTo(c, 2), 1), MoveTo(c, 1);
    assert Step(c, Advance(2 + -1)) == Step(c, Advance(1)) == one;
    assert w in two.delivered && w !in one.delivered;
    assert w !in two.pending && w in one.pending;
  }

  lemma OneTimer()
    ensures Run(New(0), [Register(2, false)]) == Clock(0, [Waiter(0, 2, false)], 1, [], [])
  {
    assert [Register(2, false)][..0] == [];
  }

  lemma TwoSteps(c: Clock, a: int, b: int)
    ensures Step(Step(c, Advance(a)), Advance(b)) == MoveTo(MoveTo(c, c.now + a), c.now + a + b)
    ensures Step(c, Advance(a + b)) == MoveTo(c, c.now + a + b)
  {
    hide MoveTo;
    MoveParts(c, c.now + a);
  }

  /** A callback due at 1 and a timer at 2: in two steps the callback runs before the send, in one
      step after it. */
  lemma InterleavingCanDiffer()
    ensures var c := Run(New(0), [Register(1, true), Register(2, false)]);
            Step(Step(c, Advance(1)), Advance(1)).events != Step(c, Advance(2)).events
  {
    TwoTimers();
    hide *;
    var c := Run(New(0), [Register(1, true), Register(2, false)]);
    AdvanceSplitInterleaving(c, 1, 1);
    SmallAdvances(c);
    var v, w := Waiter(0, 1, true), Waiter(1, 2, false);
    BatchMember(1, c.pending, v);
    FilterMembers(1, c.pending, w);
    BatchMember(2, Later(1, c.pending), w);
    CallMember(Batch(1, c.pending), v);
    SendMember(Batch(2, Later(1, c.pending)), w);
  }

  lemma TwoTimers()
    ensures Run(New(0), [Register(1, true), Register(2, false)])
            == Clock(0, [Waiter(0, 1, true), Waiter(1, 2, false)], 2, [], [])
  {
    var ops := [Register(1, true), Register(2, false)];
    assert ops[..1] == [Register(1, true)] && [Register(1, true)][..0] == [];
  }

  lemma SmallAdvances(c: Clock)
    requires c.now == 0
    ensures c.now + 1 == 1 && c.now + 1 + 1 == 2
    ensures Step(c, Advance(1 + 1)) == Step(c, Advance(2))
  {
  }

  lemma {:induction false} CallMember(ws: seq<Waiter>, w: Waiter)
    requires w in ws && w.callback
    ensures w in Calls(ws)
  {
    if ws[|ws| - 1] != w {
      CallMember(ws[..|ws| - 1], w);
    }
  }

  lemma {:induction false} SendMember(ws: seq<Waiter>, w: Waiter)
    requires w in ws && !w.callback
    ensures w in Sends(ws)
  {
    if ws[|ws| - 1] != w {
      SendMember(ws[..|ws| - 1], w);
    }
  }

  lemma Interleaved(e: seq<Waiter>, sp: seq<Waiter>, cp: seq<Waiter>, sq: seq<Waiter>, cq: seq<Waiter>)
    requires (forall w | w in cp :: w.callback) && (forall w | w in sq :: !w.callback)
    ensures e + sp + cp + sq + cq == e + (sp + sq) + (cp + cq) <==> cp == [] || sq == []
  {
    Flatten(e, sp, sq, cp, cq);
    SwapMiddle(e + sp, cp, sq, cq);
  }

  lemma SplitEvents(c: Clock, a: int, b: nat)
    ensures var p, q := Batch(c.now + a, c.pending), Batch(c.now + a + b, Later(c.now + a, c.pending));
      Step(Step(c, Advance(a)), Advance(b)).events == c.events + Sends(p) + Calls(p) + Sends(q) + Calls(q)
    ensures var r := Batch(c.now + a + b, c.pending);
      Step(c, Advance(a + b)).events == c.events + Sends(r) + Calls(r)
  {
    hide Batch, Due, Later, Sends, Calls;
  }

  lemma Flatten(e: seq<Waiter>, a: seq<Waiter>, b: seq<Waiter>, c: seq<Waiter>, d: seq<Waiter>)
    ensures e + (a + b) + (c + d) == e + a + b + c + d
  {
  }

  lemma SwapMiddle(head: seq<Waiter>, calls: seq<Waiter>, sends: seq<Waiter>, tail: seq<Waiter>)
    requires (forall w | w in calls :: w.callback) && (forall w | w in sends :: !w.callback)
    ensures head + calls + sends + tail == head + sends + calls + tail <==> calls == [] || sends == []
  {
    var p, q := head + calls + sends + tail, head + sends + calls + tail;
    if calls != [] && sends != [] {
      assert p[|head|] == calls[0] && q[|head|] == sends[0];
      assert calls[0] in calls && sends[0] in sends;
    }
  }

  // ---------- what one step delivers ----------

  /** Strictly by deadline, ties by registration. */
  predicate InDeliveryOrder(ws: seq<Waiter>) {
    forall i, j | 0 <= i < j < |ws| ::
      ws[i].deadline < ws[j].deadline || (ws[i].deadline == ws[j].deadline && ws[i].id < ws[j].id)
  }

  lemma {:induction false} InsertKeepsOrder(x: Waiter, s: seq<Waiter>)
    requires InDeliveryOrder(s) && forall w | w in s :: w.id < x.id
    ensures InDeliveryOrder(Sorting.Insert(Earlier(), x, s))
  {
    if s != [] {
      var n := |s| - 1;
      assert forall i | 0 <= i < |s| :: s[i] in s && s[i].id < x.id;
      if s[n].deadline > x.deadline {
        assert forall w | w in s[..n] :: w in s;
        InsertKeepsOrder(x, s[..n]);
        forall w | w in Sorting.Insert(Earlier(), x, s[..n])
          ensures w.deadline < s[n].deadline || (w.deadline == s[n].deadline && w.id < s[n].id)
        {
          InsertMember(x, s[..n], w);
        }
        OrderAppend(Sorting.Insert(Earlier(), x, s[..n]), s[n]);
      } else {
        forall w | w in s
          ensures w.deadline <= x.deadline
        {
          var i :| 0 <= i < |s| && s[i] == w;
          assert i < n ==> s[i].deadline <= s[n].deadline;
        }
        OrderAppend(s, x);
      }
    }
  }

  lemma InsertMember(x: Waiter, s: seq<Waiter>, w: Waiter)
    ensures w in Sorting.Insert(Earlier(), x, s) <==> w == x || w in s
  {
    Sorting.InsertElements(Earlier(), x, s);
    assert w in Sorting.Insert(Earlier(), x, s) <==> w in multiset(Sorting.Insert(Earlier(), x, s));
  }

  lemma OrderAppend(s: seq<Waiter>, x: Waiter)
    requires InDeliveryOrder(s)
    requires forall w | w in s :: w.deadline < x.deadline || (w.deadline == x.deadline && w.id < x.id)
    ensures InDeliveryOrder(s + [x])
  {
    assert forall i | 0 <= i < |s| :: s[i] in s;
  }

  lemma {:induction false} SortIsDeliveryOrder(ws: seq<Waiter>)
    requires IdsIncrease(ws)
    ensures InDeliveryOrder(Sorting.StableSorted(Earlier(), ws))
  {
    if ws != [] {
      var front, x := ws[..|ws| - 1], ws[|ws| - 1];
      SortIsDeliveryOrder(front);
      var s := Sorting.StableSorted(Earlier(), front);
      forall w | w in s
        ensures w.id < x.id
      {
        Sorting.SortedMember(Earlier(), front, w);
      }
      InsertKeepsOrder(x, s);
    }
  }

  lemma BatchMember(t: int, ws: seq<Waiter>, w: Waiter)
    ensures w in Batch(t, ws) <==> w in ws && w.deadline <= t
  {
    Sorting.SortedMember(Earlier(), Due(t, ws), w);
    FilterMembers(t, ws, w);
  }

  /** Moving time delivers exactly the waiters that are due, each at or after its deadline,
      by deadline and then registration; the others keep waiting in their order. */
  lemma MoveDelivers(c: Clock, t: int)
    requires Inv(c)
    ensures var d := MoveTo(c, t);
      && d.delivered == c.delivered + Batch(t, c.pending)
      && InDeliveryOrder(Batch(t, c.pending))
      && (forall w :: w in Batch(t, c.pending) <==> w in c.pending && w.deadline <= t)
      && (forall w :: w in d.pending <==> w in c.pending && t < w.deadline)
  {
    FilterOrder(t, c.pending);
    SortIsDeliveryOrder(Due(t, c.pending));
    forall w
      ensures w in Batch(t, c.pending) <==> w in c.pending && w.deadline <= t
      ensures w in Later(t, c.pending) <==> w in c.pending && t < w.deadline
    {
      BatchMember(t, c.pending, w);
      FilterMembers(t, c.pending, w);
    }
  }

  /** Rewinding (or standing still) delivers nothing and loses nobody. */
  lemma RewindIsSilent(c: Clock, t: int)
    requires Inv(c) && t <= c.now
    ensures Step(c, Set(t)) == c.(now := t)
  {
    NothingDue(t, c.pending);
    assert Batch(t, c.pending) == [];
    assert c.delivered + [] == c.delivered && c.events + [] + [] == c.events;
  }

  // ---------- every run ----------

  lemma DistinctConcat(a: seq<Waiter>, b: seq<Waiter>)
    requires IdsDistinct(a) && IdsDistinct(b) && Apart(a, b)
    ensures IdsDistinct(a + b)
  {
    var s := a + b;
    forall i, j | 0 <= i < j < |s|
      ensures s[i].id != s[j].id
    {
      assert s[i] == if i < |a| then a[i] else b[i - |a|];
      assert s[j] == if j < |a| then a[j] else b[j - |a|];
      assert i < |a| ==> a[i] in a;
      assert j >= |a| ==> b[j - |a|] in b;
    }
  }

  lemma BatchDistinct(c: Clock, t: int)
    requires Inv(c)
    ensures IdsDistinct(Batch(t, c.pending))
  {
    MoveDelivers(c, t);
    var batch := Batch(t, c.pending);
    forall i, j | 0 <= i < j < |batch|
      ensures batch[i].id != batch[j].id
    {
      assert batch[i] in batch && batch[j] in batch;
      if batch[i].id == batch[j].id {
        SameIdSame(c.pending, batch[i], batch[j]);
      }
    }
  }

  lemma MoveInv(c: Clock, t: int)
    requires Inv(c)
    ensures Inv(MoveTo(c, t))
  {
    hide Batch, Due, Later, Sends, Calls, IdsIncrease, IdsDistinct;
    var d, batch := MoveTo(c, t), Batch(t, c.pending);
    MoveDelivers(c, t);
    FilterOrder(t, c.pending);
    BatchDistinct(c, t);
    assert Apart(c.delivered, batch);
    DistinctConcat(c.delivered, batch);
    forall v, w | v in d.pending && w in d.delivered
      ensures v.id != w.id
    {
      if w in batch && v.id == w.id {
        SameIdSame(c.pending, v, w);
      }
    }
  }

  lemma SameIdSame(ws: seq<Waiter>, v: Waiter, w: Waiter)
    requires IdsIncrease(ws) && v in ws && w in ws && v.id == w.id
    ensures v == w
  {
    var i :| 0 <= i < |ws| && ws[i] == v;
    var j :| 0 <= j < |ws| && ws[j] == w;
    assert !(i < j) && !(j < i);
  }

  lemma {:induction false} WithoutMembers(id: nat, ws: seq<Waiter>)
    ensures forall w :: w in Without(id, ws) <==> w in ws && w.id != id
    ensures IdsIncrease(ws) ==> IdsIncrease(Without(id, ws))
  {
    if ws != [] {
      var front, last := ws[..|ws| - 1], ws[|ws| - 1];
      WithoutMembers(id, front);
      assert ws == front + [last];
      var kept := Without(id, front);
      assert forall i | 0 <= i < |kept| :: kept[i] in kept && kept[i] in front;
    }
  }

  lemma AddInv(c: Clock, delay: int, callback: bool)
    requires Inv(c)
    ensures Inv(Add(c, delay, callback))
  {
    hide Inv;
    var w := Waiter(c.nextId, c.now + delay, callback);
    if delay <= 0 {
      DeliverInv(c, w, c.events + [w]);
    } else {
      AppendInv(c, w);
    }
  }

  lemma DeliverInv(c: Clock, w: Waiter, events: seq<Waiter>)
    requires Inv(c) && w.id == c.nextId
    ensures Inv(c.(nextId := c.nextId + 1, delivered := c.delivered + [w], events := events))
  {
    hide IdsIncrease, IdsDistinct;
    assert IdsDistinct([w]) by {
      OneDistinct(w);
    }
    DistinctConcat(c.delivered, [w]);
  }

  lemma OneDistinct(w: Waiter)
    ensures IdsDistinct([w])
  {
  }

  lemma AppendInv(c: Clock, w: Waiter)
    requires Inv(c) && w.id == c.nextId && w.deadline > c.now
    ensures Inv(c.(nextId := c.nextId + 1, pending := c.pending + [w]))
  {
    hide IdsDistinct, IdsIncrease;
    IncreaseAppend(c.pending, w);
  }

  lemma IncreaseAppend(ws: seq<Waiter>, w: Waiter)
    requires IdsIncrease(ws) && IdsBelow(ws, w.id)
    ensures IdsIncrease(ws + [w])
  {
    var p := ws + [w];
    forall i, j | 0 <= i < j < |p|
      ensures p[i].id < p[j].id
    {
      assert p[i] == ws[i] && ws[i] in ws;
    }
  }

  lemma StopInv(c: Clock, id: nat)
    requires Inv(c)
    ensures Inv(Stop(c, id))
  {
    WithoutMembers(id, c.pending);
  }

  lemma StepInv(c: Clock, op: Op)
    requires Inv(c)
    ensures Inv(Step(c, op))
  {
    hide Inv, MoveTo, Add, Stop;
    match op
    case Advance(d) => MoveInv(c, c.now + d);
    case Set(t) => MoveInv(c, t);
    case Register(delay, callback) => AddInv(c, delay, callback);
    case StopTimer(id) => StopInv(c, id);
  }

  lemma {:induction false} RunInv(now: int, ops: seq<Op>)
    ensures Inv(Run(New(now), ops))
  {
    if ops != [] {
      RunInv(now, ops[..|ops| - 1]);
      StepInv(Run(New(now), ops[..|ops| - 1]), ops[|ops| - 1]);
    }
  }

  /** In every run nobody is delivered twice. */
  lemma DeliveredAtMostOnce(now: int, ops: seq<Op>, i: nat, j: nat)
    requires i < j < |Run(New(now), ops).delivered|
    ensures Run(New(now), ops).delivered[i].id != Run(New(now), ops).delivered[j].id
  {
    RunInv(now, ops);
  }

  // ---------- when a timer fires ----------

  /** In the run of `ops` from `c` some instant is `t` or later. */
  ghost predicate Reaches(c: Clock, ops: seq<Op>, t: int) {
    exists k: nat | k <= |ops| :: Run(c, ops[..k]).now >= t
  }

  lemma ReachesOneMore(c: Clock, ops: seq<Op>, t: int)
    requires ops != []
    ensures Reaches(c, ops, t) <==> Reaches(c, ops[..|ops| - 1], t) || Run(c, ops).now >= t
  {
    hide Run;
    var front := ops[..|ops| - 1];
    assert forall k: nat | k <= |front| :: front[..k] == ops[..k];
    assert ops[..|ops|] == ops;
    if Reaches(c, ops, t) {
      var k: nat :| k <= |ops| && Run(c, ops[..k]).now >= t;
      assert k <= |front| ==> Run(c, front[..k]).now >= t;
    }
    if Reaches(c, front, t) {
      var k: nat :| k <= |front| && Run(c, front[..k]).now >= t;
      assert Run(c, ops[..k]).now >= t;
    }
  }

  /** One step delivers a pending waiter, or leaves it pending, by the instant it leads to. */
  lemma PendingStep(c: Clock, w: Waiter, op: Op)
    requires Inv(c) && w in c.pending && op != StopTimer(w.id)
    ensures if Step(c, op).now >= w.deadline then w in Step(c, op).delivered else w in Step(c, op).pending
  {
    match op
    case Advance(d) => PendingMove(c, w, c.now + d);
    case Set(t) => PendingMove(c, w, t);
    case Register(delay, callback) => hide MoveTo, Without;
    case StopTimer(id) =>
      WithoutMembers(id, c.pending);
      hide MoveTo, Without;
  }

  lemma PendingMove(c: Clock, w: Waiter, t: int)
    requires Inv(c) && w in c.pending
    ensures if t >= w.deadline then w in MoveTo(c, t).delivered else w in MoveTo(c, t).pending
    ensures MoveTo(c, t).now == t
  {
    MoveDelivers(c, t);
    MoveParts(c, t);
    hide MoveTo, Batch, Later, Inv;
  }

  lemma DeliveredStays(c: Clock, w: Waiter, op: Op)
    requires w in c.delivered
    ensures w in Step(c, op).delivered
  {
    hide Batch, Later, Sends, Calls, Without;
  }

  lemma {:induction false} PendingRun(c: Clock, w: Waiter, later: seq<Op>)
    requires Inv(c) && w in c.pending && StopTimer(w.id) !in later
    ensures Inv(Run(c, later))
    ensures if Reaches(c, later, w.deadline) then w in Run(c, later).delivered else w in Run(c, later).pending
  {
    if later == [] {
      assert Run(c, later[..0]) == c;
    } else {
      var front, op := later[..|later| - 1], later[|later| - 1];
      PendingRun(c, w, front);
      ReachesOneMore(c, later, w.deadline);
      hide Inv, Step, Reaches;
      StepInv(Run(c, front), op);
      if w in Run(c, front).pending {
        PendingStep(Run(c, front), w, op);
      } else {
        DeliveredStays(Run(c, front), w, op);
      }
    }
  }

  /** A timer set for `d` from now and not stopped has fired exactly when `d` is not positive or
      the clock has since stood at `d` from then or later, however it was moved. */
  lemma FiresWhenReached(now: int, before: seq<Op>, d: int, callback: bool, later: seq<Op>)
    requires StopTimer(Run(New(now), before).nextId) !in later
    ensures var c := Run(New(now), before);
            var begun := Step(c, Register(d, callback));
            (exists w | w in Run(begun, later).delivered :: w.id == c.nextId)
            <==> d <= 0 || Reaches(begun, later, c.now + d)
  {
    hide *;
    var c := Run(New(now), before);
    RunInv(now, before);
    StepInv(c, Register(d, callback));
    SetTimer(c, d, callback);
    TimerRun(Step(c, Register(d, callback)), Waiter(c.nextId, c.now + d, callback), d, later);
  }

  lemma SetTimer(c: Clock, d: int, callback: bool)
    ensures var w := Waiter(c.nextId, c.now + d, callback);
            w in if d <= 0 then Step(c, Register(d, callback)).delivered else Step(c, Register(d, callback)).pending
  {
  }

  lemma TimerRun(c: Clock, w: Waiter, d: int, later: seq<Op>)
    requires Inv(c) && StopTimer(w.id) !in later && w in if d <= 0 then c.delivered else c.pending
    ensures (exists v | v in Run(c, later).delivered :: v.id == w.id) <==> d <= 0 || Reaches(c, later, w.deadline)
  {
    hide *;
    if d <= 0 {
      StillDelivered(c, w, later);
    } else {
      PendingRun(c, w, later);
      PendingUndelivered(Run(c, later));
    }
  }

  lemma PendingUndelivered(c: Clock)
    requires Inv(c)
    ensures forall v, w | v in c.pending && w in c.delivered :: v.id != w.id
  {
  }

  lemma {:induction false} StillDelivered(c: Clock, w: Waiter, later: seq<Op>)
    requires w in c.delivered
    ensures w in Run(c, later).delivered
  {
    if later != [] {
      StillDelivered(c, w, later[..|later| - 1]);
      DeliveredStays(Run(c, later[..|later| - 1]), w, later[|later| - 1]);
    }
  }

  /** Registered, neither waiting nor delivered: stopped. */
  ghost predicate Gone(c: Clock, id: nat) {
    Inv(c) && id < c.nextId && !IsPending(c, id) && forall w | w in c.delivered :: w.id != id
  }

  lemma GoneMove(c: Clock, id: nat, t: int)
    requires Gone(c, id)
    ensures Gone(MoveTo(c, t), id)
  {
    MoveInv(c, t);
    MoveDelivers(c, t);
    hide Batch, Due, Later, Sends, Calls;
  }

  lemma GoneAdd(c: Clock, id: nat, delay: int, callback: bool)
    requires Gone(c, id)
    ensures Gone(Add(c, delay, callback), id)
  {
    AddInv(c, delay, callback);
    hide Inv;
  }

  lemma GoneStop(c: Clock, id: nat, other: nat)
    requires Gone(c, id)
    ensures Gone(Stop(c, other), id)
  {
    StopInv(c, other);
    WithoutMembers(other, c.pending);
    hide Inv, Without;
  }

  lemma GoneStep(c: Clock, id: nat, op: Op)
    requires Gone(c, id)
    ensures Gone(Step(c, op), id)
  {
    hide Gone, MoveTo, Add, Stop;
    match op
    case Advance(d) => GoneMove(c, id, c.now + d);
    case Set(t) => GoneMove(c, id, t);
    case Register(delay, callback) => GoneAdd(c, id, delay, callback);
    case StopTimer(other) => GoneStop(c, id, other);
  }

  /** A stopped waiter stays undelivered whatever happens later. */
  lemma {:induction false} GoneStaysGone(c: Clock, id: nat, ops: seq<Op>)
    requires Gone(c, id)
    ensures Gone(Run(c, ops), id)
  {
    if ops != [] {
      GoneStaysGone(c, id, ops[..|ops| - 1]);
      GoneStep(Run(c, ops[..|ops| - 1]), id, ops[|ops| - 1]);
    }
  }

  /** A `Stop` that found its timer waiting wins for ever: no later advance delivers it. */
  lemma StopWins(now: int, before: seq<Op>, id: nat, later: seq<Op>)
    requires IsPending(Run(New(now), before), id)
    ensures forall w | w in Run(Step(Run(New(now), before), StopTimer(id)), later).delivered :: w.id != id
  {
    RunInv(now, before);
    var c := Run(New(now), before);
    WithoutMembers(id, c.pending);
    StepInv(c, StopTimer(id));
    GoneStaysGone(Step(c, StopTimer(id)), id, later);
  }

  // ---------- the code ----------

  class FakeWaiter {
    const w: Waiter
    var fired: bool
    var stopped: bool

    constructor (w: Waiter)
      ensures this.w == w && !fired && !stopped
    {
      this.w, fired, stopped := w, false, false;
    }
  }

  /** What the pointers in `ws` stand for. */
  function Values(ws: seq<FakeWaiter>): seq<Waiter> {
    if ws == [] then [] else Values(ws[..|ws| - 1]) + [ws[|ws| - 1].w]
  }

  /** The same, skipping entries that were stopped and not yet dropped from the list. */
  ghost function Live(ws: seq<FakeWaiter>, stopped: set<FakeWaiter>): seq<Waiter> {
    if ws == [] then []
    else if ws[|ws| - 1] in stopped then Live(ws[..|ws| - 1], stopped)
    else Live(ws[..|ws| - 1], stopped) + [ws[|ws| - 1].w]
  }

  function EarlierWaiter(): (FakeWaiter, FakeWaiter) -> bool {
    (x: FakeWaiter, y: FakeWaiter) => x.w.deadline <= y.w.deadline
  }

  lemma ValuesAppend(ws: seq<FakeWaiter>, x: FakeWaiter)
    ensures Values(ws + [x]) == Values(ws) + [x.w]
  {
    assert (ws + [x])[..|ws|] == ws;
  }

  lemma {:induction false} ValuesInsert(x: FakeWaiter, ws: seq<FakeWaiter>)
    ensures Values(Sorting.Insert(EarlierWaiter(), x, ws)) == Sorting.Insert(Earlier(), x.w, Values(ws))
  {
    if ws != [] {
      var front, last := ws[..|ws| - 1], ws[|ws| - 1];
      ValuesInsert(x, front);
      ValuesAppend(ws, x);
      ValuesAppend(Sorting.Insert(EarlierWaiter(), x, front), last);
    }
  }

  lemma {:induction false} ValuesSorted(ws: seq<FakeWaiter>)
    ensures Values(Sorting.StableSorted(EarlierWaiter(), ws)) == Sorting.StableSorted(Earlier(), Values(ws))
  {
    if ws != [] {
      var front, last := ws[..|ws| - 1], ws[|ws| - 1];
      ValuesSorted(front);
      ValuesInsert(last, Sorting.StableSorted(EarlierWaiter(), front));
      Sorting.SortedAppend(Earlier(), Values(front), last.w);
    }
  }

  lemma LiveAppend(ws: seq<FakeWaiter>, stopped: set<FakeWaiter>, x: FakeWaiter)
    ensures Live(ws + [x], stopped) == if x in stopped then Live(ws, stopped) else Live(ws, stopped) + [x.w]
  {
    assert (ws + [x])[..|ws|] == ws;
  }

  lemma {:induction false} AllLive(ws: seq<FakeWaiter>, stopped: set<FakeWaiter>)
    requires forall i | 0 <= i < |ws| :: ws[i] !in stopped
    ensures Live(ws, stopped) == Values(ws)
  {
    if ws != [] {
      AllLive(ws[..|ws| - 1], stopped);
    }
  }

  lemma {:induction false} LiveMember(ws: seq<FakeWaiter>, stopped: set<FakeWaiter>, i: nat)
    requires i < |ws| && ws[i] !in stopped
    ensures ws[i].w in Live(ws, stopped)
  {
    if i < |ws| - 1 {
      LiveMember(ws[..|ws| - 1], stopped, i);
    }
  }

  lemma {:induction false} LiveOrigin(ws: seq<FakeWaiter>, stopped: set<FakeWaiter>, w: Waiter) returns (i: nat)
    requires w in Live(ws, stopped)
    ensures i < |ws| && ws[i] !in stopped && ws[i].w == w
  {
    i := |ws| - 1;
    if ws[i] in stopped || ws[i].w != w {
      i := LiveOrigin(ws[..|ws| - 1], stopped, w);
    }
  }

  /** Stopping takes exactly that waiter out of the live list. */
  lemma {:induction false} StopDrops(ws: seq<FakeWaiter>, stopped: set<FakeWaiter>, t: FakeWaiter)
    requires forall i | 0 <= i < |ws| && ws[i].w.id == t.w.id :: ws[i] == t
    ensures Live(ws, stopped + {t}) == Without(t.w.id, Live(ws, stopped))
  {
    if ws != [] {
      var front, last := ws[..|ws| - 1], ws[|ws| - 1];
      StopDrops(front, stopped, t);
      if last !in stopped {
        WithoutAppend(t.w.id, Live(front, stopped), last.w);
      }
    }
  }

  lemma WithoutAppend(id: nat, ws: seq<Waiter>, x: Waiter)
    ensures Without(id, ws + [x]) == if x.id == id then Without(id, ws) else Without(id, ws) + [x]
  {
    assert (ws + [x])[..|ws|] == ws;
  }

  lemma StreamAppend(ws: seq<Waiter>, x: Waiter)
    ensures Sends(ws + [x]) == if x.callback then Sends(ws) else Sends(ws) + [x]
    ensures Calls(ws + [x]) == if x.callback then Calls(ws) + [x] else Calls(ws)
  {
    assert (ws + [x])[..|ws|] == ws;
  }

  lemma EmptyStreams()
    ensures Values([]) == [] && Sends([]) == [] && Calls([]) == []
  {
  }

  predicate NoTwins(ws: seq<FakeWaiter>) {
    forall i, j | 0 <= i < j < |ws| :: ws[i] != ws[j]
  }

  lemma NotBefore(ws: seq<FakeWaiter>, i: nat)
    requires NoTwins(ws) && i < |ws|
    ensures ws[i] !in ws[..i]
  {
  }

  lemma NoTwinsAppend(ws: seq<FakeWaiter>, x: FakeWaiter)
    requires NoTwins(ws)
    ensures x !in ws ==> NoTwins(ws + [x])
  {
  }

  lemma EmptyLists(t: int, stopped: set<FakeWaiter>)
    ensures Values([]) == [] && Live([], stopped) == [] && Due(t, []) == [] && Later(t, []) == [] && NoTwins([])
  {
  }

  datatype SleepStart = SleepRefused | NoSleep | Asleep(waiter: FakeWaiter)

  class FakeClock {
    var now: int
    var waiters: seq<FakeWaiter>
    ghost var made: set<FakeWaiter>
    var nextId: nat
    ghost var delivered: seq<Waiter>
    ghost var events: seq<Waiter>

    ghost function Stopped(): set<FakeWaiter>
      reads this, made
    {
      set x | x in made && x.stopped
    }

    ghost function View(): Clock
      reads this, made
    {
      Clock(now, Live(waiters, Stopped()), nextId, delivered, events)
    }

    /** The list holds distinct, unfired waiters, and every waiter handed out that is
        neither fired nor stopped is on it. */
    ghost predicate Valid()
      reads this, made
    {
      && (forall i | 0 <= i < |waiters| :: waiters[i] in made && !waiters[i].fired)
      && NoTwins(waiters)
      && (forall x | x in made :: x.w.id < nextId && (x.fired || x.stopped || x in waiters))
      && (forall x, y | x in made && y in made && x.w.id == y.w.id :: x == y)
    }

    constructor (now: int)
      ensures Valid() && View() == New(now) && made == {}
    {
      this.now, waiters := now, [];
      made, nextId, delivered, events := {}, 0, [], [];
    }

    /** `NewTimer` and `AfterFunc`: a non-positive delay fires on the spot. */
    method AddWaiter(d: int, callback: bool) returns (x: FakeWaiter)
      requires Valid()
      modifies this
      ensures Valid() && View() == Add(old(View()), d, callback)
      ensures fresh(x) && made == old(made) + {x} && x.w == Waiter(old(nextId), old(now) + d, callback)
    {
      hide Live, Inv, Stop, Without, NoTwins;
      ghost var stopped := Stopped();
      x := new FakeWaiter(Waiter(nextId, now + d, callback));
      assert x !in made && x !in waiters;
      made, nextId := made + {x}, nextId + 1;
      if d <= 0 {
        x.fired := true;
        delivered, events := delivered + [x.w], events + [x.w];
      } else {
        LiveAppend(waiters, stopped, x);
        NoTwinsAppend(waiters, x);
        waiters := waiters + [x];
      }
      assert Stopped() == stopped;
    }

    /** True exactly when the waiter was still pending; then it is pending no more. */
    method StopWaiter(x: FakeWaiter) returns (ok: bool)
      requires Valid() && x in made
      modifies x
      ensures Valid() && View() == Stop(old(View()), x.w.id)
      ensures ok <==> IsPending(old(View()), x.w.id)
    {
      ghost var was := Stopped();
      StopDrops(waiters, was, x);
      if x.fired || x.stopped {
        assert was + {x} == was || x !in waiters;
        NotListed(waiters, was, x);
        return false;
      }
      ghost var i :| 0 <= i < |waiters| && waiters[i] == x;
      LiveMember(waiters, was, i);
      x.stopped := true;
      assert Stopped() == was + {x};
      ok := true;
    }

    /** `Sleep` as far as its wait: refused at once when the context is done, over at once for a
        non-positive time, else waiting on a waiter of its own. */
    method BeginSleep(done: bool, d: int) returns (r: SleepStart)
      requires Valid()
      modifies this
      ensures Valid()
      ensures done ==> r == SleepRefused
      ensures !done && d <= 0 ==> r == NoSleep
      ensures done || d <= 0 ==> View() == old(View()) && made == old(made)
      ensures !done && d > 0 ==>
                && r.Asleep? && fresh(r.waiter) && made == old(made) + {r.waiter}
                && r.waiter.w == Waiter(old(nextId), old(now) + d, false)
                && View() == Add(old(View()), d, false) && IsPending(View(), r.waiter.w.id)
    {
      if done {
        return SleepRefused;
      }
      if d <= 0 {
        return NoSleep;
      }
      var x := AddWaiter(d, false);
      assert Waiter(old(nextId), old(now) + d, false) in View().pending;
      return Asleep(x);
    }

    /** A cancelled sleeper marks its waiter stopped without asking whether it fired: a waiter
        that did keeps its delivery, one that did not will never have one. */
    method CancelSleep(x: FakeWaiter)
      requires Valid() && x in made
      modifies x
      ensures Valid() && View() == Stop(old(View()), x.w.id) && !IsPending(View(), x.w.id)
    {
      ghost var was := Stopped();
      StopDrops(waiters, was, x);
      x.stopped := true;
      assert Stopped() == was + {x};
      WithoutMembers(x.w.id, Live(waiters, was));
    }

    method Advance(d: int)
      requires Valid()
      modifies this, made
      ensures Valid() && View() == Step(old(View()), Op.Advance(d)) && made == old(made)
      ensures now == old(now) + d
    {
      FireDue(now + d);
    }

    method Set(t: int)
      requires Valid()
      modifies this, made
      ensures Valid() && View() == Step(old(View()), Op.Set(t)) && made == old(made)
      ensures now == t
    {
      FireDue(t);
    }

    method Partition() returns (due: seq<FakeWaiter>, rest: seq<FakeWaiter>)
      requires Valid()
      ensures Values(due) == Due(now, Live(waiters, Stopped())) && Values(rest) == Later(now, Live(waiters, Stopped()))
      ensures forall i | 0 <= i < |due| :: due[i] in waiters && !due[i].stopped && due[i].w.deadline <= now
      ensures forall i | 0 <= i < |rest| :: rest[i] in waiters && !rest[i].stopped && now < rest[i].w.deadline
      ensures NoTwins(due) && NoTwins(rest)
      ensures forall x | x in waiters :: x.stopped || x in due || x in rest
    {
      hide Values, Live, Due, Later, NoTwins;
      EmptyLists(now, Stopped());
      assert waiters[..0] == [];
      due, rest := [], [];
      for i := 0 to |waiters|
        invariant Values(due) == Due(now, Live(waiters[..i], Stopped()))
        invariant Values(rest) == Later(now, Live(waiters[..i], Stopped()))
        invariant forall j | 0 <= j < |due| :: due[j] in waiters[..i] && !due[j].stopped && due[j].w.deadline <= now
        invariant forall j | 0 <= j < |rest| :: rest[j] in waiters[..i] && !rest[j].stopped && now < rest[j].w.deadline
        invariant NoTwins(due) && NoTwins(rest)
        invariant forall j | 0 <= j < i :: waiters[j].stopped || waiters[j] in due || waiters[j] in rest
      {
        var x := waiters[i];
        assert waiters[..i + 1][..i] == waiters[..i] && waiters[..i + 1] == waiters[..i] + [x];
        NotBefore(waiters, i);
        assert x !in waiters[..i] && x in made;
        LiveAppend(waiters[..i], Stopped(), x);
        if x.stopped {
          continue;
        }
        FilterAppend(now, Live(waiters[..i], Stopped()), x.w);
        NoTwinsAppend(due, x);
        NoTwinsAppend(rest, x);
        if x.w.deadline <= now {
          ValuesAppend(due, x);
          due := due + [x];
        } else {
          ValuesAppend(rest, x);
          rest := rest + [x];
        }
      }
      assert waiters[..|waiters|] == waiters;
    }

    method SortDue(due: seq<FakeWaiter>) returns (sorted: seq<FakeWaiter>)
      ensures Values(sorted) == Sorting.StableSorted(Earlier(), Values(due))
      ensures forall x :: x in sorted <==> x in due
    {
      var a := new FakeWaiter[|due|](i requires 0 <= i < |due| => due[i]);
      assert a[..] == due;
      Sorting.SortInPlace(a, EarlierWaiter());
      ValuesSorted(due);
      sorted := a[..];
      forall x
        ensures x in sorted <==> x in due
      {
        Sorting.SortedMember(EarlierWaiter(), due, x);
      }
    }

    method FireDue(t: int)
      requires Valid()
      modifies this, made
      ensures Valid() && View() == MoveTo(old(View()), t) && made == old(made)
    {
      hide Values, Live, Due, Later, Sends, Calls, Sorting.StableSorted;
      ghost var was, stopped := View(), Stopped();
      now := t;
      assert was.pending == Live(waiters, stopped);
      assert Stopped() == stopped;
      var due, rest := Partition();
      assert Stopped() == stopped;
      assert Live(waiters, Stopped()) == was.pending;
      assert Values(due) == Due(now, Live(waiters, Stopped()));
      assert Values(due) == Due(t, was.pending);
      assert Values(rest) == Later(t, was.pending);
      waiters := rest;
      var sorted := SortDue(due);
      forall i | 0 <= i < |sorted|
        ensures sorted[i] in made
      {
        assert sorted[i] in sorted && sorted[i] in due;
        var j :| 0 <= j < |due| && due[j] == sorted[i];
      }
      Fire(sorted);
      assert Stopped() == stopped;
      AllLive(rest, stopped);
      assert Values(sorted) == Batch(t, was.pending);
    }

    /** Fires the sorted waiters: flags and channel sends first, callbacks afterwards. */
    method Fire(sorted: seq<FakeWaiter>)
      requires forall i | 0 <= i < |sorted| :: sorted[i] in made
      modifies this`delivered, this`events, made
      ensures forall x | x in made :: x.fired == (old(x.fired) || x in sorted) && x.stopped == old(x.stopped)
      ensures delivered == old(delivered) + Values(sorted)
      ensures events == old(events) + Sends(Values(sorted)) + Calls(Values(sorted))
    {
      EmptyStreams();
      hide Values, Sends, Calls;
      ghost var callbacks: seq<Waiter> := [];
      for i := 0 to |sorted|
        invariant forall x | x in made :: x.fired == (old(x.fired) || x in sorted[..i]) && x.stopped == old(x.stopped)
        invariant delivered == old(delivered) + Values(sorted[..i])
        invariant events == old(events) + Sends(Values(sorted[..i]))
        invariant callbacks == Calls(Values(sorted[..i]))
      {
        var x := sorted[i];
        assert sorted[..i + 1] == sorted[..i] + [x];
        assert x in made;
        ValuesAppend(sorted[..i], x);
        StreamAppend(Values(sorted[..i]), x.w);
        x.fired := true;
        delivered := delivered + [x.w];
        if x.w.callback {
          callbacks := callbacks + [x.w];
        } else {
          events := events + [x.w];
        }
      }
      assert sorted[..|sorted|] == sorted;
      events := events + callbacks;
    }
  }

  /** A fired or stopped waiter is nobody's pending waiter. */
  lemma NotListed(ws: seq<FakeWaiter>, stopped: set<FakeWaiter>, t: FakeWaiter)
    requires forall i | 0 <= i < |ws| && ws[i].w.id == t.w.id :: ws[i] == t
    requires t in stopped || t !in ws
    ensures Without(t.w.id, Live(ws, stopped)) == Live(ws, stopped)
    ensures forall w | w in Live(ws, stopped) :: w.id != t.w.id
  {
    forall w | w in Live(ws, stopped)
      ensures w.id != t.w.id
    {
      var i := LiveOrigin(ws, stopped, w);
    }
    NothingWithout(t.w.id, Live(ws, stopped));
  }

  lemma {:induction false} NothingWithout(id: nat, ws: seq<Waiter>)
    requires forall w | w in ws :: w.id != id
    ensures Without(id, ws) == ws
  {
    if ws != [] {
      assert ws == ws[..|ws| - 1] + [ws[|ws| - 1]];
      assert ws[|ws| - 1] in ws && forall w | w in ws[..|ws| - 1] :: w in ws;
      NothingWithout(id, ws[..|ws| - 1]);
    }
  }
}
