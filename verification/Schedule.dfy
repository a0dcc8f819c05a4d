/** The active-window schedule: the pointwise evaluator and the bounded search for its
    next change. Instants are nanoseconds since 1970-01-01 UTC; the zone is a fixed offset. */
module Schedule {
  import opened Basics
  import Sorting

  const SECOND: int := 1_000_000_000
  const MINUTE: int := 60 * SECOND
  const HOUR: int := 60 * MINUTE
  const DAY: int := 24 * HOUR
  const MAX_LOOKAHEAD_DAYS: nat := 8

  /** `days` is indexed from Sunday; `start` and `end` are offsets from local midnight. */
  datatype Window = Window(days: seq<bool>, start: int, end: int)

  datatype Schedule = Schedule(windows: seq<Window>, offset: int)

  /** What scenario validation guarantees of a window. */
  predicate ValidWindow(w: Window) {
    |w.days| == 7 && 0 <= w.start < w.end < DAY
  }

  predicate Valid(s: Schedule) {
    forall w | w in s.windows :: ValidWindow(w)
  }

  function DayOf(s: Schedule, t: int): int {
    (t + s.offset) / DAY
  }

  function Midnight(s: Schedule, day: int): int {
    day * DAY - s.offset
  }

  /** Day 0 was a Thursday. */
  function Weekday(day: int): (wd: int)
    ensures 0 <= wd < 7
  {
    (day + 4) % 7
  }

  /** Read off the clock fields: hours, minutes, seconds, nanoseconds. */
  function SinceMidnight(s: Schedule, t: int): (off: int)
    ensures 0 <= off < DAY
    ensures t == Midnight(s, DayOf(s, t)) + off
  {
    var local := (t + s.offset) % DAY;
    var h := local / HOUR;
    var inHour := local - h * HOUR;
    var m := inHour / MINUTE;
    var inMinute := inHour - m * MINUTE;
    var sec := inMinute / SECOND;
    var ns := inMinute - sec * SECOND;
    h * HOUR + m * MINUTE + sec * SECOND + ns
  }

  predicate Covers(s: Schedule, w: Window, t: int)
    requires ValidWindow(w)
  {
    w.days[Weekday(DayOf(s, t))] && w.start <= SinceMidnight(s, t) < w.end
  }

  predicate Active(s: Schedule, t: int)
    requires Valid(s)
  {
    s.windows == [] || exists w | w in s.windows :: Covers(s, w, t)
  }

  /** What activity means, in days counted from Thursday 1 January 1970, weekdays counted from
      Sunday, and nanoseconds since local midnight. */
  lemma ActiveMeans(s: Schedule, t: int)
    requires Valid(s)
    ensures var n, off := (t + s.offset) / 86_400_000_000_000, (t + s.offset) % 86_400_000_000_000;
            Active(s, t) <==>
              s.windows == [] || exists w | w in s.windows :: w.days[(n + 4) % 7] && w.start <= off < w.end
  {
    var n, off := (t + s.offset) / 86_400_000_000_000, (t + s.offset) % 86_400_000_000_000;
    DayUnique(s, t, n);
    assert SinceMidnight(s, t) == off;
    assert forall w | w in s.windows :: Covers(s, w, t) <==> w.days[(n + 4) % 7] && w.start <= off < w.end;
  }

  /** Thursdays from eight to six: on Thursday 1 January 1970 at nine the window is on, and it
      goes off at six that evening; the day before and the day after it is off. */
  lemma OnThursday()
    ensures var hour, day := 3_600_000_000_000, 86_400_000_000_000;
            var s := Schedule([Window([false, false, false, false, true, false, false], 8 * hour, 18 * hour)], 0);
            && Valid(s) && Active(s, 9 * hour) && !Active(s, 9 * hour - day) && !Active(s, 9 * hour + day)
            && IsNextFlip(s, 9 * hour, Some(18 * hour))
  {
    var hour, day := 3_600_000_000_000, 86_400_000_000_000;
    var w := Window([false, false, false, false, true, false, false], 8 * hour, 18 * hour);
    var s := Schedule([w], 0);
    assert w in s.windows;
    DayUnique(s, 9 * hour - day, -1);
    DayUnique(s, 9 * hour + day, 1);
    forall u | 9 * hour <= u <= 18 * hour
      ensures Active(s, u) <==> u < 18 * hour
    {
      DayUnique(s, u, 0);
    }
    assert forall u | 9 * hour <= u < 18 * hour :: Active(s, u) == Active(s, 9 * hour);
  }

  /** `e` is the Start or End of a window on the calendar day `day`. */
  predicate EdgeOn(s: Schedule, day: int, e: int)
    requires Valid(s)
  {
    exists w | w in s.windows ::
      w.days[Weekday(day)] && (e == Midnight(s, day) + w.start || e == Midnight(s, day) + w.end)
  }

  lemma DayUnique(s: Schedule, t: int, day: int)
    requires Midnight(s, day) <= t < Midnight(s, day) + DAY
    ensures DayOf(s, t) == day && SinceMidnight(s, t) == t - Midnight(s, day)
  {
  }

  /** Activity can only change at an edge: nothing happens at a bare midnight, because
      every window ends before its day does. */
  lemma FlipIsEdge(s: Schedule, u: int)
    requires Valid(s) && Active(s, u) != Active(s, u - 1)
    ensures EdgeOn(s, DayOf(s, u), u)
  {
    var d, off := DayOf(s, u), SinceMidnight(s, u);
    if off > 0 {
      DayUnique(s, u - 1, d);
    } else {
      DayUnique(s, u - 1, d - 1);
    }
    if Active(s, u) {
      var w :| w in s.windows && Covers(s, w, u);
      assert !Covers(s, w, u - 1);
      assert u == Midnight(s, d) + w.start;
    } else {
      var w :| w in s.windows && Covers(s, w, u - 1);
      assert !Covers(s, w, u);
      assert u == Midnight(s, d) + w.end;
    }
  }

  /** If every edge in `(t, u]` leaves the state as it is at `t`, so does every instant. */
  lemma {:induction false} ConstantThrough(s: Schedule, t: int, u: int)
    requires Valid(s) && t <= u
    requires forall e | t < e <= u && EdgeOn(s, DayOf(s, e), e) :: Active(s, e) == Active(s, t)
    ensures Active(s, u) == Active(s, t)
    decreases u - t
  {
    if t < u {
      ConstantThrough(s, t, u - 1);
      if Active(s, u) != Active(s, u - 1) {
        FlipIsEdge(s, u);
      }
    }
  }

  /** The schedule repeats every seven days. */
  lemma WeeklyPeriod(s: Schedule, t: int)
    requires Valid(s)
    ensures Active(s, t + 7 * DAY) == Active(s, t)
  {
    DayUnique(s, t + 7 * DAY, DayOf(s, t) + 7);
    assert Weekday(DayOf(s, t) + 7) == Weekday(DayOf(s, t));
    assert forall w | w in s.windows :: Covers(s, w, t + 7 * DAY) == Covers(s, w, t);
  }

  /** Constant for one whole week means constant for ever. */
  lemma {:induction false} ConstantForever(s: Schedule, t: int, u: int)
    requires Valid(s) && t <= u
    requires forall v | t <= v < t + 7 * DAY :: Active(s, v) == Active(s, t)
    ensures Active(s, u) == Active(s, t)
    decreases u - t
  {
    if u >= t + 7 * DAY {
      ConstantForever(s, t, u - 7 * DAY);
      WeeklyPeriod(s, u - 7 * DAY);
    }
  }

  /** `r` is the first change after `t`, and `None` says there is none, ever. */
  ghost predicate IsNextFlip(s: Schedule, t: int, r: Option<int>)
    requires Valid(s)
  {
    match r
    case Some(e) => t < e && Active(s, e) != Active(s, t) && forall u | t <= u < e :: Active(s, u) == Active(s, t)
    case None => forall u | t <= u :: Active(s, u) == Active(s, t)
  }

  lemma NextFlipUnique(s: Schedule, t: int, q: Option<int>, r: Option<int>)
    requires Valid(s) && IsNextFlip(s, t, q) && IsNextFlip(s, t, r)
    ensures q == r
  {
    if q.Some? && r.Some? {
      assert !(q.value < r.value) && !(r.value < q.value);
    }
  }

  /** The other reading of the search: the first instant at or after `t` that differs from the
      one before it. */
  ghost predicate IsFlipAtOrAfter(s: Schedule, t: int, r: Option<int>)
    requires Valid(s)
  {
    match r
    case Some(e) =>
      t <= e && Active(s, e) != Active(s, e - 1) && forall u | t <= u < e :: Active(s, u) == Active(s, u - 1)
    case None => forall u | t <= u :: Active(s, u) == Active(s, u - 1)
  }

  /** The two readings agree exactly when activity does not change at `t` itself. */
  lemma ReadingsAgreeIff(s: Schedule, t: int, r: Option<int>)
    requires Valid(s) && IsNextFlip(s, t, r)
    ensures IsFlipAtOrAfter(s, t, r) <==> Active(s, t) == Active(s, t - 1)
  {
    hide Active;
    if Active(s, t) == Active(s, t - 1) {
      match r
      case Some(e) =>
        assert Active(s, e - 1) == Active(s, t);
        forall u | t <= u < e
          ensures Active(s, u) == Active(s, u - 1)
        {
          assert Active(s, u) == Active(s, t);
          assert u > t ==> Active(s, u - 1) == Active(s, t);
        }
      case None =>
        forall u | t <= u
          ensures Active(s, u) == Active(s, u - 1)
        {
          assert Active(s, u) == Active(s, t);
          assert u > t ==> Active(s, u - 1) == Active(s, t);
        }
    }
  }

  /** They do differ, for one, at the start of a daily window: the documented reading answers with
      that very instant, the code with the window's end. */
  lemma ReadingsCanDiffer()
    ensures var w := Window([true, true, true, true, true, true, true], 0, HOUR);
            var s := Schedule([w], 0);
            && Valid(s) && Active(s, 0) != Active(s, -1)
            && IsFlipAtOrAfter(s, 0, Some(0)) && IsNextFlip(s, 0, Some(HOUR))
  {
    var w := Window([true, true, true, true, true, true, true], 0, HOUR);
    var s := Schedule([w], 0);
    forall u | -1 <= u <= HOUR
      ensures Active(s, u) <==> 0 <= u < HOUR
    {
      DayUnique(s, u, if u < 0 then -1 else 0);
      assert w in s.windows;
    }
    assert forall u | 0 <= u < HOUR :: Active(s, u) == Active(s, 0);
  }

  /** An empty window list is always active and never changes. */
  method IsActive(s: Schedule, t: int) returns (active: bool)
    requires Valid(s)
    ensures active <==> Active(s, t)
    ensures var n, off := (t + s.offset) / 86_400_000_000_000, (t + s.offset) % 86_400_000_000_000;
            active <==>
              s.windows == [] || exists w | w in s.windows :: w.days[(n + 4) % 7] && w.start <= off < w.end
  {
    ActiveMeans(s, t);
    if |s.windows| == 0 {
      return true;
    }
    for i := 0 to |s.windows|
      invariant forall j | 0 <= j < i :: !Covers(s, s.windows[j], t)
    {
      if Covers(s, s.windows[i], t) {
        return true;
      }
    }
    return false;
  }

  /** The sorted window boundaries of one calendar day. */
  method DayEdges(s: Schedule, day: int) returns (edges: seq<int>)
    requires Valid(s)
    ensures forall e :: e in edges <==> EdgeOn(s, day, e)
    ensures forall i, j | 0 <= i < j < |edges| :: edges[i] <= edges[j]
  {
    var found: seq<int> := [];
    assert forall j | 0 <= j < |s.windows| :: s.windows[j] in s.windows && ValidWindow(s.windows[j]);
    for i := 0 to |s.windows|
      invariant forall e :: e in found <==> exists j | 0 <= j < i ::
        s.windows[j].days[Weekday(day)]
        && (e == Midnight(s, day) + s.windows[j].start || e == Midnight(s, day) + s.windows[j].end)
    {
      var w := s.windows[i];
      if w.days[Weekday(day)] {
        found := found + [Midnight(s, day) + w.start, Midnight(s, day) + w.end];
      }
    }
    var a := new int[|found|](i requires 0 <= i < |found| => found[i]);
    assert a[..] == found;
    var le := (x: int, y: int) => x <= y;
    Sorting.SortInPlace(a, le);
    Sorting.SortedOrdered(le, found);
    edges := a[..];
    forall e
      ensures e in edges <==> EdgeOn(s, day, e)
    {
      Sorting.SortedMember(le, found, e);
    }
    forall i, j | 0 <= i < j < |edges|
      ensures edges[i] <= edges[j]
    {
      assert le(edges[i], edges[j]);
    }
  }

  /** No edge after `t` on the days before `day` changes the state seen at `t`. */
  ghost predicate QuietBefore(s: Schedule, t: int, day: int)
    requires Valid(s)
  {
    forall e | t < e < Midnight(s, day) && EdgeOn(s, DayOf(s, e), e) :: Active(s, e) == Active(s, t)
  }

  lemma EdgeDay(s: Schedule, day: int, e: int)
    requires Valid(s) && EdgeOn(s, day, e)
    ensures DayOf(s, e) == day && Midnight(s, day) <= e < Midnight(s, day) + DAY
  {
    var w :| w in s.windows && w.days[Weekday(day)]
             && (e == Midnight(s, day) + w.start || e == Midnight(s, day) + w.end);
    DayUnique(s, e, day);
  }

  /** The first of the edges after `t` that changes the state seen there, `|edges|` if none. */
  method FirstChange(s: Schedule, t: int, edges: seq<int>) returns (i: nat)
    requires Valid(s)
    ensures i <= |edges|
    ensures forall j | 0 <= j < i :: edges[j] <= t || Active(s, edges[j]) == Active(s, t)
    ensures i < |edges| ==> t < edges[i] && Active(s, edges[i]) != Active(s, t)
  {
    hide Active;
    var cur := IsActive(s, t);
    i := 0;
    while i < |edges|
      invariant i <= |edges|
      invariant forall j | 0 <= j < i :: edges[j] <= t || Active(s, edges[j]) == cur
    {
      var edge := edges[i];
      if edge > t {
        var state := IsActive(s, edge);
        if state != cur {
          return;
        }
      }
      i := i + 1;
    }
  }

  /** The scan over eight calendar days finds the next change exactly when there is one. */
  method NextTransition(s: Schedule, t: int) returns (next: Option<int>)
    requires Valid(s)
    ensures IsNextFlip(s, t, next)
  {
    if |s.windows| == 0 {
      return None;
    }
    hide Active, EdgeOn, QuietBefore, IsNextFlip, Midnight;
    var today := DayOf(s, t);
    QuietAtFirst(s, t);
    for day := 0 to MAX_LOOKAHEAD_DAYS
      invariant QuietBefore(s, t, today + day)
    {
      var edges := DayEdges(s, today + day);
      var i := FirstChange(s, t, edges);
      if i < |edges| {
        FirstFlip(s, t, today + day, edges, i);
        return Some(edges[i]);
      }
      QuietDay(s, t, today + day, edges);
    }
    EightDaysSuffice(s, t);
    return None;
  }

  lemma QuietAtFirst(s: Schedule, t: int)
    requires Valid(s)
    ensures QuietBefore(s, t, DayOf(s, t))
  {
    assert Midnight(s, DayOf(s, t)) <= t;
  }

  lemma QuietDay(s: Schedule, t: int, day: int, edges: seq<int>)
    requires Valid(s) && QuietBefore(s, t, day)
    requires forall e :: e in edges <==> EdgeOn(s, day, e)
    requires forall j | 0 <= j < |edges| :: edges[j] <= t || Active(s, edges[j]) == Active(s, t)
    ensures QuietBefore(s, t, day + 1)
  {
    forall e | t < e < Midnight(s, day + 1) && EdgeOn(s, DayOf(s, e), e)
      ensures Active(s, e) == Active(s, t)
    {
      if Midnight(s, day) <= e {
        DayUnique(s, e, day);
        assert e in edges;
      }
    }
  }

  lemma FirstFlip(s: Schedule, t: int, day: int, edges: seq<int>, i: nat)
    requires Valid(s) && QuietBefore(s, t, day) && i < |edges|
    requires forall e :: e in edges <==> EdgeOn(s, day, e)
    requires forall j, k | 0 <= j < k < |edges| :: edges[j] <= edges[k]
    requires forall j | 0 <= j < i :: edges[j] <= t || Active(s, edges[j]) == Active(s, t)
    requires t < edges[i] && Active(s, edges[i]) != Active(s, t)
    ensures IsNextFlip(s, t, Some(edges[i]))
  {
    EdgeDay(s, day, edges[i]);
    forall u | t <= u < edges[i]
      ensures Active(s, u) == Active(s, t)
    {
      forall e | t < e <= u && EdgeOn(s, DayOf(s, e), e)
        ensures Active(s, e) == Active(s, t)
      {
        if Midnight(s, day) <= e {
          DayUnique(s, e, day);
          assert e in edges;
          var j :| 0 <= j < |edges| && edges[j] == e;
          assert j < i;
        }
      }
      ConstantThrough(s, t, u);
    }
  }

  lemma EightDaysSuffice(s: Schedule, t: int)
    requires Valid(s) && QuietBefore(s, t, DayOf(s, t) + MAX_LOOKAHEAD_DAYS)
    ensures IsNextFlip(s, t, None)
  {
    forall v | t <= v < t + 7 * DAY
      ensures Active(s, v) == Active(s, t)
    {
      ConstantThrough(s, t, v);
    }
    forall u | t <= u
      ensures Active(s, u) == Active(s, t)
    {
      ConstantForever(s, t, u);
    }
  }

  predicate OnSomeDay(s: Schedule)
    requires Valid(s)
  {
    exists w, d | w in s.windows && 0 <= d < 7 :: w.days[d]
  }

  /** The search comes back empty exactly for a schedule with no window on any day: every
      window ends before its day does, so anything else changes within a week, every week. */
  lemma NeverFlipsIff(s: Schedule, t: int)
    requires Valid(s)
    ensures IsNextFlip(s, t, None) <==> !OnSomeDay(s)
  {
    if OnSomeDay(s) {
      var w, d :| w in s.windows && 0 <= d < 7 && w.days[d];
      var tomorrow := DayOf(s, t) + 1;
      var day := tomorrow + (d - Weekday(tomorrow)) % 7;
      assert Weekday(day) == d;
      var on, off := Midnight(s, day) + w.start, Midnight(s, day) + DAY - 1;
      DayUnique(s, on, day);
      DayUnique(s, off, day);
      assert Covers(s, w, on) && Active(s, on);
      assert !Active(s, off);
      assert t <= on && t <= off;
    }
  }
}
