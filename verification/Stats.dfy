/** Sharded atomic counters, recorded by many workers while a snapshot is being taken. */
module Stats {
  import opened Basics

  /** One counter row: requests, successes, failures, bytes in, bytes out. */
  const COLUMNS: nat := 5

  type Row = r: seq<int> | |r| == COLUMNS witness [0, 0, 0, 0, 0]

  type TargetID = string

  datatype Outcome = Success | Failure | Skipped | Cancelled | Panicked | Reconnect

  datatype Result = Result(target: TargetID, outcome: Outcome, bytesIn: int, bytesOut: int, latency: int)

  function Zero(): Row {
    [0, 0, 0, 0, 0]
  }

  /** What one result adds to each counter; a counter that gets 0 is left alone. */
  function Amounts(r: Result): Row {
    [1, if r.outcome.Success? then 1 else 0, if r.outcome.Failure? then 1 else 0, r.bytesIn, r.bytesOut]
  }

  function AddTo(row: Row, c: nat, v: int): Row
    requires c < COLUMNS
  {
    row[c := row[c] + v]
  }

  // ---------- the interleaving model: one atomic operation per step ----------

  datatype Lookup = NotYet | Missing | At(index: nat)

  /** A `Record` call in progress: `gdone` global counters and `sdone` shard counters have
      been added to, in column order. */
  datatype Recorder = Recorder(target: TargetID, amounts: Row, gdone: nat, found: Lookup, sdone: nat)

  /** A `snapshot` call: it copies the id list, reads the shards one counter at a time,
      then the global counters. */
  datatype Reader =
    | Idle
    | ReadingShards(n: nat, rows: seq<Row>, partial: seq<int>)
    | ReadingGlobal(rows: seq<Row>, prefix: seq<int>)
    | Done(rows: seq<Row>, global: Row)

  /** `unknown` collects what results for unregistered targets added globally. */
  datatype State = State(
    ids: seq<TargetID>, shards: seq<Row>, global: Row, recorders: seq<Recorder>, reader: Reader, unknown: Row)

  datatype Step =
    | Begin(r: Result)
    | GlobalAdd(i: nat)
    | Find(i: nat)
    | ShardAdd(i: nat)
    | AddShard(id: TargetID)
    | Snap
    | ReadShard
    | ReadGlobal

  function IndexOf(ids: seq<TargetID>, id: TargetID): (r: Option<nat>)
    ensures r.Some? ==> r.value < |ids| && ids[r.value] == id
    ensures r.None? <==> id !in ids
  {
    if ids == [] then None
    else if ids[|ids| - 1] == id then Some(|ids| - 1)
    else IndexOf(ids[..|ids| - 1], id)
  }

  function Plus(a: Row, b: Row): Row {
    seq(COLUMNS, c requires 0 <= c < COLUMNS => a[c] + b[c])
  }

  function Begun(s: State, r: Result): State {
    s.(recorders := s.recorders + [Recorder(r.target, Amounts(r), 0, NotYet, 0)])
  }

  function GlobalAdded(s: State, i: nat): State {
    if i >= |s.recorders| || s.recorders[i].gdone >= COLUMNS then s
    else
      var w := s.recorders[i];
      s.(global := AddTo(s.global, w.gdone, w.amounts[w.gdone]),
         recorders := s.recorders[i := w.(gdone := w.gdone + 1)])
  }

  function Found(s: State, i: nat): State {
    if i >= |s.recorders| || s.recorders[i].gdone < COLUMNS || !s.recorders[i].found.NotYet? then s
    else
      var w := s.recorders[i];
      match IndexOf(s.ids, w.target)
      case None => s.(recorders := s.recorders[i := w.(found := Missing)], unknown := Plus(s.unknown, w.amounts))
      case Some(k) => s.(recorders := s.recorders[i := w.(found := At(k))])
  }

  function ShardAdded(s: State, i: nat): State {
    if i >= |s.recorders| || !s.recorders[i].found.At? || s.recorders[i].sdone >= COLUMNS
       || s.recorders[i].found.index >= |s.shards| then s
    else
      var w := s.recorders[i];
      var k := w.found.index;
      s.(shards := s.shards[k := AddTo(s.shards[k], w.sdone, w.amounts[w.sdone])],
         recorders := s.recorders[i := w.(sdone := w.sdone + 1)])
  }

  function ShardCreated(s: State, id: TargetID): State {
    if id in s.ids then s else s.(ids := s.ids + [id], shards := s.shards + [Zero()])
  }

  function ShardRead(s: State): State {
    if !s.reader.ReadingShards? then s
    else
      var ReadingShards(n, rows, partial) := s.reader;
      if |rows| >= n || |rows| >= |s.shards| || |partial| >= COLUMNS then s.(reader := ReadingGlobal(rows, []))
      else
        var more := partial + [s.shards[|rows|][|partial|]];
        s.(reader := if |more| == COLUMNS then ReadingShards(n, rows + [more], []) else ReadingShards(n, rows, more))
  }

  function GlobalRead(s: State): State {
    if !s.reader.ReadingGlobal? || |s.reader.prefix| >= COLUMNS then s
    else
      var more := s.reader.prefix + [s.global[|s.reader.prefix|]];
      s.(reader := if |more| == COLUMNS then Done(s.reader.rows, more) else ReadingGlobal(s.reader.rows, more))
  }

  function Next(s: State, step: Step): State {
    match step
    case Begin(r) => Begun(s, r)
    case GlobalAdd(i) => GlobalAdded(s, i)
    case Find(i) => Found(s, i)
    case ShardAdd(i) => ShardAdded(s, i)
    case AddShard(id) => ShardCreated(s, id)
    case Snap => if s.reader.Idle? then s.(reader := ReadingShards(|s.ids|, [], [])) else s
    case ReadShard => ShardRead(s)
    case ReadGlobal => GlobalRead(s)
  }

  function Initial(ids: seq<TargetID>): State {
    State(ids, seq(|ids|, _ => Zero()), Zero(), [], Idle, Zero())
  }

  function Run(ids: seq<TargetID>, steps: seq<Step>): State {
    if steps == [] then Initial(ids) else Next(Run(ids, steps[..|steps| - 1]), steps[|steps| - 1])
  }

  // ---------- sums ----------

  function Column(rows: seq<Row>, c: nat): int
    requires c < COLUMNS
  {
    if rows == [] then 0 else Column(rows[..|rows| - 1], c) + rows[|rows| - 1][c]
  }

  function GlobalPart(w: Recorder, c: nat): int
    requires c < COLUMNS
  {
    if c < w.gdone then w.amounts[c] else 0
  }

  function ShardPart(w: Recorder, c: nat): int
    requires c < COLUMNS
  {
    if w.found.At? && c < w.sdone then w.amounts[c] else 0
  }

  /** Added globally, not (yet) to a shard. */
  function InFlight(w: Recorder, c: nat): int
    requires c < COLUMNS
  {
    if w.found.Missing? then 0 else GlobalPart(w, c) - ShardPart(w, c)
  }

  function InFlightAll(ws: seq<Recorder>, c: nat): int
    requires c < COLUMNS
  {
    if ws == [] then 0 else InFlightAll(ws[..|ws| - 1], c) + InFlight(ws[|ws| - 1], c)
  }

  lemma {:induction false} ColumnUpdate(rows: seq<Row>, k: nat, row: Row, c: nat)
    requires k < |rows| && c < COLUMNS
    ensures Column(rows[k := row], c) == Column(rows, c) - rows[k][c] + row[c]
  {
    var n := |rows| - 1;
    if k < n {
      ColumnUpdate(rows[..n], k, row, c);
      assert rows[k := row][..n] == rows[..n][k := row];
    } else {
      assert rows[k := row][..n] == rows[..n];
    }
  }

  lemma {:induction false} InFlightUpdate(ws: seq<Recorder>, i: nat, w: Recorder, c: nat)
    requires i < |ws| && c < COLUMNS
    ensures InFlightAll(ws[i := w], c) == InFlightAll(ws, c) - InFlight(ws[i], c) + InFlight(w, c)
  {
    var n := |ws| - 1;
    if i < n {
      InFlightUpdate(ws[..n], i, w, c);
      assert ws[i := w][..n] == ws[..n][i := w];
    } else {
      assert ws[i := w][..n] == ws[..n];
    }
  }

  lemma {:induction false} ColumnBelow(a: seq<Row>, b: seq<Row>, c: nat)
    requires |a| <= |b| && c < COLUMNS
    requires forall j | 0 <= j < |a| :: a[j][c] <= b[j][c]
    requires forall j | 0 <= j < |b| :: 0 <= b[j][c]
    ensures Column(a, c) <= Column(b, c)
    decreases |b|
  {
    if |a| < |b| {
      ColumnBelow(a, b[..|b| - 1], c);
    } else if a != [] {
      ColumnBelow(a[..|a| - 1], b[..|b| - 1], c);
    }
  }

  lemma {:induction false} InFlightNonNegative(ws: seq<Recorder>, c: nat)
    requires c < COLUMNS && forall i | 0 <= i < |ws| :: InFlight(ws[i], c) >= 0
    ensures InFlightAll(ws, c) >= 0
  {
    if ws != [] {
      InFlightNonNegative(ws[..|ws| - 1], c);
    }
  }

  lemma {:induction false} ZeroColumn(n: nat, c: nat)
    requires c < COLUMNS
    ensures Column(seq(n, _ => Zero()), c) == 0
  {
    if n > 0 {
      var rows := seq(n, _ => Zero());
      assert rows[..n - 1] == seq(n - 1, _ => Zero());
      ZeroColumn(n - 1, c);
    }
  }

  // ---------- conservation ----------

  predicate RecorderOk(w: Recorder, shards: nat) {
    && w.gdone <= COLUMNS && w.sdone <= COLUMNS
    && (!w.found.NotYet? ==> w.gdone == COLUMNS)
    && (!w.found.At? ==> w.sdone == 0)
    && (w.found.At? ==> w.found.index < shards)
  }

  /** Whatever was added globally is in a shard, in flight, or belongs to no shard. */
  ghost predicate Conserved(s: State, c: nat)
    requires c < COLUMNS
  {
    && |s.ids| == |s.shards|
    && (forall i | 0 <= i < |s.recorders| :: RecorderOk(s.recorders[i], |s.shards|))
    && s.global[c] == Column(s.shards, c) + InFlightAll(s.recorders, c) + s.unknown[c]
  }

  lemma ConservedGlobalAdd(s: State, i: nat, c: nat)
    requires c < COLUMNS && Conserved(s, c)
    ensures Conserved(GlobalAdded(s, i), c)
  {
    if i < |s.recorders| && s.recorders[i].gdone < COLUMNS {
      var w := s.recorders[i];
      InFlightUpdate(s.recorders, i, w.(gdone := w.gdone + 1), c);
    }
  }

  lemma ConservedFind(s: State, i: nat, c: nat)
    requires c < COLUMNS && Conserved(s, c)
    ensures Conserved(Found(s, i), c)
  {
    if i < |s.recorders| && s.recorders[i].gdone >= COLUMNS && s.recorders[i].found.NotYet? {
      var w := s.recorders[i];
      match IndexOf(s.ids, w.target)
      case None => InFlightUpdate(s.recorders, i, w.(found := Missing), c);
      case Some(k) => InFlightUpdate(s.recorders, i, w.(found := At(k)), c);
    }
  }

  lemma ConservedShardAdd(s: State, i: nat, c: nat)
    requires c < COLUMNS && Conserved(s, c)
    ensures Conserved(ShardAdded(s, i), c)
  {
    if i < |s.recorders| && s.recorders[i].found.At? && s.recorders[i].sdone < COLUMNS {
      var w := s.recorders[i];
      var k := w.found.index;
      InFlightUpdate(s.recorders, i, w.(sdone := w.sdone + 1), c);
      ColumnUpdate(s.shards, k, AddTo(s.shards[k], w.sdone, w.amounts[w.sdone]), c);
    }
  }

  lemma ConservedStep(s: State, step: Step, c: nat)
    requires c < COLUMNS && Conserved(s, c)
    ensures Conserved(Next(s, step), c)
  {
    match step
    case Begin(r) =>
      var t := Begun(s, r);
      assert t.recorders[..|s.recorders|] == s.recorders;
    case GlobalAdd(i) => ConservedGlobalAdd(s, i, c);
    case Find(i) => ConservedFind(s, i, c);
    case ShardAdd(i) => ConservedShardAdd(s, i, c);
    case AddShard(id) =>
      if id !in s.ids {
        assert (s.shards + [Zero()])[..|s.shards|] == s.shards;
      }
    case _ =>
  }

  /** In every reachable state, for every counter: the global value is the sum of the
      shard values, of what is in flight, and of what belongs to unknown targets. */
  lemma {:induction false} AlwaysConserved(ids: seq<TargetID>, steps: seq<Step>, c: nat)
    requires c < COLUMNS
    ensures Conserved(Run(ids, steps), c)
  {
    if steps == [] {
      ZeroColumn(|ids|, c);
    } else {
      AlwaysConserved(ids, steps[..|steps| - 1], c);
      ConservedStep(Run(ids, steps[..|steps| - 1]), steps[|steps| - 1], c);
    }
  }

  // ---------- the torn snapshot ----------

  /** Counter `c` never goes down: true of the event counters, and of the byte counters as
      long as no result reports negative bytes. */
  predicate Monotone(steps: seq<Step>, c: nat)
    requires c < COLUMNS
  {
    forall i | 0 <= i < |steps| && steps[i].Begin? :: Amounts(steps[i].r)[c] >= 0
  }

  ghost predicate NonNegative(s: State, c: nat)
    requires c < COLUMNS
  {
    && (forall i | 0 <= i < |s.recorders| :: s.recorders[i].amounts[c] >= 0)
    && (forall j | 0 <= j < |s.shards| :: s.shards[j][c] >= 0)
    && s.unknown[c] >= 0
  }

  /** What the reader has seen so far is not ahead of the counters now. */
  ghost predicate ReaderBehind(s: State, c: nat)
    requires c < COLUMNS
  {
    match s.reader
    case Idle => true
    case ReadingShards(n, rows, partial) =>
      && |rows| <= n <= |s.shards| && |partial| < COLUMNS
      && (forall j | 0 <= j < |rows| :: rows[j][c] <= s.shards[j][c])
      && (c < |partial| ==> |rows| < n && partial[c] <= s.shards[|rows|][c])
    case ReadingGlobal(rows, prefix) =>
      && |rows| <= |s.shards| && |prefix| < COLUMNS
      && (forall j | 0 <= j < |rows| :: rows[j][c] <= s.shards[j][c])
      && (c < |prefix| ==> Column(rows, c) <= prefix[c])
    case Done(rows, global) => Column(rows, c) <= global[c]
  }

  ghost predicate Inv(s: State, c: nat)
    requires c < COLUMNS
  {
    Conserved(s, c) && NonNegative(s, c) && ReaderBehind(s, c)
  }

  lemma GlobalCoversShards(s: State, c: nat)
    requires c < COLUMNS && Conserved(s, c) && NonNegative(s, c)
    ensures Column(s.shards, c) <= s.global[c]
  {
    InFlightNonNegative(s.recorders, c);
  }

  lemma NonNegativeStep(s: State, step: Step, c: nat)
    requires c < COLUMNS && Conserved(s, c) && NonNegative(s, c)
    requires step.Begin? ==> Amounts(step.r)[c] >= 0
    ensures NonNegative(Next(s, step), c)
  {
  }

  /** Shard counters only grow, and shards are only appended. */
  lemma ShardsGrow(s: State, step: Step, c: nat)
    requires c < COLUMNS && Conserved(s, c) && NonNegative(s, c)
    ensures |s.shards| <= |Next(s, step).shards|
    ensures forall j | 0 <= j < |s.shards| :: s.shards[j][c] <= Next(s, step).shards[j][c]
  {
  }

  lemma GlobalReadBehind(s: State, c: nat)
    requires c < COLUMNS && Inv(s, c)
    ensures ReaderBehind(GlobalRead(s), c)
  {
    if s.reader.ReadingGlobal? && |s.reader.prefix| < COLUMNS {
      var rows := s.reader.rows;
      ColumnBelow(rows, s.shards, c);
      GlobalCoversShards(s, c);
    }
  }

  lemma ShardReadBehind(s: State, c: nat)
    requires c < COLUMNS && Inv(s, c)
    ensures ReaderBehind(ShardRead(s), c)
  {
  }

  lemma ReaderStaysBehind(s: State, step: Step, c: nat)
    requires c < COLUMNS && Inv(s, c)
    ensures ReaderBehind(Next(s, step), c)
  {
    match step
    case ReadShard => ShardReadBehind(s, c);
    case ReadGlobal => GlobalReadBehind(s, c);
    case Snap =>
    case _ =>
      ShardsGrow(s, step, c);
      assert Next(s, step).reader == s.reader;
  }

  lemma {:induction false} AlwaysBehind(ids: seq<TargetID>, steps: seq<Step>, c: nat)
    requires c < COLUMNS && Monotone(steps, c)
    ensures Inv(Run(ids, steps), c)
  {
    if steps == [] {
      ZeroColumn(|ids|, c);
    } else {
      var before, step := steps[..|steps| - 1], steps[|steps| - 1];
      AlwaysBehind(ids, before, c);
      ConservedStep(Run(ids, before), step, c);
      NonNegativeStep(Run(ids, before), step, c);
      ReaderStaysBehind(Run(ids, before), step, c);
    }
  }

  /** Under every interleaving, a finished snapshot's global value of a counter is at least
      the sum of its per-target values. */
  lemma TornSnapshotCovers(ids: seq<TargetID>, steps: seq<Step>, c: nat)
    requires c < COLUMNS && (c < 3 || Monotone(steps, c))
    ensures var r := Run(ids, steps).reader; r.Done? ==> Column(r.rows, c) <= r.global[c]
  {
    AlwaysBehind(ids, steps, c);
  }

  // ---------- what the counters mean ----------

  function GlobalSum(ws: seq<Recorder>, c: nat): int
    requires c < COLUMNS
  {
    if ws == [] then 0 else GlobalSum(ws[..|ws| - 1], c) + GlobalPart(ws[|ws| - 1], c)
  }

  function ShardPartOf(w: Recorder, j: nat, c: nat): int
    requires c < COLUMNS
  {
    if w.found == At(j) then ShardPart(w, c) else 0
  }

  function ShardSum(ws: seq<Recorder>, j: nat, c: nat): int
    requires c < COLUMNS
  {
    if ws == [] then 0 else ShardSum(ws[..|ws| - 1], j, c) + ShardPartOf(ws[|ws| - 1], j, c)
  }

  /** What recorders of unregistered targets added, once they found their target missing. */
  function MissingSum(ws: seq<Recorder>, c: nat): int
    requires c < COLUMNS
  {
    if ws == [] then 0 else MissingSum(ws[..|ws| - 1], c) + MissingPart(ws[|ws| - 1], c)
  }

  function MissingPart(w: Recorder, c: nat): int
    requires c < COLUMNS
  {
    if w.found.Missing? then w.amounts[c] else 0
  }

  lemma {:induction false} SumsUpdate(ws: seq<Recorder>, i: nat, w: Recorder, j: nat, c: nat)
    requires i < |ws| && c < COLUMNS
    ensures GlobalSum(ws[i := w], c) == GlobalSum(ws, c) - GlobalPart(ws[i], c) + GlobalPart(w, c)
    ensures ShardSum(ws[i := w], j, c) == ShardSum(ws, j, c) - ShardPartOf(ws[i], j, c) + ShardPartOf(w, j, c)
    ensures MissingSum(ws[i := w], c) == MissingSum(ws, c) - MissingPart(ws[i], c) + MissingPart(w, c)
  {
    var n := |ws| - 1;
    if i < n {
      SumsUpdate(ws[..n], i, w, j, c);
      assert ws[i := w][..n] == ws[..n][i := w];
    } else {
      assert ws[i := w][..n] == ws[..n];
    }
  }

  lemma {:induction false} NoSuchShard(ws: seq<Recorder>, j: nat, c: nat)
    requires c < COLUMNS && forall i | 0 <= i < |ws| :: ws[i].found != At(j)
    ensures ShardSum(ws, j, c) == 0
  {
    if ws != [] {
      NoSuchShard(ws[..|ws| - 1], j, c);
    }
  }

  ghost predicate Exact(s: State, j: nat, c: nat)
    requires c < COLUMNS
  {
    && s.global[c] == GlobalSum(s.recorders, c)
    && s.unknown[c] == MissingSum(s.recorders, c)
    && (j < |s.shards| ==> s.shards[j][c] == ShardSum(s.recorders, j, c))
  }

  lemma ExactGlobalAdd(s: State, i: nat, j: nat, c: nat)
    requires c < COLUMNS && Conserved(s, c) && Exact(s, j, c)
    ensures Exact(GlobalAdded(s, i), j, c)
  {
    if i < |s.recorders| && s.recorders[i].gdone < COLUMNS {
      var w := s.recorders[i];
      SumsUpdate(s.recorders, i, w.(gdone := w.gdone + 1), j, c);
    }
  }

  lemma ExactShardAdd(s: State, i: nat, j: nat, c: nat)
    requires c < COLUMNS && Conserved(s, c) && Exact(s, j, c)
    ensures Exact(ShardAdded(s, i), j, c)
  {
    if i < |s.recorders| && s.recorders[i].found.At? && s.recorders[i].sdone < COLUMNS {
      var w := s.recorders[i];
      SumsUpdate(s.recorders, i, w.(sdone := w.sdone + 1), j, c);
    }
  }

  lemma ExactFind(s: State, i: nat, j: nat, c: nat)
    requires c < COLUMNS && Conserved(s, c) && Exact(s, j, c)
    ensures Exact(Found(s, i), j, c)
  {
    if i < |s.recorders| && s.recorders[i].gdone >= COLUMNS && s.recorders[i].found.NotYet? {
      var w := s.recorders[i];
      SumsUpdate(s.recorders, i, w.(found := Missing), j, c);
      match IndexOf(s.ids, w.target)
      case None =>
      case Some(k) => SumsUpdate(s.recorders, i, w.(found := At(k)), j, c);
    }
  }

  lemma ExactStep(s: State, step: Step, j: nat, c: nat)
    requires c < COLUMNS && Conserved(s, c) && Exact(s, j, c)
    ensures Exact(Next(s, step), j, c)
  {
    match step
    case Begin(r) => assert Begun(s, r).recorders[..|s.recorders|] == s.recorders;
    case GlobalAdd(i) => ExactGlobalAdd(s, i, j, c);
    case Find(i) => ExactFind(s, i, j, c);
    case ShardAdd(i) => ExactShardAdd(s, i, j, c);
    case AddShard(id) =>
      if id !in s.ids && j == |s.shards| {
        NoSuchShard(s.recorders, j, c);
      }
    case _ =>
  }

  /** In every reachable state the global counters total what recorders have added so far,
      and each shard totals what the recorders that found it have added, and the unknown share
      what those added whose target was not registered. */
  lemma {:induction false} AlwaysExact(ids: seq<TargetID>, steps: seq<Step>, j: nat, c: nat)
    requires c < COLUMNS
    ensures Exact(Run(ids, steps), j, c)
  {
    if steps != [] {
      AlwaysExact(ids, steps[..|steps| - 1], j, c);
      AlwaysConserved(ids, steps[..|steps| - 1], c);
      ExactStep(Run(ids, steps[..|steps| - 1]), steps[|steps| - 1], j, c);
    }
  }

  // ---------- the counters once everything is recorded ----------

  function CountOf(rs: seq<Result>, o: Outcome): nat {
    if rs == [] then 0 else CountOf(rs[..|rs| - 1], o) + if rs[|rs| - 1].outcome == o then 1 else 0
  }

  function BytesIn(rs: seq<Result>): int {
    if rs == [] then 0 else BytesIn(rs[..|rs| - 1]) + rs[|rs| - 1].bytesIn
  }

  function BytesOut(rs: seq<Result>): int {
    if rs == [] then 0 else BytesOut(rs[..|rs| - 1]) + rs[|rs| - 1].bytesOut
  }

  /** The results a run has begun to record. */
  function Begins(steps: seq<Step>): seq<Result> {
    if steps == [] then []
    else Begins(steps[..|steps| - 1]) + if steps[|steps| - 1].Begin? then [steps[|steps| - 1].r] else []
  }

  predicate Carry(ws: seq<Recorder>, rs: seq<Result>) {
    |ws| == |rs| && forall i | 0 <= i < |ws| :: ws[i].amounts == Amounts(rs[i]) && ws[i].target == rs[i].target
  }

  lemma {:induction false} RecordersCarry(ids: seq<TargetID>, steps: seq<Step>)
    ensures Carry(Run(ids, steps).recorders, Begins(steps))
  {
    if steps != [] {
      RecordersCarry(ids, steps[..|steps| - 1]);
    }
  }

  /** Results counted, successes and failures among them, and their bytes added up. */
  function Tally(rs: seq<Result>): Row {
    [|rs|, CountOf(rs, Success), CountOf(rs, Failure), BytesIn(rs), BytesOut(rs)]
  }

  lemma TallyMore(rs: seq<Result>, r: Result, c: nat)
    requires c < COLUMNS
    ensures Tally(rs + [r])[c] == Tally(rs)[c] + Amounts(r)[c]
  {
    assert (rs + [r])[..|rs|] == rs;
  }

  lemma {:induction false} SumsAreCounts(ws: seq<Recorder>, rs: seq<Result>, c: nat)
    requires c < COLUMNS && Carry(ws, rs) && forall i | 0 <= i < |ws| :: ws[i].gdone == COLUMNS
    ensures GlobalSum(ws, c) == Tally(rs)[c]
  {
    if ws != [] {
      hide Amounts, Tally;
      var n := |ws| - 1;
      SumsAreCounts(ws[..n], rs[..n], c);
      TallyMore(rs[..n], rs[n], c);
      assert rs == rs[..n] + [rs[n]];
    } else {
      assert rs == [];
    }
  }

  /** Once no recorder is active, whatever the interleaving was, the global counters are the
      number of results recorded, of successes and of failures among them, and their bytes. */
  lemma QuietCounts(ids: seq<TargetID>, steps: seq<Step>)
    requires Quiet(Run(ids, steps))
    ensures var rs := Begins(steps);
            Run(ids, steps).global == [|rs|, CountOf(rs, Success), CountOf(rs, Failure), BytesIn(rs), BytesOut(rs)]
  {
    hide Run, Begins, Tally, Quiet;
    var s, tally := Run(ids, steps), Tally(Begins(steps));
    forall c | 0 <= c < COLUMNS
      ensures s.global[c] == tally[c]
    {
      QuietCount(ids, steps, c);
    }
    TallyIs(Begins(steps));
    assert s.global == tally;
  }

  lemma TallyIs(rs: seq<Result>)
    ensures Tally(rs) == [|rs|, CountOf(rs, Success), CountOf(rs, Failure), BytesIn(rs), BytesOut(rs)]
  {
  }

  lemma QuietCount(ids: seq<TargetID>, steps: seq<Step>, c: nat)
    requires c < COLUMNS && Quiet(Run(ids, steps))
    ensures Run(ids, steps).global[c] == Tally(Begins(steps))[c]
  {
    AlwaysConserved(ids, steps, c);
    AlwaysExact(ids, steps, 0, c);
    RecordersCarry(ids, steps);
    SumsAreCounts(Run(ids, steps).recorders, Begins(steps), c);
  }

  /** The results for one target. */
  function For(rs: seq<Result>, id: TargetID): seq<Result> {
    if rs == [] then []
    else For(rs[..|rs| - 1], id) + if rs[|rs| - 1].target == id then [rs[|rs| - 1]] else []
  }

  predicate Distinct(ids: seq<TargetID>) {
    forall i, j | 0 <= i < j < |ids| :: ids[i] != ids[j]
  }

  /** A recorder adds to the shard of its own target. */
  predicate Owned(w: Recorder, ids: seq<TargetID>) {
    w.found.At? ==> w.found.index < |ids| && ids[w.found.index] == w.target
  }

  lemma {:induction false} OwnShards(ids: seq<TargetID>, steps: seq<Step>)
    requires Distinct(ids)
    ensures var s := Run(ids, steps);
            Distinct(s.ids) && forall i | 0 <= i < |s.recorders| :: Owned(s.recorders[i], s.ids)
  {
    if steps != [] {
      OwnShards(ids, steps[..|steps| - 1]);
    }
  }

  lemma {:induction false} ShardSumsAreCounts(ws: seq<Recorder>, rs: seq<Result>, ids: seq<TargetID>, j: nat, c: nat)
    requires c < COLUMNS && Carry(ws, rs) && Distinct(ids) && j < |ids|
    requires forall i | 0 <= i < |ws| :: Owned(ws[i], ids) && ws[i].found.At? && ws[i].sdone == COLUMNS
    ensures ShardSum(ws, j, c) == Tally(For(rs, ids[j]))[c]
  {
    if ws != [] {
      hide Amounts, Tally;
      var n := |ws| - 1;
      ShardSumsAreCounts(ws[..n], rs[..n], ids, j, c);
      TallyMore(For(rs[..n], ids[j]), rs[n], c);
      assert ws[n].found == At(j) <==> rs[n].target == ids[j];
      assert ws[n].found == At(j) || For(rs, ids[j]) == For(rs[..n], ids[j]);
    } else {
      assert rs == [];
    }
  }

  /** And each target's counters are those of the results for that target. */
  lemma QuietShardCounts(ids: seq<TargetID>, steps: seq<Step>, j: nat)
    requires Distinct(ids) && Registered(ids, steps) && Quiet(Run(ids, steps)) && j < |Run(ids, steps).ids|
    ensures var s := Run(ids, steps);
            var own := For(Begins(steps), s.ids[j]);
            && j < |s.shards|
            && s.shards[j] == [|own|, CountOf(own, Success), CountOf(own, Failure), BytesIn(own), BytesOut(own)]
  {
    AlwaysConserved(ids, steps, 0);
    hide Run, Begins, Tally, Quiet, For, Registered, Distinct;
    var s := Run(ids, steps);
    var tally := Tally(For(Begins(steps), s.ids[j]));
    forall c | 0 <= c < COLUMNS
      ensures s.shards[j][c] == tally[c]
    {
      QuietShardCount(ids, steps, j, c);
    }
    TallyIs(For(Begins(steps), s.ids[j]));
    assert s.shards[j] == tally;
  }

  lemma QuietShardCount(ids: seq<TargetID>, steps: seq<Step>, j: nat, c: nat)
    requires c < COLUMNS && j < |Run(ids, steps).shards|
    requires Distinct(ids) && Registered(ids, steps) && Quiet(Run(ids, steps)) && j < |Run(ids, steps).ids|
    ensures Run(ids, steps).shards[j][c] == Tally(For(Begins(steps), Run(ids, steps).ids[j]))[c]
  {
    AlwaysExact(ids, steps, j, c);
    NoneMissing(ids, steps);
    OwnShards(ids, steps);
    RecordersCarry(ids, steps);
    hide Run, Begins, Registered, Distinct, Carry;
    var s := Run(ids, steps);
    assert forall i | 0 <= i < |s.recorders| :: s.recorders[i] in s.recorders;
    ShardSumsAreCounts(s.recorders, Begins(steps), s.ids, j, c);
  }

  // ---------- a snapshot with nobody recording ----------

  predicate Quiet(s: State) {
    s.reader.Idle? && forall i | 0 <= i < |s.recorders| ::
      !s.recorders[i].found.NotYet? && (s.recorders[i].found.At? ==> s.recorders[i].sdone == COLUMNS)
  }

  function Reads(s: State, n: nat): State {
    if n == 0 then s
    else
      var t := Reads(s, n - 1);
      if t.reader.ReadingShards? then ShardRead(t) else GlobalRead(t)
  }

  /** The reader's copy is a prefix of the counters, counter by counter. */
  predicate ReaderCopies(s: State, t: State) {
    && t == s.(reader := t.reader)
    && match t.reader
       case Idle => false
       case ReadingShards(n, rows, partial) =>
         n == |s.shards| && rows <= s.shards && |partial| < COLUMNS
         && (partial != [] ==> |rows| < n && partial <= s.shards[|rows|])
       case ReadingGlobal(rows, prefix) => rows == s.shards && prefix <= s.global && |prefix| < COLUMNS
       case Done(rows, global) => rows == s.shards && global == s.global
  }

  lemma ReadCopies(s: State, t: State)
    requires ReaderCopies(s, t)
    ensures ReaderCopies(s, if t.reader.ReadingShards? then ShardRead(t) else GlobalRead(t))
  {
    if t.reader.ReadingShards? {
      var ReadingShards(n, rows, partial) := t.reader;
      if |rows| < n {
        var row := s.shards[|rows|];
        var more := partial + [row[|partial|]];
        assert more == row[..|partial| + 1];
        assert |more| == COLUMNS ==> more == row;
        assert rows + [row] == s.shards[..|rows| + 1];
      }
    } else if t.reader.ReadingGlobal? {
      var prefix := t.reader.prefix;
      var more := prefix + [s.global[|prefix|]];
      assert more == s.global[..|prefix| + 1];
      assert |more| == COLUMNS ==> more == s.global;
    }
  }

  lemma {:induction false} ReadsCopy(s: State, n: nat)
    requires Quiet(s) && |s.ids| == |s.shards|
    ensures ReaderCopies(s, Reads(Next(s, Snap), n))
  {
    if n > 0 {
      ReadsCopy(s, n - 1);
      ReadCopies(s, Reads(Next(s, Snap), n - 1));
    }
  }

  lemma {:induction false} QuietSums(ws: seq<Recorder>, c: nat)
    requires c < COLUMNS
    requires forall i | 0 <= i < |ws| ::
      ws[i].gdone == COLUMNS && !ws[i].found.NotYet? && (ws[i].found.At? ==> ws[i].sdone == COLUMNS)
    ensures InFlightAll(ws, c) == 0
  {
    if ws != [] {
      QuietSums(ws[..|ws| - 1], c);
    }
  }

  /** Reads still to do, the change from shards to global counters included. */
  function ReadsLeft(r: Reader): int {
    match r
    case Idle => 0
    case ReadingShards(n, rows, partial) => (n - |rows|) * COLUMNS - |partial| + 1 + COLUMNS
    case ReadingGlobal(_, prefix) => COLUMNS - |prefix|
    case Done(_, _) => 0
  }

  function ReadsNeeded(s: State): nat {
    |s.shards| * COLUMNS + 1 + COLUMNS
  }

  lemma OneRead(s: State, t: State)
    requires ReaderCopies(s, t)
    ensures var u := if t.reader.ReadingShards? then ShardRead(t) else GlobalRead(t);
            && (t.reader.Done? ==> u.reader.Done?)
            && (!t.reader.Done? ==> ReadsLeft(t.reader) > 0 && ReadsLeft(u.reader) == ReadsLeft(t.reader) - 1)
            && (!u.reader.Done? ==> ReadsLeft(u.reader) > 0)
  {
    ReadCopies(s, t);
  }

  /** A snapshot finishes after exactly that many reads. */
  lemma {:induction false} ReadsFinish(s: State, n: nat)
    requires Quiet(s) && |s.ids| == |s.shards|
    ensures var r := Reads(Next(s, Snap), n).reader;
            && (r.Done? <==> ReadsNeeded(s) <= n)
            && (!r.Done? ==> ReadsLeft(r) == ReadsNeeded(s) - n)
  {
    if n > 0 {
      ReadsFinish(s, n - 1);
      ReadsCopy(s, n - 1);
      hide ReaderCopies, ShardRead, GlobalRead, Quiet;
      OneRead(s, Reads(Next(s, Snap), n - 1));
    }
  }

  predicate Registered(ids: seq<TargetID>, steps: seq<Step>) {
    forall i | 0 <= i < |steps| && steps[i].Begin? :: steps[i].r.target in ids
  }

  lemma {:induction false} NoneMissing(ids: seq<TargetID>, steps: seq<Step>)
    requires Registered(ids, steps)
    ensures forall id | id in ids :: id in Run(ids, steps).ids
    ensures forall w | w in Run(ids, steps).recorders :: w.target in ids && !w.found.Missing?
  {
    if steps != [] {
      NoneMissing(ids, steps[..|steps| - 1]);
    }
  }

  lemma {:induction false} NothingMissing(ws: seq<Recorder>, c: nat)
    requires c < COLUMNS && forall w | w in ws :: !w.found.Missing?
    ensures MissingSum(ws, c) == 0
  {
    if ws != [] {
      assert ws[|ws| - 1] in ws;
      NothingMissing(ws[..|ws| - 1], c);
    }
  }

  /** With no recorder active, a snapshot finishes after that many reads, shows the counters as
      they are, and each global value is the sum of the per-target values plus what results
      for unregistered targets added: nothing, when every target was registered. */
  lemma QuietSnapshotExact(ids: seq<TargetID>, steps: seq<Step>, n: nat, c: nat)
    requires c < COLUMNS && Quiet(Run(ids, steps))
    ensures var s := Run(ids, steps);
            var r := Reads(Next(s, Snap), n).reader;
            && (r.Done? <==> ReadsNeeded(s) <= n)
            && (r.Done? ==> r.rows == s.shards && r.global == s.global
                            && r.global[c] == Column(r.rows, c) + MissingSum(s.recorders, c))
            && (r.Done? && Registered(ids, steps) ==> r.global[c] == Column(r.rows, c))
  {
    var s := Run(ids, steps);
    AlwaysConserved(ids, steps, c);
    AlwaysExact(ids, steps, 0, c);
    ReadsCopy(s, n);
    ReadsFinish(s, n);
    QuietSums(s.recorders, c);
    if Registered(ids, steps) {
      NoneMissing(ids, steps);
      NothingMissing(s.recorders, c);
    }
  }
}
