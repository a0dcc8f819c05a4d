/** The collector as it runs when calls do not overlap: the folding code behind the
    interleaving model of `Stats`. */
module Collector {
  import opened Stats
  import H = Histogram

  // ---------- what a list of results adds up to ----------

  function Total(rs: seq<Result>): Row {
    if rs == [] then Zero() else Plus(Total(rs[..|rs| - 1]), Amounts(rs[|rs| - 1]))
  }

  /** The totals are the results counted and their bytes added up. */
  lemma {:induction false} TotalCounts(rs: seq<Result>)
    ensures Total(rs) == [|rs|, CountOf(rs, Success), CountOf(rs, Failure), BytesIn(rs), BytesOut(rs)]
  {
    if rs != [] {
      hide Amounts;
      var front, r := rs[..|rs| - 1], rs[|rs| - 1];
      TotalCounts(front);
      TallyIs(front);
      TallyIs(rs);
      hide Tally;
      assert rs == front + [r];
      forall c | 0 <= c < COLUMNS
        ensures Total(rs)[c] == Tally(rs)[c]
      {
        TallyMore(front, r, c);
      }
      assert Total(rs) == Tally(rs);
    }
  }

  function Latencies(rs: seq<Result>): (ds: seq<int>)
    ensures |ds| == |rs|
  {
    if rs == [] then [] else Latencies(rs[..|rs| - 1]) + [rs[|rs| - 1].latency]
  }

  lemma OneMoreResult(rs: seq<Result>, r: Result)
    ensures Total(rs + [r]) == Plus(Total(rs), Amounts(r))
    ensures forall o :: CountOf(rs + [r], o) == CountOf(rs, o) + if r.outcome == o then 1 else 0
    ensures H.Of(Latencies(rs + [r])) == H.Bump(H.Of(Latencies(rs)), H.Bucket(r.latency))
  {
    assert (rs + [r])[..|rs|] == rs;
    var ds := Latencies(rs);
    assert (ds + [r.latency])[..|ds|] == ds;
    hide H.Bucket, H.Bump;
  }

  class CounterShard {
    var requests: int
    var successes: int
    var failures: int
    var reconnects: int
    var panics: int
    var bytesIn: int
    var bytesOut: int
    var hist: H.Counts

    function View(): Row
      reads this
    {
      var row := [requests, successes, failures, bytesIn, bytesOut];
      assert |row| == 5;
      row
    }

    constructor ()
      ensures View() == Zero() && reconnects == panics == 0 && hist == H.Empty()
    {
      requests, successes, failures, reconnects, panics, bytesIn, bytesOut := 0, 0, 0, 0, 0, 0, 0;
      hist := H.Empty();
    }

    /** Skipped and cancelled results count as requests only. */
    method Record(r: Result)
      modifies this
      ensures View() == Plus(old(View()), Amounts(r))
      ensures reconnects == old(reconnects) + if r.outcome.Reconnect? then 1 else 0
      ensures panics == old(panics) + if r.outcome.Panicked? then 1 else 0
      ensures hist == H.Bump(old(hist), H.Bucket(r.latency))
    {
      hide H.Bump, H.Bucket;
      requests := requests + 1;
      match r.outcome {
        case Success => successes := successes + 1;
        case Reconnect => reconnects := reconnects + 1;
        case Panicked => panics := panics + 1;
        case Failure => failures := failures + 1;
        case Skipped =>
        case Cancelled =>
      }
      if r.bytesIn != 0 {
        bytesIn := bytesIn + r.bytesIn;
      }
      if r.bytesOut != 0 {
        bytesOut := bytesOut + r.bytesOut;
      }
      hist := H.Bump(hist, H.Bucket(r.latency));
    }
  }

  lemma {:induction false} SumOfDifference(a: seq<Row>, k: nat, d: Row, c: nat)
    requires k < |a| && c < COLUMNS
    ensures Column(a[k := Plus(a[k], d)], c) == Column(a, c) + d[c]
  {
    ColumnUpdate(a, k, Plus(a[k], d), c);
  }

  lemma ColumnZero(a: seq<Row>, c: nat)
    requires c < COLUMNS
    ensures Column(a + [Zero()], c) == Column(a, c)
  {
    assert (a + [Zero()])[..|a|] == a;
  }

  datatype StatsSnapshot = StatsSnapshot(at: int, saturation: real, total: Row, reconnects: int, panics: int,
                                         active: int, p50: int, p90: int, p99: int,
                                         perTarget: map<TargetID, Row>)

  lemma MergeIntoEmpty(c: H.Counts)
    ensures H.Plus(H.Empty(), c) == c
  {
  }

  class Collector {
    const global: CounterShard
    var shards: map<TargetID, CounterShard>
    var targetIDs: seq<TargetID>
    var active: int
    ghost var unknown: Row
    ghost var recorded: seq<Result>

    ghost function Repr(): set<object>
      reads this
    {
      {this, global} + shards.Values
    }

    /** One distinct shard for every listed id, and nothing else. */
    ghost predicate Shape()
      reads this
    {
      && (forall i | 0 <= i < |targetIDs| :: targetIDs[i] in shards)
      && (forall id | id in shards :: id in targetIDs && shards[id] != global)
      && (forall i, j | 0 <= i < j < |targetIDs| :: targetIDs[i] != targetIDs[j])
      && (forall x, y | x in shards && y in shards && x != y :: shards[x] != shards[y])
    }

    ghost function Rows(): seq<Row>
      requires Shape()
      reads this, shards.Values
    {
      seq(|targetIDs|, i requires 0 <= i < |targetIDs| reads this, shards.Values
                         requires Shape() => shards[targetIDs[i]].View())
    }

    /** The global counters and samples are those of everything recorded. */
    ghost predicate Counted()
      reads this, global
    {
      && global.View() == Total(recorded)
      && global.reconnects == CountOf(recorded, Reconnect) && global.panics == CountOf(recorded, Panicked)
      && global.hist == H.Of(Latencies(recorded))
    }

    /** Every counter's global value is the sum over the shards plus the unknown targets. */
    ghost predicate Valid()
      reads this, global, shards.Values
    {
      && Shape() && Counted()
      && forall c | 0 <= c < COLUMNS :: global.View()[c] == Column(Rows(), c) + unknown[c]
    }

    constructor ()
      ensures Valid() && targetIDs == [] && recorded == [] && active == 0 && fresh(Repr())
    {
      global := new CounterShard();
      shards, targetIDs, active, unknown, recorded := map[], [], 0, Zero(), [];
    }

    method AddActive(d: int)
      modifies this`active
      ensures active == old(active) + d
    {
      active := active + d;
    }

    method AddShard(id: TargetID)
      requires Valid()
      modifies this
      ensures Valid() && recorded == old(recorded) && active == old(active)
      ensures targetIDs == if id in old(targetIDs) then old(targetIDs) else old(targetIDs) + [id]
      ensures Rows() == if id in old(targetIDs) then old(Rows()) else old(Rows()) + [Zero()]
    {
      if id in shards {
        return;
      }
      hide Column;
      ghost var rows := Rows();
      var shard := new CounterShard();
      shards := shards[id := shard];
      targetIDs := targetIDs + [id];
      assert Rows() == rows + [Zero()];
      forall c | 0 <= c < COLUMNS
        ensures global.View()[c] == Column(Rows(), c) + unknown[c]
      {
        ColumnZero(rows, c);
      }
    }

    method RecordGlobally(r: Result)
      requires Shape() && Counted()
      modifies global, this`recorded
      ensures Counted() && recorded == old(recorded) + [r]
      ensures global.View() == Plus(old(global.View()), Amounts(r))
    {
      hide Total, CountOf, Latencies, H.Of, H.Bump, H.Bucket, Amounts;
      global.Record(r);
      OneMoreResult(recorded, r);
      recorded := recorded + [r];
    }

    /** Unknown targets count globally only. */
    method RecordInShard(r: Result)
      requires Shape()
      modifies shards.Values, this`unknown
      ensures forall i | 0 <= i < |targetIDs| ::
                Rows()[i] == if targetIDs[i] == r.target then Plus(old(Rows())[i], Amounts(r)) else old(Rows())[i]
      ensures forall c | 0 <= c < COLUMNS ::
                Column(Rows(), c) + unknown[c] == old(Column(Rows(), c)) + old(unknown)[c] + Amounts(r)[c]
    {
      hide Column, Amounts;
      ghost var rows, d := Rows(), Amounts(r);
      if r.target in shards {
        ghost var k :| 0 <= k < |targetIDs| && targetIDs[k] == r.target;
        var shard := shards[r.target];
        shard.Record(r);
        assert Rows() == rows[k := Plus(rows[k], d)];
        forall c | 0 <= c < COLUMNS
          ensures Column(Rows(), c) == Column(rows, c) + d[c]
        {
          SumOfDifference(rows, k, d, c);
        }
      } else {
        unknown := Plus(unknown, d);
        assert Rows() == rows;
      }
    }

    method Record(r: Result)
      requires Valid()
      modifies global, shards.Values, this`unknown, this`recorded
      ensures Valid() && recorded == old(recorded) + [r]
      ensures targetIDs == old(targetIDs)
      ensures forall i | 0 <= i < |targetIDs| ::
                Rows()[i] == if targetIDs[i] == r.target then Plus(old(Rows())[i], Amounts(r)) else old(Rows())[i]
    {
      hide Column, Amounts, Total, CountOf, Latencies, H.Of;
      ghost var rows := Rows();
      RecordGlobally(r);
      assert Rows() == rows;
      RecordInShard(r);
    }

    /** The clock and the limiter's saturation are read at the end. The global counters are those
        of everything recorded, the percentiles those of all latencies recorded, the per-target map
        lists exactly the shards, and each global counter is their sum plus the unknown targets'
        share. */
    method Snapshot(now: int, saturation: real) returns (snap: StatsSnapshot)
      requires Valid()
      ensures snap.at == now && snap.saturation == saturation
      ensures snap.total == [|recorded|, CountOf(recorded, Success), CountOf(recorded, Failure), BytesIn(recorded),
                             BytesOut(recorded)]
      ensures snap.reconnects == CountOf(recorded, Reconnect) && snap.panics == CountOf(recorded, Panicked)
      ensures snap.active == active
      ensures var all := H.Of(Latencies(recorded));
              && snap.p50 == H.PercentileOf(all, 0.50) && snap.p90 == H.PercentileOf(all, 0.90)
              && snap.p99 == H.PercentileOf(all, 0.99)
      ensures snap.perTarget.Keys == shards.Keys
      ensures forall i | 0 <= i < |targetIDs| ::
                targetIDs[i] in snap.perTarget && snap.perTarget[targetIDs[i]] == Rows()[i]
      ensures forall c | 0 <= c < COLUMNS :: snap.total[c] == Column(Rows(), c) + unknown[c]
    {
      hide H.PercentileOf, H.Plus, H.Of, H.Empty, Column, Total, CountOf;
      TotalCounts(recorded);
      var perTarget: map<TargetID, Row> := map[];
      for i := 0 to |targetIDs|
        invariant forall id :: id in perTarget <==> id in targetIDs[..i]
        invariant forall j | 0 <= j < i :: targetIDs[j] in perTarget && perTarget[targetIDs[j]] == Rows()[j]
      {
        perTarget := perTarget[targetIDs[i] := shards[targetIDs[i]].View()];
      }
      assert forall id :: id in shards <==> id in targetIDs[..|targetIDs|];
      var merged := H.Plus(H.Empty(), global.hist);
      MergeIntoEmpty(global.hist);
      snap := StatsSnapshot(now, saturation, global.View(), global.reconnects, global.panics, active,
                            H.PercentileOf(merged, 0.50), H.PercentileOf(merged, 0.90), H.PercentileOf(merged, 0.99),
                            perTarget);
    }
  }
}
