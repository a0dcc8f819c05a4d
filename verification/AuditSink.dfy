/** The file-backed audit sink: chain replay, append, and the live tail cross-check. */
module AuditSink {
  import opened Basics
  import opened Bytes
  import opened AuditHash

  /** One line of the log file as the scanner and the JSON decoder see it. */
  datatype Line = Blank | Malformed | Oversized | Entry(r: Record)

  datatype ReplayResult = Replayed(nextSeq: uint64, tail: GoString) | ChainBroken | ScanFailed

  function Next(n: uint64): uint64 {
    if n == TWO_64 - 1 then 0 else n + 1
  }

  /** The counter's value after `n` records: it wraps at 64 bits. */
  function Count(n: nat): uint64 {
    if n == 0 then 0 else Next(Count(n - 1))
  }

  lemma {:induction false} CountWraps(n: nat)
    ensures Count(n) == n % TWO_64
  {
    if n > 0 {
      CountWraps(n - 1);
    }
  }

  // ---------- what replay decides ----------

  ghost function ReplayFrom(digest: DigestFn, lines: seq<Line>, seqNo: uint64, prev: GoString): ReplayResult {
    if lines == [] then Replayed(seqNo, prev)
    else match lines[0]
      case Blank => ReplayFrom(digest, lines[1..], seqNo, prev)
      case Malformed => ChainBroken
      case Oversized => ScanFailed
      case Entry(r) =>
        if r.seqNo != seqNo || r.prevHash != prev || digest(Encode(r)) != r.hash then ChainBroken
        else ReplayFrom(digest, lines[1..], Next(seqNo), r.hash)
  }

  ghost function ReplaySpec(digest: DigestFn, lines: seq<Line>): ReplayResult {
    ReplayFrom(digest, lines, 0, digest(GenesisInput()))
  }

  method Replay(digest: DigestFn, lines: seq<Line>) returns (result: ReplayResult)
    ensures result == ReplaySpec(digest, lines)
  {
    var prevHash: GoString := digest(GenesisInput());
    var seqNo: uint64 := 0;
    for i := 0 to |lines|
      invariant ReplayFrom(digest, lines[i..], seqNo, prevHash) == ReplaySpec(digest, lines)
    {
      assert lines[i..][0] == lines[i] && lines[i..][1..] == lines[i + 1..];
      match lines[i]
      case Blank =>
      case Malformed => return ChainBroken;
      case Oversized => return ScanFailed;
      case Entry(r) =>
        if r.seqNo != seqNo {
          return ChainBroken;
        }
        if r.prevHash != prevHash {
          return ChainBroken;
        }
        var h := RecordHash(digest, r);
        if h != r.hash {
          return ChainBroken;
        }
        prevHash := r.hash;
        seqNo := Next(seqNo);
    }
    assert lines[|lines|..] == [];
    result := Replayed(seqNo, prevHash);
  }

  /** The records of a file, in order. */
  function Records(lines: seq<Line>): seq<Record> {
    if lines == [] then []
    else Records(lines[..|lines| - 1]) + (if lines[|lines| - 1].Entry? then [lines[|lines| - 1].r] else [])
  }

  predicate Readable(lines: seq<Line>) {
    forall i | 0 <= i < |lines| :: !lines[i].Malformed? && !lines[i].Oversized?
  }

  ghost function Tail(digest: DigestFn, rs: seq<Record>): GoString {
    if rs == [] then digest(GenesisInput()) else rs[|rs| - 1].hash
  }

  /** `r` is a proper successor of the records `before` it. */
  ghost predicate Link(digest: DigestFn, before: seq<Record>, r: Record) {
    && r.seqNo == Count(|before|)
    && r.prevHash == Tail(digest, before)
    && r.hash == digest(Encode(r))
  }

  /** The documented chain, record by record. */
  ghost predicate Chain(digest: DigestFn, rs: seq<Record>) {
    rs != [] ==> Chain(digest, rs[..|rs| - 1]) && Link(digest, rs[..|rs| - 1], rs[|rs| - 1])
  }

  lemma {:induction false} RecordsAppend(a: seq<Line>, b: seq<Line>)
    ensures Records(a + b) == Records(a) + Records(b)
  {
    if b == [] {
      assert a + b == a;
    } else {
      var n := |b| - 1;
      assert (a + b)[..|a| + n] == a + b[..n];
      RecordsAppend(a, b[..n]);
    }
  }

  lemma ChainExtend(digest: DigestFn, rs: seq<Record>, r: Record)
    ensures Chain(digest, rs + [r]) <==> Chain(digest, rs) && Link(digest, rs, r)
  {
    assert (rs + [r])[..|rs|] == rs;
  }

  lemma {:induction false} ReplayPrefix(digest: DigestFn, a: seq<Line>, b: seq<Line>, seqNo: uint64, prev: GoString)
    ensures var r := ReplayFrom(digest, a, seqNo, prev);
      ReplayFrom(digest, a + b, seqNo, prev) == if r.Replayed? then ReplayFrom(digest, b, r.nextSeq, r.tail) else r
  {
    hide Encode;
    if a == [] {
      assert a + b == b;
    } else {
      assert (a + b)[0] == a[0] && (a + b)[1..] == a[1..] + b;
      match a[0]
      case Entry(r) => ReplayPrefix(digest, a[1..], b, Next(seqNo), r.hash);
      case _ => ReplayPrefix(digest, a[1..], b, seqNo, prev);
    }
  }

  /** Replay accepts exactly the readable files whose records form a chain, and then
      reports that chain's length and tail. */
  lemma {:induction false} ReplayMeaning(digest: DigestFn, lines: seq<Line>)
    ensures ReplaySpec(digest, lines).Replayed? <==> Readable(lines) && Chain(digest, Records(lines))
    ensures ReplaySpec(digest, lines).Replayed? ==>
      ReplaySpec(digest, lines) == Replayed(Count(|Records(lines)|), Tail(digest, Records(lines)))
  {
    hide Encode;
    if lines != [] {
      var n := |lines| - 1;
      var front, last := lines[..n], lines[n];
      assert lines == front + [last];
      ReplayMeaning(digest, front);
      ReplayPrefix(digest, front, [last], 0, digest(GenesisInput()));
      assert Readable(lines) <==> Readable(front) && !last.Malformed? && !last.Oversized?;
      var before := ReplaySpec(digest, front);
      if before.Replayed? {
        ReplayLast(digest, last, before.nextSeq, before.tail);
      }
      if last.Entry? {
        ChainExtend(digest, Records(front), last.r);
      } else {
        assert Records(lines) == Records(front);
      }
    }
  }

  lemma ReplayLast(digest: DigestFn, last: Line, seqNo: uint64, prev: GoString)
    ensures ReplayFrom(digest, [last], seqNo, prev) ==
      match last
      case Blank => Replayed(seqNo, prev)
      case Malformed => ChainBroken
      case Oversized => ScanFailed
      case Entry(r) =>
        if r.seqNo != seqNo || r.prevHash != prev || digest(Encode(r)) != r.hash then ChainBroken
        else Replayed(Next(seqNo), r.hash)
  {
    hide Encode;
    assert [last][0] == last && [last][1..] == [];
    if last.Entry? {
      assert ReplayFrom(digest, [], Next(seqNo), last.r.hash) == Replayed(Next(seqNo), last.r.hash);
    }
  }

  // ---------- a tail hash fixes the whole log ----------

  /** Every byte string digested while checking the records `rs`. */
  ghost function DigestInputs(rs: seq<Record>): set<Bytes> {
    {GenesisInput()} + set r | r in rs :: Encode(r)
  }

  /** Two different byte strings among those digested for `a` and `b` share a digest. */
  ghost predicate Collision(digest: DigestFn, a: seq<Record>, b: seq<Record>) {
    exists x, y | x in DigestInputs(a) + DigestInputs(b) && y in DigestInputs(a) + DigestInputs(b) ::
      x != y && digest(x) == digest(y)
  }

  lemma CollisionWitness(digest: DigestFn, a: seq<Record>, b: seq<Record>, x: Bytes, y: Bytes)
    requires x in DigestInputs(a) && y in DigestInputs(b) && x != y && digest(x) == digest(y)
    ensures Collision(digest, a, b)
  {
    var all := DigestInputs(a) + DigestInputs(b);
    assert x in all && y in all;
  }

  lemma LastInput(rs: seq<Record>)
    requires rs != []
    ensures Encode(rs[|rs| - 1]) in DigestInputs(rs)
  {
    assert rs[|rs| - 1] in rs;
  }

  lemma CollisionGrows(digest: DigestFn, a: seq<Record>, b: seq<Record>, c: seq<Record>, d: seq<Record>)
    requires Collision(digest, a, b)
    requires (forall r | r in a :: r in c) && (forall r | r in b :: r in d)
    ensures Collision(digest, c, d)
  {
    var x, y :| x in DigestInputs(a) + DigestInputs(b) && y in DigestInputs(a) + DigestInputs(b)
                && x != y && digest(x) == digest(y);
    assert DigestInputs(a) <= DigestInputs(c) && DigestInputs(b) <= DigestInputs(d);
    assert x in DigestInputs(c) + DigestInputs(d) && y in DigestInputs(c) + DigestInputs(d);
  }

  /** One step back along two chains that end in the same hash. */
  lemma LastRecordsAgree(digest: DigestFn, a: seq<Record>, x: Record, b: seq<Record>, y: Record)
    requires Link(digest, a, x) && Link(digest, b, y) && x.hash == y.hash
    ensures x == y || Collision(digest, a + [x], b + [y])
  {
    if Encode(x) == Encode(y) {
      EncodeInjective(x, y);
    } else {
      LastInput(a + [x]);
      LastInput(b + [y]);
      CollisionWitness(digest, a + [x], b + [y], Encode(x), Encode(y));
    }
  }

  /** No chain comes back to the genesis hash. */
  lemma GenesisOnlyFirst(digest: DigestFn, a: seq<Record>, x: Record, b: seq<Record>)
    requires Link(digest, a, x) && x.hash == digest(GenesisInput())
    ensures Collision(digest, a + [x], b) && Collision(digest, b, a + [x])
  {
    LastInput(a + [x]);
    GenesisIsNoRecord(x);
    CollisionWitness(digest, a + [x], b, Encode(x), GenesisInput());
    CollisionWitness(digest, b, a + [x], GenesisInput(), Encode(x));
  }

  /** Two chains with the same tail hash are the same list of records, or two distinct
      inputs with the same digest can be pointed at. */
  lemma {:induction false} TailFixesChain(digest: DigestFn, a: seq<Record>, b: seq<Record>)
    requires Chain(digest, a) && Chain(digest, b) && Tail(digest, a) == Tail(digest, b)
    ensures a == b || Collision(digest, a, b)
  {
    hide Encode;
    if a == [] || b == [] {
      EmptyChainAgrees(digest, a, b);
    } else {
      var a', x, b', y := a[..|a| - 1], a[|a| - 1], b[..|b| - 1], b[|b| - 1];
      assert a == a' + [x] && b == b' + [y];
      LastRecordsAgree(digest, a', x, b', y);
      if x == y {
        TailFixesChain(digest, a', b');
        LongerChainsAgree(digest, a', b', x);
      }
    }
  }

  lemma EmptyChainAgrees(digest: DigestFn, a: seq<Record>, b: seq<Record>)
    requires Chain(digest, a) && Chain(digest, b) && Tail(digest, a) == Tail(digest, b)
    requires a == [] || b == []
    ensures a == b || Collision(digest, a, b)
  {
    hide Encode;
    if a != [] {
      assert a == a[..|a| - 1] + [a[|a| - 1]];
      GenesisOnlyFirst(digest, a[..|a| - 1], a[|a| - 1], b);
    } else if b != [] {
      assert b == b[..|b| - 1] + [b[|b| - 1]];
      GenesisOnlyFirst(digest, b[..|b| - 1], b[|b| - 1], a);
    }
  }

  lemma LongerChainsAgree(digest: DigestFn, a: seq<Record>, b: seq<Record>, x: Record)
    requires a == b || Collision(digest, a, b)
    ensures a + [x] == b + [x] || Collision(digest, a + [x], b + [x])
  {
    if a != b {
      CollisionGrows(digest, a, b, a + [x], b + [x]);
    }
  }

  /** The same for files: replay accepting two files with one tail hash means they hold
      the same records, whatever their blank lines. */
  lemma TailFixesFile(digest: DigestFn, a: seq<Line>, b: seq<Line>)
    requires ReplaySpec(digest, a).Replayed? && ReplaySpec(digest, b).Replayed?
    requires ReplaySpec(digest, a).tail == ReplaySpec(digest, b).tail
    ensures Records(a) == Records(b) || Collision(digest, Records(a), Records(b))
  {
    ReplayMeaning(digest, a);
    ReplayMeaning(digest, b);
    TailFixesChain(digest, Records(a), Records(b));
  }

  // ---------- the sink as a state machine ----------

  datatype Event = Event(actor: GoString, action: GoString, resource: GoString, detail: Detail)

  /** What the sink depends on but does not define: the digest, event validation, and what
      a marshalled record reads back as (`None` when marshalling fails). */
  datatype Env = Env(digest: DigestFn, accepts: Event -> bool, marshal: Record -> Option<Line>)

  /** How the file system treats one append. After a torn write the file may show anything. */
  datatype IO =
    | Durable
    | SyncFailed
    | WriteFailed(after: seq<Line>)
    | OntoTornLine(after: seq<Line>)

  datatype Sink = Sink(file: seq<Line>, agentID: GoString, nextSeq: uint64, tailHash: GoString, closed: bool)

  ghost function Stamp(env: Env, s: Sink, e: Event, now: int64): Record {
    var rec := Record(s.nextSeq, now, s.agentID, e.actor, e.action, e.resource, e.detail, s.tailHash, []);
    rec.(hash := env.digest(Encode(rec)))
  }

  /** Whether the append reaches the file at all. */
  ghost predicate Writes(env: Env, s: Sink, e: Event, now: int64) {
    env.accepts(e) && !s.closed && env.marshal(Stamp(env, s, e, now)).Some?
  }

  ghost predicate Appends(env: Env, s: Sink, e: Event, now: int64, io: IO) {
    Writes(env, s, e, now) && (io.Durable? || io.OntoTornLine?)
  }

  ghost function AppendStep(env: Env, s: Sink, e: Event, now: int64, io: IO): Sink {
    if !Writes(env, s, e, now) then s
    else
      var rec := Stamp(env, s, e, now);
      var file := if io.Durable? || io.SyncFailed? then s.file + [env.marshal(rec).value] else io.after;
      if io.Durable? || io.OntoTornLine? then s.(file := file, nextSeq := Next(s.nextSeq), tailHash := rec.hash)
      else s.(file := file)
  }

  ghost predicate Verifies(env: Env, s: Sink) {
    !s.closed && ReplaySpec(env.digest, s.file) == Replayed(s.nextSeq, s.tailHash)
  }

  ghost function Open(env: Env, file: seq<Line>, agentID: GoString): Option<Sink> {
    match ReplaySpec(env.digest, file)
    case Replayed(n, t) => Some(Sink(file, agentID, n, t, false))
    case _ => None
  }

  datatype Op =
    | Append(e: Event, now: int64, io: IO)
    | Edit(file: seq<Line>)
    | Close
    | Reopen(agentID: GoString)

  /** A sink together with the records it is answerable for: those recovered when it was
      opened, then those it reported as appended. */
  datatype Tracked = Tracked(sink: Sink, log: seq<Record>)

  ghost function Step(env: Env, t: Tracked, op: Op): Tracked {
    match op
    case Append(e, now, io) =>
      Tracked(AppendStep(env, t.sink, e, now, io),
              if Appends(env, t.sink, e, now, io) then t.log + [Stamp(env, t.sink, e, now)] else t.log)
    case Edit(file) => Tracked(t.sink.(file := file), t.log)
    case Close => Tracked(t.sink.(closed := true), t.log)
    case Reopen(agentID) =>
      var reopened := Open(env, t.sink.file, agentID);
      if reopened.Some? then Tracked(reopened.value, Records(t.sink.file)) else t
  }

  ghost function Run(env: Env, t: Tracked, ops: seq<Op>): Tracked {
    if ops == [] then t else Step(env, Run(env, t, ops[..|ops| - 1]), ops[|ops| - 1])
  }

  /** The in-memory tail always describes a chain made of exactly the tracked records. */
  ghost predicate Inv(env: Env, t: Tracked) {
    && Chain(env.digest, t.log)
    && t.sink.nextSeq == Count(|t.log|)
    && t.sink.tailHash == Tail(env.digest, t.log)
  }

  lemma OpenInv(env: Env, file: seq<Line>, agentID: GoString)
    requires Open(env, file, agentID).Some?
    ensures Inv(env, Tracked(Open(env, file, agentID).value, Records(file)))
  {
    ReplayMeaning(env.digest, file);
  }

  lemma StampLinks(env: Env, t: Tracked, e: Event, now: int64)
    requires Inv(env, t)
    ensures Chain(env.digest, t.log + [Stamp(env, t.sink, e, now)])
  {
    var rec := Stamp(env, t.sink, e, now);
    HashFieldIgnored(rec, rec.(hash := []));
    ChainExtend(env.digest, t.log, rec);
  }

  /** The digest covers every field but the stored hash itself. */
  lemma HashFieldIgnored(r: Record, s: Record)
    requires SameHashed(r, s)
    ensures Encode(r) == Encode(s)
  {
    ListingExists(r.detail.Keys);
    var k :| IsSortedListing(k, r.detail.Keys) && Encode(r) == EncodeWith(r, k);
    EncodeAnyListing(s, k);
    EncodeFromHeader(r, k);
    EncodeFromHeader(s, k);
    assert Header(r) == Header(s);
  }

  lemma AppendInv(env: Env, t: Tracked, e: Event, now: int64, io: IO)
    requires Inv(env, t)
    ensures Inv(env, Step(env, t, Append(e, now, io)))
  {
    hide Encode, Chain;
    if Appends(env, t.sink, e, now, io) {
      StampLinks(env, t, e, now);
    }
  }

  lemma StepInv(env: Env, t: Tracked, op: Op)
    requires Inv(env, t)
    ensures Inv(env, Step(env, t, op))
  {
    match op
    case Append(e, now, io) => AppendInv(env, t, e, now, io);
    case Reopen(agentID) =>
      if Open(env, t.sink.file, agentID).Some? {
        OpenInv(env, t.sink.file, agentID);
      }
    case _ =>
  }

  lemma {:induction false} RunInv(env: Env, t: Tracked, ops: seq<Op>)
    requires Inv(env, t)
    ensures Inv(env, Run(env, t, ops))
  {
    if ops != [] {
      RunInv(env, t, ops[..|ops| - 1]);
      StepInv(env, Run(env, t, ops[..|ops| - 1]), ops[|ops| - 1]);
    }
  }

  /** After any run of appends (accepted, rejected, failed or torn), edits, closes and
      reopens: if the check passes, the file holds exactly the records recovered at open
      followed by those appended since. */
  lemma VerifySound(env: Env, file: seq<Line>, agentID: GoString, ops: seq<Op>)
    requires Open(env, file, agentID).Some?
    ensures var t := Run(env, Tracked(Open(env, file, agentID).value, Records(file)), ops);
      Verifies(env, t.sink) ==> Records(t.sink.file) == t.log || Collision(env.digest, Records(t.sink.file), t.log)
  {
    var t := Tracked(Open(env, file, agentID).value, Records(file));
    OpenInv(env, file, agentID);
    RunInv(env, t, ops);
    if Verifies(env, Run(env, t, ops).sink) {
      VerifySoundIn(env, Run(env, t, ops));
    }
  }

  lemma VerifySoundIn(env: Env, t: Tracked)
    requires Inv(env, t) && Verifies(env, t.sink)
    ensures Records(t.sink.file) == t.log || Collision(env.digest, Records(t.sink.file), t.log)
  {
    ReplayMeaning(env.digest, t.sink.file);
    TailFixesChain(env.digest, Records(t.sink.file), t.log);
  }

  /** A file holding exactly the tracked records verifies. */
  lemma VerifyComplete(env: Env, t: Tracked)
    requires Inv(env, t) && Readable(t.sink.file) && Records(t.sink.file) == t.log && !t.sink.closed
    ensures Verifies(env, t.sink)
  {
    ReplayMeaning(env.digest, t.sink.file);
  }

  // ---------- a log nobody else touches ----------

  /** The log grew by `added`, the file by the marshalled form of each of them. */
  ghost predicate Untouched(env: Env, base: Tracked, t: Tracked, added: seq<Record>, lines: seq<Line>) {
    && t.log == base.log + added
    && t.sink.file == base.sink.file + lines
    && |lines| == |added|
    && forall i | 0 <= i < |added| :: env.marshal(added[i]) == Some(lines[i])
  }

  /** Every record appended since `base` reads back as written. */
  ghost predicate AllFaithful(env: Env, base: Tracked, t: Tracked) {
    forall i | |base.log| <= i < |t.log| :: env.marshal(t.log[i]) == Some(Entry(t.log[i]))
  }

  predicate Undisturbed(op: Op) {
    op.Close? || (op.Append? && op.io.Durable?)
  }

  lemma {:induction false} UntouchedRun(env: Env, base: Tracked, ops: seq<Op>)
    returns (added: seq<Record>, lines: seq<Line>)
    requires forall i | 0 <= i < |ops| :: Undisturbed(ops[i])
    ensures Untouched(env, base, Run(env, base, ops), added, lines)
  {
    hide Encode;
    if ops == [] {
      added, lines := [], [];
    } else {
      added, lines := UntouchedRun(env, base, ops[..|ops| - 1]);
      var t, op := Run(env, base, ops[..|ops| - 1]), ops[|ops| - 1];
      if op.Append? && Appends(env, t.sink, op.e, op.now, op.io) {
        var rec := Stamp(env, t.sink, op.e, op.now);
        added, lines := added + [rec], lines + [env.marshal(rec).value];
      }
    }
  }

  lemma {:induction false} EntriesCount(lines: seq<Line>)
    ensures |Records(lines)| <= |lines|
    ensures |Records(lines)| == |lines| ==> forall i | 0 <= i < |lines| :: lines[i] == Entry(Records(lines)[i])
  {
    if lines != [] {
      EntriesCount(lines[..|lines| - 1]);
    }
  }

  lemma {:induction false} EntriesOf(lines: seq<Line>, rs: seq<Record>)
    requires |lines| == |rs| && forall i | 0 <= i < |rs| :: lines[i] == Entry(rs[i])
    ensures Records(lines) == rs
  {
    if lines != [] {
      EntriesOf(lines[..|lines| - 1], rs[..|rs| - 1]);
      assert rs == rs[..|rs| - 1] + [rs[|rs| - 1]];
    }
  }

  /** With no edit and no failed write or sync, an open sink verifies if and only if every
      record it appended reads back as written (up to a digest collision). */
  lemma UntouchedVerdict(env: Env, file: seq<Line>, agentID: GoString, ops: seq<Op>)
    requires Open(env, file, agentID).Some?
    requires forall i | 0 <= i < |ops| :: Undisturbed(ops[i])
    ensures var base := Tracked(Open(env, file, agentID).value, Records(file));
      var t := Run(env, base, ops);
      && |base.log| <= |t.log|
      && (AllFaithful(env, base, t) && !t.sink.closed ==> Verifies(env, t.sink))
      && (Verifies(env, t.sink) ==> AllFaithful(env, base, t) || Collision(env.digest, Records(t.sink.file), t.log))
  {
    hide Encode;
    var base := Tracked(Open(env, file, agentID).value, Records(file));
    var t := Run(env, base, ops);
    OpenInv(env, file, agentID);
    RunInv(env, base, ops);
    var added, lines := UntouchedRun(env, base, ops);
    ReplayMeaning(env.digest, file);
    if AllFaithful(env, base, t) && !t.sink.closed {
      FaithfulVerifies(env, base, t, added, lines);
    }
    if Verifies(env, t.sink) {
      VerifySoundIn(env, t);
      if Records(t.sink.file) == t.log {
        MatchingIsFaithful(env, base, t, added, lines);
      }
    }
  }

  lemma FaithfulVerifies(env: Env, base: Tracked, t: Tracked, added: seq<Record>, lines: seq<Line>)
    requires Inv(env, t) && Untouched(env, base, t, added, lines) && AllFaithful(env, base, t) && !t.sink.closed
    requires Readable(base.sink.file) && Records(base.sink.file) == base.log
    ensures Verifies(env, t.sink)
  {
    hide Encode;
    forall i | 0 <= i < |added|
      ensures lines[i] == Entry(added[i])
    {
      assert added[i] == t.log[|base.log| + i];
    }
    RecordsAppend(base.sink.file, lines);
    EntriesOf(lines, added);
    VerifyComplete(env, t);
  }

  lemma MatchingIsFaithful(env: Env, base: Tracked, t: Tracked, added: seq<Record>, lines: seq<Line>)
    requires Untouched(env, base, t, added, lines)
    requires Records(base.sink.file) == base.log && Records(t.sink.file) == t.log
    ensures AllFaithful(env, base, t)
  {
    RecordsAppend(base.sink.file, lines);
    assert Records(lines) == (base.log + Records(lines))[|base.log|..] == added;
    EntriesCount(lines);
    forall i | |base.log| <= i < |t.log|
      ensures env.marshal(t.log[i]) == Some(Entry(t.log[i]))
    {
      assert t.log[i] == added[i - |base.log|];
    }
  }

  // ---------- whose events the log holds ----------

  /** The record is of this event, at this instant, by this agent. */
  predicate Carries(r: Record, e: Event, now: int64, agentID: GoString) {
    && r.actor == e.actor && r.action == e.action && r.resource == e.resource && r.detail == e.detail
    && r.time == now && r.agentID == agentID
  }

  /** The appends reported as successful, in order: each event and the instant it was taken at. */
  ghost function Acknowledged(env: Env, t: Tracked, ops: seq<Op>): seq<(Event, int64)> {
    if ops == [] then []
    else
      var front, op := ops[..|ops| - 1], ops[|ops| - 1];
      Acknowledged(env, t, front)
      + if op.Append? && Appends(env, Run(env, t, front).sink, op.e, op.now, op.io) then [(op.e, op.now)] else []
  }

  /** `rs` continues `start` with one record for each acknowledged event, in order. */
  predicate CarryAll(rs: seq<Record>, start: seq<Record>, events: seq<(Event, int64)>, agentID: GoString) {
    && |rs| == |start| + |events| && rs[..|start|] == start
    && forall k | 0 <= k < |events| :: Carries(rs[|start| + k], events[k].0, events[k].1, agentID)
  }

  /** Between two openings, whatever else happens to the sink and its file, the tracked records
      are those recovered and then one for each acknowledged event, carrying its fields. */
  lemma {:induction false} RunCarriesEvents(env: Env, base: Tracked, ops: seq<Op>)
    requires forall i | 0 <= i < |ops| :: !ops[i].Reopen?
    ensures Run(env, base, ops).sink.agentID == base.sink.agentID
    ensures CarryAll(Run(env, base, ops).log, base.log, Acknowledged(env, base, ops), base.sink.agentID)
  {
    if ops != [] {
      hide CarryAll, Step, Appends;
      var front, op := ops[..|ops| - 1], ops[|ops| - 1];
      RunCarriesEvents(env, base, front);
      CarriesOneMore(env, Run(env, base, front), op, base.log, Acknowledged(env, base, front), base.sink.agentID);
    }
  }

  lemma CarriesOneMore(env: Env, t: Tracked, op: Op, start: seq<Record>, events: seq<(Event, int64)>, agentID: GoString)
    requires CarryAll(t.log, start, events, agentID) && t.sink.agentID == agentID && !op.Reopen?
    ensures Step(env, t, op).sink.agentID == agentID
    ensures CarryAll(Step(env, t, op).log, start,
                     events + if op.Append? && Appends(env, t.sink, op.e, op.now, op.io) then [(op.e, op.now)] else [],
                     agentID)
  {
    hide Encode;
  }

  /** So a log that verifies holds, after what was recovered at opening, exactly the acknowledged
      events with their actors, actions, resources, details and times, in order. */
  lemma VerifiedLogCarriesEvents(env: Env, file: seq<Line>, agentID: GoString, ops: seq<Op>)
    requires Open(env, file, agentID).Some?
    requires forall i | 0 <= i < |ops| :: !ops[i].Reopen?
    ensures var base := Tracked(Open(env, file, agentID).value, Records(file));
            var t, events := Run(env, base, ops), Acknowledged(env, base, ops);
            Verifies(env, t.sink) && !Collision(env.digest, Records(t.sink.file), t.log) ==>
              CarryAll(Records(t.sink.file), Records(file), events, agentID)
  {
    hide Encode, Records, ReplaySpec, Run, Acknowledged, CarryAll, Verifies, Collision;
    var base := Tracked(Open(env, file, agentID).value, Records(file));
    RunCarriesEvents(env, base, ops);
    VerifySound(env, file, agentID, ops);
  }

  // ---------- what a failed sync does ----------

  /** The record reached the file but the sink did not count it: the next append that
      succeeds reuses its number, and from then on no open and no check can succeed. */
  lemma AppendAfterFailedSync(env: Env, t: Tracked, e1: Event, now1: int64, e2: Event, now2: int64)
    requires Inv(env, t) && Records(t.sink.file) == t.log
    requires Writes(env, t.sink, e1, now1) && Writes(env, t.sink, e2, now2)
    requires env.marshal(Stamp(env, t.sink, e1, now1)) == Some(Entry(Stamp(env, t.sink, e1, now1)))
    requires env.marshal(Stamp(env, t.sink, e2, now2)) == Some(Entry(Stamp(env, t.sink, e2, now2)))
    ensures var u := Step(env, Step(env, t, Append(e1, now1, SyncFailed)), Append(e2, now2, Durable));
      && Appends(env, Step(env, t, Append(e1, now1, SyncFailed)).sink, e2, now2, Durable)
      && !Verifies(env, u.sink)
      && forall more, agentID :: Open(env, u.sink.file + more, agentID) == None
  {
    hide Encode;
    var mid := Step(env, t, Append(e1, now1, SyncFailed));
    var u := Step(env, mid, Append(e2, now2, Durable));
    var r1, r2 := Stamp(env, t.sink, e1, now1), Stamp(env, t.sink, e2, now2);
    assert Stamp(env, mid.sink, e2, now2) == r2;
    assert u.sink.file == t.sink.file + [Entry(r1)] + [Entry(r2)];
    forall more, agentID
      ensures Open(env, u.sink.file + more, agentID) == None
    {
      RepeatedNumberBreaks(env.digest, t.sink.file, r1, r2, more);
    }
    RepeatedNumberBreaks(env.digest, t.sink.file, r1, r2, []);
    assert u.sink.file + [] == u.sink.file;
  }

  lemma RepeatedNumberBreaks(digest: DigestFn, file: seq<Line>, r1: Record, r2: Record, more: seq<Line>)
    requires r1.seqNo == r2.seqNo
    ensures !ReplaySpec(digest, file + [Entry(r1)] + [Entry(r2)] + more).Replayed?
  {
    hide Encode;
    var f1, f2 := file + [Entry(r1)], file + [Entry(r1)] + [Entry(r2)];
    ReplayPrefix(digest, f2, more, 0, digest(GenesisInput()));
    ReplayMeaning(digest, f2);
    assert f2[..|f1|] == f1 && f1[..|file|] == file;
    var rs := Records(file);
    assert Records(f2) == rs + [r1] + [r2];
    ChainExtend(digest, rs + [r1], r2);
    ChainExtend(digest, rs, r1);
  }

  // ---------- when a log only the sink writes can be verified and reopened ----------

  /** The log as its writes and syncs left it: every record counted; one record in the file that
      was not counted, because its sync failed; or a further record written after that. */
  datatype Health = Sound | Unsynced | Spoilt

  /** An append that is refused, or fails without a byte written, changes nothing; opening anew
      counts what the file holds. */
  ghost function HealthStep(env: Env, t: Tracked, h: Health, op: Op): Health {
    match op
    case Append(e, now, io) =>
      if !Writes(env, t.sink, e, now) || io.WriteFailed? then h
      else if !h.Sound? then Spoilt
      else if io.SyncFailed? then Unsynced else Sound
    case Reopen(_) => if h.Unsynced? then Sound else h
    case _ => h
  }

  ghost function HealthAfter(env: Env, t: Tracked, ops: seq<Op>): Health {
    if ops == [] then Sound
    else
      var front := ops[..|ops| - 1];
      HealthStep(env, Run(env, t, front), HealthAfter(env, t, front), ops[|ops| - 1])
  }

  /** Nobody else edits the file, a write happens whole or not at all, and what is written reads
      back as written. */
  ghost predicate OwnWrite(env: Env, t: Tracked, op: Op) {
    match op
    case Append(e, now, io) =>
      && (io.Durable? || io.SyncFailed? || io == WriteFailed(t.sink.file))
      && (Writes(env, t.sink, e, now) ==>
            env.marshal(Stamp(env, t.sink, e, now)) == Some(Entry(Stamp(env, t.sink, e, now))))
    case Edit(_) => false
    case _ => true
  }

  ghost predicate OwnWrites(env: Env, t: Tracked, ops: seq<Op>) {
    ops != [] ==>
      OwnWrites(env, t, ops[..|ops| - 1]) && OwnWrite(env, Run(env, t, ops[..|ops| - 1]), ops[|ops| - 1])
  }

  /** Two lines in a row carry the same number. */
  predicate Repeats(file: seq<Line>) {
    exists k | 0 < k < |file| :: file[k - 1].Entry? && file[k].Entry? && file[k - 1].r.seqNo == file[k].r.seqNo
  }

  ghost predicate HealthInv(env: Env, t: Tracked, h: Health) {
    Inv(env, t) &&
    match h
    case Sound => Readable(t.sink.file) && Records(t.sink.file) == t.log
    case Unsynced =>
      && t.sink.file != [] && t.sink.file[|t.sink.file| - 1].Entry?
      && t.sink.file[|t.sink.file| - 1].r.seqNo == t.sink.nextSeq
      && Readable(t.sink.file) && Records(t.sink.file) == t.log + [t.sink.file[|t.sink.file| - 1].r]
      && Chain(env.digest, Records(t.sink.file))
    case Spoilt => Repeats(t.sink.file)
  }

  lemma RepeatsNeverReplays(digest: DigestFn, file: seq<Line>)
    requires Repeats(file)
    ensures !ReplaySpec(digest, file).Replayed?
  {
    var k :| 0 < k < |file| && file[k - 1].Entry? && file[k].Entry? && file[k - 1].r.seqNo == file[k].r.seqNo;
    RepeatedNumberBreaks(digest, file[..k - 1], file[k - 1].r, file[k].r, file[k + 1..]);
    assert file == file[..k - 1] + [Entry(file[k - 1].r)] + [Entry(file[k].r)] + file[k + 1..];
  }

  /** What each state of health comes to. */
  lemma HealthDecides(env: Env, t: Tracked, h: Health, agentID: GoString)
    requires HealthInv(env, t, h)
    ensures Verifies(env, t.sink) <==> !t.sink.closed && h.Sound?
    ensures Open(env, t.sink.file, agentID).Some? <==> !h.Spoilt?
  {
    hide Encode;
    ReplayMeaning(env.digest, t.sink.file);
    if h.Spoilt? {
      RepeatsNeverReplays(env.digest, t.sink.file);
    } else if h.Unsynced? {
      assert Count(|t.log| + 1) == Next(Count(|t.log|)) != Count(|t.log|);
    }
  }

  lemma RepeatsGrows(file: seq<Line>, line: Line)
    requires Repeats(file) || (file != [] && file[|file| - 1].Entry? && line.Entry?
                               && file[|file| - 1].r.seqNo == line.r.seqNo)
    ensures Repeats(file + [line])
  {
    var grown := file + [line];
    if Repeats(file) {
      var k :| 0 < k < |file| && file[k - 1].Entry? && file[k].Entry? && file[k - 1].r.seqNo == file[k].r.seqNo;
      assert grown[k - 1] == file[k - 1] && grown[k] == file[k];
    } else {
      var k := |file|;
      assert grown[k - 1] == file[|file| - 1] && grown[k] == line;
    }
  }

  lemma WriteHealth(env: Env, t: Tracked, h: Health, e: Event, now: int64, io: IO)
    requires HealthInv(env, t, h) && Writes(env, t.sink, e, now) && OwnWrite(env, t, Append(e, now, io))
    requires !io.WriteFailed?
    ensures HealthInv(env, Step(env, t, Append(e, now, io)), HealthStep(env, t, h, Append(e, now, io)))
  {
    hide Encode, Inv, Chain, Readable, Records, Repeats;
    var rec := Stamp(env, t.sink, e, now);
    var u := Step(env, t, Append(e, now, io));
    AppendInv(env, t, e, now, io);
    assert u.sink.file == t.sink.file + [Entry(rec)];
    if h.Sound? {
      OneRecord(t.sink.file, rec);
      StampLinks(env, t, e, now);
      assert u.sink.file[|u.sink.file| - 1] == Entry(rec);
    } else {
      assert h.Unsynced? ==> rec.seqNo == t.sink.file[|t.sink.file| - 1].r.seqNo;
      RepeatsGrows(t.sink.file, Entry(rec));
    }
  }

  lemma OneRecord(file: seq<Line>, rec: Record)
    requires Readable(file)
    ensures Readable(file + [Entry(rec)]) && Records(file + [Entry(rec)]) == Records(file) + [rec]
  {
    assert (file + [Entry(rec)])[..|file|] == file;
  }

  lemma ReopenHealth(env: Env, t: Tracked, h: Health, agentID: GoString)
    requires HealthInv(env, t, h)
    ensures HealthInv(env, Step(env, t, Reopen(agentID)), HealthStep(env, t, h, Reopen(agentID)))
  {
    hide Encode, Inv, Chain, Records, Repeats, ReplaySpec;
    HealthDecides(env, t, h, agentID);
    if !h.Spoilt? {
      OpenInv(env, t.sink.file, agentID);
    }
  }

  lemma StepHealth(env: Env, t: Tracked, h: Health, op: Op)
    requires HealthInv(env, t, h) && OwnWrite(env, t, op)
    ensures HealthInv(env, Step(env, t, op), HealthStep(env, t, h, op))
  {
    match op
    case Append(e, now, io) =>
      if Writes(env, t.sink, e, now) && !io.WriteFailed? {
        WriteHealth(env, t, h, e, now, io);
      }
    case Close => hide Encode, Chain, Repeats, Readable;
    case Reopen(agentID) => ReopenHealth(env, t, h, agentID);
  }

  lemma {:induction false} RunHealth(env: Env, t: Tracked, ops: seq<Op>)
    requires HealthInv(env, t, Sound) && OwnWrites(env, t, ops)
    ensures HealthInv(env, Run(env, t, ops), HealthAfter(env, t, ops))
  {
    if ops != [] {
      hide HealthInv, Step, HealthStep, OwnWrite;
      var front := ops[..|ops| - 1];
      RunHealth(env, t, front);
      StepHealth(env, Run(env, t, front), HealthAfter(env, t, front), ops[|ops| - 1]);
    }
  }

  ghost predicate WroteAt(env: Env, t: Tracked, ops: seq<Op>, i: nat)
    requires i < |ops|
  {
    ops[i].Append? && !ops[i].io.WriteFailed? && Writes(env, Run(env, t, ops[..i]).sink, ops[i].e, ops[i].now)
  }

  ghost predicate LostAt(env: Env, t: Tracked, ops: seq<Op>, i: nat)
    requires i < |ops|
  {
    WroteAt(env, t, ops, i) && ops[i].io.SyncFailed?
  }

  ghost predicate NeverLost(env: Env, t: Tracked, ops: seq<Op>) {
    forall i: nat | i < |ops| :: !LostAt(env, t, ops, i)
  }

  /** Some write followed one whose sync failed. */
  ghost predicate WrittenAfterLoss(env: Env, t: Tracked, ops: seq<Op>) {
    exists i: nat, j: nat | i < j < |ops| :: LostAt(env, t, ops, i) && WroteAt(env, t, ops, j)
  }

  lemma SameInFront(env: Env, t: Tracked, ops: seq<Op>, i: nat)
    requires i < |ops| - 1
    ensures WroteAt(env, t, ops[..|ops| - 1], i) == WroteAt(env, t, ops, i)
    ensures LostAt(env, t, ops[..|ops| - 1], i) == LostAt(env, t, ops, i)
  {
    assert ops[..|ops| - 1][..i] == ops[..i];
  }

  lemma NeverLostOneMore(env: Env, t: Tracked, ops: seq<Op>)
    requires ops != []
    ensures NeverLost(env, t, ops) <==> NeverLost(env, t, ops[..|ops| - 1]) && !LostAt(env, t, ops, |ops| - 1)
  {
    hide LostAt, WroteAt;
    var front, n: nat := ops[..|ops| - 1], |ops| - 1;
    if NeverLost(env, t, front) && !LostAt(env, t, ops, n) {
      forall i: nat | i < |ops|
        ensures !LostAt(env, t, ops, i)
      {
        if i < n {
          SameInFront(env, t, ops, i);
        }
      }
    }
    if NeverLost(env, t, ops) {
      forall i: nat | i < n
        ensures !LostAt(env, t, front, i)
      {
        SameInFront(env, t, ops, i);
      }
    }
  }

  lemma WrittenAfterLossOneMore(env: Env, t: Tracked, ops: seq<Op>)
    requires ops != []
    ensures var front := ops[..|ops| - 1];
            WrittenAfterLoss(env, t, ops) <==>
              WrittenAfterLoss(env, t, front) || (!NeverLost(env, t, front) && WroteAt(env, t, ops, |ops| - 1))
  {
    hide LostAt, WroteAt;
    var front, n: nat := ops[..|ops| - 1], |ops| - 1;
    if WrittenAfterLoss(env, t, ops) {
      var i: nat, j: nat :| i < j < |ops| && LostAt(env, t, ops, i) && WroteAt(env, t, ops, j);
      SameInFront(env, t, ops, i);
      if j < n {
        SameInFront(env, t, ops, j);
      }
    }
    if WrittenAfterLoss(env, t, front) {
      var i: nat, j: nat :| i < j < n && LostAt(env, t, front, i) && WroteAt(env, t, front, j);
      SameInFront(env, t, ops, i);
      SameInFront(env, t, ops, j);
    } else if !NeverLost(env, t, front) && WroteAt(env, t, ops, n) {
      var i: nat :| i < n && LostAt(env, t, front, i);
      SameInFront(env, t, ops, i);
      assert LostAt(env, t, ops, i) && WroteAt(env, t, ops, n);
    }
  }

  /** Without a reopening: sound while no write's sync has failed, spoilt once a write has
      followed one whose sync failed. */
  lemma {:induction false} HealthOfWrites(env: Env, t: Tracked, ops: seq<Op>)
    requires forall i | 0 <= i < |ops| :: !ops[i].Reopen?
    ensures HealthAfter(env, t, ops).Sound? <==> NeverLost(env, t, ops)
    ensures HealthAfter(env, t, ops).Spoilt? <==> WrittenAfterLoss(env, t, ops)
  {
    if ops == [] {
      hide LostAt, WroteAt;
    } else {
      hide HealthAfter, LostAt, WroteAt, NeverLost, WrittenAfterLoss;
      HealthOfWrites(env, t, ops[..|ops| - 1]);
      HealthOfLast(env, t, ops);
      NeverLostOneMore(env, t, ops);
      WrittenAfterLossOneMore(env, t, ops);
      LostIsWritten(env, t, ops, |ops| - 1);
    }
  }

  lemma LostIsWritten(env: Env, t: Tracked, ops: seq<Op>, i: nat)
    requires i < |ops|
    ensures LostAt(env, t, ops, i) ==> WroteAt(env, t, ops, i)
  {
  }

  lemma HealthOfLast(env: Env, t: Tracked, ops: seq<Op>)
    requires ops != [] && !ops[|ops| - 1].Reopen?
    ensures var n: nat, h := |ops| - 1, HealthAfter(env, t, ops[..|ops| - 1]);
            HealthAfter(env, t, ops) == if !WroteAt(env, t, ops, n) then h
                                        else if !h.Sound? then Spoilt
                                        else if LostAt(env, t, ops, n) then Unsynced else Sound
  {
    hide Writes, Run;
  }

  /** For a log only the sink writes, whatever appends are accepted, refused or left unsynced and
      however often it is closed and reopened: it verifies exactly when it is open and no write
      since it was last opened failed to sync; and it can be opened exactly when no write ever
      followed, before a reopening, one that failed to sync. Without reopenings these are plain
      conditions on the writes. */
  lemma OwnWritesVerdict(env: Env, file: seq<Line>, agentID: GoString, ops: seq<Op>, nextAgentID: GoString)
    requires Open(env, file, agentID).Some?
    requires OwnWrites(env, Tracked(Open(env, file, agentID).value, Records(file)), ops)
    ensures var base := Tracked(Open(env, file, agentID).value, Records(file));
            var t, h := Run(env, base, ops), HealthAfter(env, base, ops);
            && (Verifies(env, t.sink) <==> !t.sink.closed && h.Sound?)
            && (Open(env, t.sink.file, nextAgentID).Some? <==> !h.Spoilt?)
            && ((forall i | 0 <= i < |ops| :: !ops[i].Reopen?) ==>
                  && (Verifies(env, t.sink) <==> !t.sink.closed && NeverLost(env, base, ops))
                  && (Open(env, t.sink.file, nextAgentID).Some? <==> !WrittenAfterLoss(env, base, ops)))
  {
    hide Encode, Chain, Run, HealthAfter, OwnWrites;
    var base := Tracked(Open(env, file, agentID).value, Records(file));
    ReplayMeaning(env.digest, file);
    OpenInv(env, file, agentID);
    RunHealth(env, base, ops);
    hide *;
    HealthDecides(env, Run(env, base, ops), HealthAfter(env, base, ops), nextAgentID);
    if forall i | 0 <= i < |ops| :: !ops[i].Reopen? {
      HealthOfWrites(env, base, ops);
    }
  }

  // ---------- the code ----------

  class LogFile {
    var lines: seq<Line>

    constructor (lines: seq<Line>)
      ensures this.lines == lines
    {
      this.lines := lines;
    }
  }

  class FileSink {
    const env: Env
    const f: LogFile
    const agentID: GoString
    var nextSeq: uint64
    var tailHash: GoString
    var closed: bool

    function View(): Sink
      reads this, f
    {
      Sink(f.lines, agentID, nextSeq, tailHash, closed)
    }

    constructor (env: Env, f: LogFile, agentID: GoString, nextSeq: uint64, tailHash: GoString)
      ensures this.env == env && this.f == f
      ensures View() == Sink(f.lines, agentID, nextSeq, tailHash, false)
    {
      this.env, this.f, this.agentID := env, f, agentID;
      this.nextSeq, this.tailHash, this.closed := nextSeq, tailHash, false;
    }

    method Append(e: Event, now: int64, io: IO) returns (ok: bool)
      modifies this, f
      ensures View() == AppendStep(env, old(View()), e, now, io)
      ensures ok <==> Appends(env, old(View()), e, now, io)
      ensures exists rec ::
                && Carries(rec, e, now, agentID) && rec.seqNo == old(nextSeq) && rec.prevHash == old(tailHash)
                && rec.hash == env.digest(Encode(rec))
                && (ok <==> env.accepts(e) && !old(closed) && env.marshal(rec).Some?
                            && (io.Durable? || io.OntoTornLine?))
                && (ok ==> tailHash == rec.hash
                           && nextSeq == if old(nextSeq) == TWO_64 - 1 then 0 else old(nextSeq) + 1)
                && (!ok ==> tailHash == old(tailHash) && nextSeq == old(nextSeq))
                && (ok && io.Durable? ==> f.lines == old(f.lines) + [env.marshal(rec).value])
    {
      hide Encode;
      ghost var made := Stamp(env, View(), e, now);
      HashFieldIgnored(made, made.(hash := []));
      assert Carries(made, e, now, agentID) && made.seqNo == nextSeq && made.prevHash == tailHash;
      if !env.accepts(e) {
        return false;
      }
      if closed {
        return false;
      }
      var rec := Record(nextSeq, now, agentID, e.actor, e.action, e.resource, e.detail, tailHash, []);
      var h := RecordHash(env.digest, rec);
      rec := rec.(hash := h);
      var line := env.marshal(rec);
      if line.None? {
        return false;
      }
      match io {
        case WriteFailed(after) =>
          f.lines := after;
          return false;
        case SyncFailed =>
          f.lines := f.lines + [line.value];
          return false;
        case Durable =>
          f.lines := f.lines + [line.value];
        case OntoTornLine(after) =>
          f.lines := after;
      }
      tailHash := rec.hash;
      nextSeq := Next(nextSeq);
      ok := true;
    }

    /** The sync before the walk fails on a closed file. */
    method Verify(synced: bool) returns (ok: bool)
      ensures ok <==> synced && Verifies(env, View())
    {
      if closed || !synced {
        return false;
      }
      var onDisk := Replay(env.digest, f.lines);
      ok := onDisk.Replayed? && onDisk.nextSeq == nextSeq && onDisk.tail == tailHash;
    }

    method Close()
      modifies this
      ensures View() == old(View()).(closed := true)
    {
      if !closed {
        closed := true;
      }
    }
  }

  /** A corrupt chain yields no sink; otherwise appends continue the recovered chain. */
  method NewFileSink(env: Env, f: LogFile, agentID: GoString) returns (s: FileSink?)
    ensures s == null <==> Open(env, f.lines, agentID).None?
    ensures s != null ==> fresh(s) && s.env == env && s.f == f && s.View() == Open(env, f.lines, agentID).value
  {
    s := null;
    var r := Replay(env.digest, f.lines);
    if r.Replayed? {
      s := new FileSink(env, f, agentID, r.nextSeq, r.tail);
    }
  }
}
