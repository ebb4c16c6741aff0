/** What the interleaved goroutines do to the printers, and what the spooler's own transcript is in any interleaving. */
module SharedPrinters {
  import opened Basics
  import opened Keys
  import opened Ops
  import opened Transport
  import opened Tasks
  import opened Spooling
  import opened Interleaving
  import AckOrder
  import FlashSettle
  import Pacing

  /** What a send got through to its printer. */
  function Got(t: Task): seq<Byte> {
    if t.Send? then Contribution(t.e, t.payload.bytes, t.net) else []
  }

  /** The same for each send, in the order the sends were served. */
  function Contributions(sends: seq<Task>): seq<seq<Byte>> {
    if sends == [] then [] else [Got(sends[0])] + Contributions(sends[1..])
  }

  /** A prefix of the payload, and all of it when SendBytes returns nil. */
  predicate GetsThrough(t: Task, got: seq<Byte>) {
    t.Send? && got <= t.payload.bytes && (SendOk(t.e, t.payload.bytes, t.net) ==> got == t.payload.bytes)
  }

  lemma {:induction false} SendsDeliver(key: string, sends: seq<Task>)
    requires forall i :: 0 <= i < |sends| ==> ServedAt(sends[i], key)
    ensures forall i :: 0 <= i < |sends| ==> GetsThrough(sends[i], Got(sends[i]))
    ensures Delivered(key, OpsOf(sends)) == Concat(Contributions(sends))
  {
    hide SendOps, SendOk, EndpointKey, Delivered;
    if sends == [] {
      QuietDelivers(key, []);
    } else {
      var first, rest := sends[0], sends[1..];
      assert ServedAt(first, key);
      SendDelivers(first.e, first.payload.bytes, first.net);
      SendsDeliver(key, rest);
      DeliveredConcat(key, TaskOps(first), OpsOf(rest));
      assert Contributions(sends)[1..] == Contributions(rest);
    }
  }

  /** The state at one endpoint: whole sends, and what the one that holds the lock has got through so far. */
  ghost predicate Serial(s: System, key: string, whole: seq<Task>, partial: seq<Byte>) {
    var served := At(s.served, key);
    && (forall i :: 0 <= i < |whole| ==> ServedAt(whole[i], key) && GetsThrough(whole[i], Got(whole[i])))
    && At(s.wire, key) == Concat(Contributions(whole)) + partial
    && if EndpointLock(key) !in s.owner then whole == served && partial == []
       else served != [] && whole == served[..|served| - 1] && ServedAt(served[|served| - 1], key)
            && partial <= served[|served| - 1].payload.bytes
  }

  /**
   * In every reachable state the bytes a printer has received are the contributions of whole sends, one after the
   * other in the order they took its lock, plus a prefix of the payload of the send that holds it. A send contributes
   * a prefix of its payload, and all of it when it succeeds; contributions are never interleaved.
   */
  lemma SendsAreAtomic(s: System, key: string) returns (whole: seq<Task>, partial: seq<Byte>)
    requires Inv(s)
    ensures Serial(s, key, whole, partial)
  {
    hide TaskOps, OpsOf, SpoolerOk, Delivered, ServedAt, Contributions, GetsThrough, Got;
    assert EndpointOk(s, key);
    var served, log, rest := At(s.served, key), At(s.logs, key), Remaining(s, key);
    if EndpointLock(key) !in s.owner {
      whole, partial := served, [];
      assert log + [] == log;
    } else {
      assert rest != [] by { assert Holding(s.procs[s.owner[EndpointLock(key)]]) == Some(EndpointLock(key)); }
      var t := served[|served| - 1];
      whole := served[..|served| - 1];
      var ops := TaskOps(t);
      var done := ops[..|ops| - |rest|];
      assert served == whole + [t];
      OpsOfSnoc(whole, t);
      CutTail(log, rest, OpsOf(whole), ops);
      partial := Delivered(key, done);
      DeliveredConcat(key, OpsOf(whole), done);
      PrefixDelivers(key, t, done);
    }
    SendsDeliver(key, whole);
  }

  /** Without a tail of the same length, equal sequences are equal. */
  lemma CutTail(log: seq<Op>, rest: seq<Op>, front: seq<Op>, ops: seq<Op>)
    requires log + rest == front + ops && |rest| <= |ops|
    ensures log == front + ops[..|ops| - |rest|]
  {
    assert (log + rest)[..|log|] == (front + ops)[..|log|];
  }

  lemma PrefixDelivers(key: string, t: Task, done: seq<Op>)
    requires ServedAt(t, key) && done <= TaskOps(t)
    ensures t.Send? && Delivered(key, done) <= t.payload.bytes
  {
    hide SendOps, Delivered, EndpointKey;
    var rest := TaskOps(t)[|done|..];
    assert TaskOps(t) == done + rest;
    DeliveredConcat(key, done, rest);
    SendDelivers(t.e, t.payload.bytes, t.net);
  }

  /** Two goroutines never hold the same mutex. */
  lemma MutualExclusion(s: System, p: nat, q: nat)
    requires Inv(s) && p < |s.procs| && q < |s.procs|
    requires Holding(s.procs[p]).Some? && Holding(s.procs[p]) == Holding(s.procs[q])
    ensures p == q
  {
    hide TaskOps, OpsOf, Holding;
  }

  /** This process owns the mutex that guards what the operation works on: its printer, the websocket, the cache, the list. */
  predicate OwnsGuard(s: System, p: nat, op: Op) {
    && (IsWrite(op) || op.Dial? ==> EndpointLock(op.key) in s.owner && s.owner[EndpointLock(op.key)] == p)
    && (op.Report? || op.SocketWrite? ==> SocketLock in s.owner && s.owner[SocketLock] == p)
    && (op.ReadCache? || op.Commit? ==> LogoLock in s.owner && s.owner[LogoLock] == p)
    && (op.CopyPrinters? ==> PrintersLock in s.owner && s.owner[PrintersLock] == p)
  }

  /** Nothing shared is touched without its mutex, in any interleaving. */
  lemma NoRaces(s: System, p: nat)
    requires Inv(s) && p < |s.procs| && s.procs[p].cur != []
    ensures OwnsGuard(s, p, s.procs[p].cur[0])
  {
    hide TaskOps, OpsOf, SpoolerOk, EndpointOk;
    var proc := s.procs[p];
    assert ProcOk(proc);
    var t := Last(proc);
    GuardTaken(t, |TaskOps(t)| - |proc.cur|);
  }

  /** An operation that needs a mutex comes after the first one of a task that takes that mutex. */
  lemma GuardTaken(t: Task, i: nat)
    requires i < |TaskOps(t)|
    ensures var op := TaskOps(t)[i];
      && (IsWrite(op) || op.Dial? ==> i > 0 && TaskMutex(t) == Some(EndpointLock(op.key)))
      && (op.Report? || op.SocketWrite? ==> i > 0 && TaskMutex(t) == Some(SocketLock))
      && (op.ReadCache? || op.Commit? ==> i > 0 && TaskMutex(t) == Some(LogoLock))
      && (op.CopyPrinters? ==> i > 0 && TaskMutex(t) == Some(PrintersLock))
  {
    if t.Send? && ValidEndpoint(t.e) {
      ChunksTouch(EndpointKey(t.e), t.payload.bytes, t.net.failing);
    }
  }

  lemma {:induction false} ChunksTouch(key: string, data: seq<Byte>, failing: Option<Failure>)
    ensures forall i :: 0 <= i < |ChunkOps(key, data, failing)| ==>
      var op := ChunkOps(key, data, failing)[i]; (IsWrite(op) && op.key == key) || op.Wait?
    decreases |data|
  {
    if data != [] && !FailsNow(failing) && |data| > CHUNK_SIZE {
      ChunksTouch(key, data[CHUNK_SIZE..], Later(failing));
    }
  }

  // ----- pacing, whoever sends -----

  lemma LogOfSends(s: System, key: string)
    requires Inv(s)
    ensures At(s.logs, key) <= OpsOf(At(s.served, key))
    ensures forall i :: 0 <= i < |At(s.served, key)| ==> SendsTo(At(s.served, key)[i], key)
  {
    hide TaskOps, OpsOf, SpoolerOk, OwnersOk, ProcOk;
    assert EndpointOk(s, key);
    var log, served := At(s.logs, key), At(s.served, key);
    assert log <= OpsOf(served) by { assert OpsOf(served)[..|log|] == log; }
    assert forall i :: 0 <= i < |served| ==> ServedAt(served[i], key);
  }

  /**
   * For everything any goroutines have sent to one endpoint, at every moment: the bound of Pacing.PacingBound, without
   * its last term when all the sends served there succeed.
   */
  lemma EndpointPacing(s: System, key: string, times: seq<int>, from: int, T: nat)
    requires Inv(s) && Pacing.Clocked(At(s.logs, key), times)
    ensures var log := At(s.logs, key);
      && Pacing.BytesWithin(log, times, from, from + T) <= 512 * (T / 50 + 1 + Pacing.Breaks(log))
      && (Pacing.AllSucceed(At(s.served, key)) ==>
            Pacing.BytesWithin(log, times, from, from + T) <= 512 * (T / 50 + 1))
  {
    hide Inv, OpsOf, Pacing.AllSucceed;
    LogOfSends(s, key);
    Pacing.PacingBound(key, At(s.served, key), At(s.logs, key), times, from, T);
  }

  /** And exactly when that term is not needed. */
  lemma PacedExactly(s: System, key: string)
    requires Inv(s)
    ensures Pacing.WithinPace(At(s.logs, key)) <==> Pacing.Bucket(At(s.logs, key), 0)
    ensures Pacing.AllSucceed(At(s.served, key)) ==> Pacing.Bucket(At(s.logs, key), 0)
  {
    hide Inv, OpsOf, Pacing.WithinPace, Pacing.Bucket, Pacing.AllSucceed;
    LogOfSends(s, key);
    Pacing.SendsPacedExactly(key, At(s.served, key), At(s.logs, key));
  }

  // ----- the spooler among the others -----

  /** Whatever the others do, the spooler's operations so far begin those of a sequential run over the jobs it took. */
  lemma SpoolerTranscript(s: System)
    requires Inv(s)
    ensures s.procs[0].past <= OpsOf(RunTasks(map[], s.taken))
    ensures s.taken <= s.submitted
    ensures s.taken + s.queue == s.submitted && |s.queue| <= s.cap
  {
    hide TaskOps, OpsOf, RunTasks, OwnersOk, EndpointOk;
    var proc := s.procs[0];
    assert ProcOk(proc);
    OpsOfConcat(proc.begun, proc.todo);
    assert OpsOf(RunTasks(map[], s.taken)) == proc.past + (proc.cur + OpsOf(proc.todo));
  }

  /** So the acks sent so far begin the ones the jobs are due, in channel order. */
  lemma AcksInOrder(s: System)
    requires Inv(s)
    ensures AckOrder.Acks(s.procs[0].past) <= AckOrder.ExpectedAcks(map[], s.taken)
  {
    hide AckOrder.Acks, OpsOf, RunTasks, OwnersOk, EndpointOk, ProcOk;
    SpoolerTranscript(s);
    var past, all := s.procs[0].past, OpsOf(RunTasks(map[], s.taken));
    assert all == past + all[|past|..];
    AckOrder.AcksConcat(past, all[|past|..]);
    AckOrder.RunAcks(map[], s.taken);
  }

  /** And the flash wait is kept. */
  lemma SettlesAmongOthers(s: System)
    requires Inv(s) && FlashSettle.ContextEndsOnce(false, s.taken)
    ensures FlashSettle.Settles(FlashSettle.Quiet(0, false), s.procs[0].past)
  {
    hide OpsOf, RunTasks, FlashSettle.Settles, OwnersOk, EndpointOk, ProcOk;
    SpoolerTranscript(s);
    var past, all := s.procs[0].past, OpsOf(RunTasks(map[], s.taken));
    assert all == past + all[|past|..];
    FlashSettle.RunSettles(map[], s.taken);
    FlashSettle.SettlesConcat(FlashSettle.Quiet(0, false), past, all[|past|..]);
  }
}
