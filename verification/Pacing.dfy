/** How fast one endpoint is written to, over any sequence of SendBytes calls on it. */
module Pacing {
  import opened Basics
  import opened Keys
  import opened Ops
  import opened Transport
  import opened Tasks

  /** Clock readings (in ms) at which the operations start: never backwards, and a sleep lasts at least its length. */
  ghost predicate Clocked(ops: seq<Op>, times: seq<int>) {
    && |times| == |ops|
    && (forall i :: 0 <= i < |ops| - 1 ==> times[i + 1] >= times[i] + if ops[i].Wait? then ops[i].ms else 0)
  }

  /** Bytes handed to the network by writes that start within [from, to]. */
  function BytesWithin(ops: seq<Op>, times: seq<int>, from: int, to: int): nat
    requires |times| == |ops|
  {
    if ops == [] then 0
    else (if IsWrite(ops[0]) && from <= times[0] <= to then |ops[0].bytes| else 0) + BytesWithin(ops[1..], times[1..], from, to)
  }

  function Breaks(ops: seq<Op>): nat {
    if ops == [] then 0 else (if ops[0].Break? then 1 else 0) + Breaks(ops[1..])
  }

  // ----- the pacing discipline: after a write, CHUNK_DELAY ms are owed before the next one -----

  /** What is still owed after the operation; a failed write owes nothing. */
  function OwedAfter(op: Op, owed: nat): nat {
    match op
    case Wait(ms) => if owed <= ms then 0 else owed - ms
    case Transmit(_, _) => CHUNK_DELAY
    case Break(_, _) => 0
    case _ => owed
  }

  predicate Paced(ops: seq<Op>, owed: nat) {
    ops != [] ==>
      && (IsWrite(ops[0]) ==> owed == 0 && |ops[0].bytes| <= CHUNK_SIZE)
      && Paced(ops[1..], OwedAfter(ops[0], owed))
  }

  function OwedAtEnd(ops: seq<Op>, owed: nat): nat {
    if ops == [] then owed else OwedAtEnd(ops[1..], OwedAfter(ops[0], owed))
  }

  lemma {:induction false} PacedConcat(a: seq<Op>, b: seq<Op>, owed: nat)
    ensures Paced(a + b, owed) <==> Paced(a, owed) && Paced(b, OwedAtEnd(a, owed))
    ensures OwedAtEnd(a + b, owed) == OwedAtEnd(b, OwedAtEnd(a, owed))
  {
    if a == [] {
      assert a + b == b;
    } else {
      assert (a + b)[1..] == a[1..] + b;
      PacedConcat(a[1..], b, OwedAfter(a[0], owed));
    }
  }

  lemma {:induction false} ChunksPaced(key: string, data: seq<Byte>, failing: Option<Failure>)
    ensures Paced(ChunkOps(key, data, failing), 0)
    ensures OwedAtEnd(ChunkOps(key, data, failing), 0) <= if AllWritten(data, failing) then CHUNK_DELAY else 0
    decreases |data|
  {
    var ops := ChunkOps(key, data, failing);
    if data == [] {
    } else if FailsNow(failing) || |data| <= CHUNK_SIZE {
      assert ops[1..] == [];
    } else {
      ChunksPaced(key, data[CHUNK_SIZE..], Later(failing));
      assert ops[1..][1..] == ChunkOps(key, data[CHUNK_SIZE..], Later(failing));
      assert ops[1] == Wait(CHUNK_DELAY) && ops[1..][0] == ops[1];
      assert OwedAfter(ops[1], OwedAfter(ops[0], 0)) == 0;
    }
  }

  lemma {:induction false} IdlePaced(ops: seq<Op>, owed: nat)
    requires forall i :: 0 <= i < |ops| ==> !IsWrite(ops[i]) && !ops[i].Wait?
    ensures Paced(ops, owed) && OwedAtEnd(ops, owed) == owed
  {
    if ops != [] {
      assert !IsWrite(ops[0]) && !ops[0].Wait?;
      IdlePaced(ops[1..], owed);
    }
  }

  /** The end of a call settles what the last chunk owes. */
  lemma TailPaced(m: Mutex, ok: bool, owed: nat)
    requires owed <= if ok then CHUNK_DELAY else 0
    ensures var tail := (if ok then [Wait(INTER_JOB_DELAY)] else []) + [Unlock(m)]; Paced(tail, owed) && OwedAtEnd(tail, owed) == 0
  {
    var last := [Unlock(m)];
    assert last[1..] == [];
    if ok {
      var tail := [Wait(INTER_JOB_DELAY)] + last;
      assert tail[1..] == last && tail[0] == Wait(INTER_JOB_DELAY);
    } else {
      assert [] + last == last;
    }
  }

  lemma SendPaced(e: Endpoint, data: seq<Byte>, net: Net)
    ensures Paced(SendOps(e, data, net), 0) && OwedAtEnd(SendOps(e, data, net), 0) == 0
  {
    hide ChunkOps, EndpointKey, AllWritten;
    if ValidEndpoint(e) {
      var key := EndpointKey(e);
      var front := [Lock(EndpointLock(key)), Dial(key, Reaches(net))];
      var chunks := if Reaches(net) then ChunkOps(key, data, net.failing) else [];
      var tail := (if SendOk(e, data, net) then [Wait(INTER_JOB_DELAY)] else []) + [Unlock(EndpointLock(key))];
      assert SendOps(e, data, net) == front + (chunks + tail);
      IdlePaced(front, 0);
      assert !Reaches(net) ==> Paced(chunks, 0) && OwedAtEnd(chunks, 0) == 0;
      hide Paced, OwedAtEnd;
      ChunksPaced(key, data, net.failing);
      PacedConcat(front, chunks + tail, 0);
      PacedConcat(chunks, tail, 0);
      TailPaced(EndpointLock(key), SendOk(e, data, net), OwedAtEnd(chunks, 0));
    }
  }

  lemma {:induction false} SendsPaced(key: string, sends: seq<Task>)
    requires forall i :: 0 <= i < |sends| ==> SendsTo(sends[i], key)
    ensures Paced(OpsOf(sends), 0) && OwedAtEnd(OpsOf(sends), 0) == 0
  {
    hide SendOps, EndpointKey, Paced, OwedAtEnd;
    if sends == [] {
      IdlePaced([], 0);
    } else {
      assert SendsTo(sends[0], key);
      SendPaced(sends[0].e, sends[0].payload.bytes, sends[0].net);
      SendsPaced(key, sends[1..]);
      PacedConcat(TaskOps(sends[0]), OpsOf(sends[1..]), 0);
    }
  }

  function Max(a: int, b: int): int { if a < b then b else a }

  /** Number of writes a window can hold when the first is due at `due`. */
  function Slots(due: int, to: int): nat {
    if due > to then 0 else (to - due) / CHUNK_DELAY + 1
  }

  lemma {:induction false} WindowBound(ops: seq<Op>, times: seq<int>, owed: nat, now: int, from: int, to: int)
    requires Clocked(ops, times) && Paced(ops, owed)
    requires ops != [] ==> times[0] >= now
    ensures BytesWithin(ops, times, from, to) <= CHUNK_SIZE * (Slots(Max(from, now + owed), to) + Breaks(ops))
    decreases |ops|
  {
    if ops != [] {
      var op, t := ops[0], times[0];
      var t' := if op.Wait? then t + op.ms else t;
      var due, due' := Max(from, now + owed), Max(from, t' + OwedAfter(op, owed));
      WindowBound(ops[1..], times[1..], OwedAfter(op, owed), t', from, to);
      if op.Transmit? && from <= t <= to {
        assert due' >= due + CHUNK_DELAY;
        assert Slots(due', to) + 1 <= Slots(due, to);
      } else {
        assert due' >= due;
        assert Slots(due', to) <= Slots(due, to);
      }
    }
  }

  predicate AllSucceed(sends: seq<Task>) {
    forall i :: 0 <= i < |sends| ==> sends[i].Send? && SendOk(sends[i].e, sends[i].payload.bytes, sends[i].net)
  }

  /**
   * In any window of T ms an endpoint is handed at most 512 * (T / 50 + 1) bytes, plus one chunk for each write
   * that errored; with successful sends only, the last term is zero. `log` is any part done so far of the sends.
   */
  lemma PacingBound(key: string, sends: seq<Task>, log: seq<Op>, times: seq<int>, from: int, T: nat)
    requires forall i :: 0 <= i < |sends| ==> SendsTo(sends[i], key)
    requires log <= OpsOf(sends) && Clocked(log, times)
    ensures BytesWithin(log, times, from, from + T) <= 512 * (T / 50 + 1 + Breaks(log))
    ensures AllSucceed(sends) ==> BytesWithin(log, times, from, from + T) <= 512 * (T / 50 + 1)
  {
    hide OpsOf, TaskOps, Paced;
    SendsPaced(key, sends);
    var rest := OpsOf(sends)[|log|..];
    assert OpsOf(sends) == log + rest;
    PacedConcat(log, rest, 0);
    WindowBound(log, times, 0, if log == [] then from else times[0], from, from + T);
    if AllSucceed(sends) {
      NoBreaks(sends);
      BreaksConcat(log, rest);
    }
  }

  lemma {:induction false} BreaksConcat(a: seq<Op>, b: seq<Op>)
    ensures Breaks(a + b) == Breaks(a) + Breaks(b)
  {
    if a == [] {
      assert a + b == b;
    } else {
      assert (a + b)[1..] == a[1..] + b;
      BreaksConcat(a[1..], b);
    }
  }

  lemma {:induction false} ChunksUnbroken(key: string, data: seq<Byte>, failing: Option<Failure>)
    requires AllWritten(data, failing)
    ensures Breaks(ChunkOps(key, data, failing)) == 0
    decreases |data|
  {
    if data != [] {
      var ops := ChunkOps(key, data, failing);
      if |data| <= CHUNK_SIZE {
        assert ops[1..] == [];
      } else {
        ChunksUnbroken(key, data[CHUNK_SIZE..], Later(failing));
        assert ops[1..][1..] == ChunkOps(key, data[CHUNK_SIZE..], Later(failing));
      }
    }
  }

  lemma SendUnbroken(e: Endpoint, data: seq<Byte>, net: Net)
    requires SendOk(e, data, net)
    ensures Breaks(SendOps(e, data, net)) == 0
  {
    hide ChunkOps, EndpointKey, AllWritten;
    var key := EndpointKey(e);
    var front := [Lock(EndpointLock(key)), Dial(key, Reaches(net))];
    var tail := [Wait(INTER_JOB_DELAY), Unlock(EndpointLock(key))];
    var chunks := ChunkOps(key, data, net.failing);
    assert SendOps(e, data, net) == front + (chunks + tail);
    BreaksConcat(front, chunks + tail);
    BreaksConcat(chunks, tail);
    assert front[1..][1..] == [] && tail[1..][1..] == [];
    ChunksUnbroken(key, data, net.failing);
  }

  lemma {:induction false} NoBreaks(sends: seq<Task>)
    requires AllSucceed(sends)
    ensures Breaks(OpsOf(sends)) == 0
  {
    hide SendOps, SendOk;
    if sends != [] {
      assert sends[0].Send?;
      SendUnbroken(sends[0].e, sends[0].payload.bytes, sends[0].net);
      NoBreaks(sends[1..]);
      BreaksConcat(TaskOps(sends[0]), OpsOf(sends[1..]));
    }
  }

  // ----- exactly when the bound holds without the extra term -----

  /** A bucket that each write fills with its bytes and each 50 ms slept drains by a chunk. */
  function LevelAfter(level: int, op: Op): int {
    if IsWrite(op) then level + |op.bytes|
    else if op.Wait? then Max(0, level - 512 * (op.ms / 50))
    else level
  }

  /** It never holds more than a chunk. */
  predicate Bucket(ops: seq<Op>, level: int) {
    ops != [] ==> LevelAfter(level, ops[0]) <= 512 && Bucket(ops[1..], LevelAfter(level, ops[0]))
  }

  /** At most a chunk per started 50 ms in every window, on every clock. */
  ghost predicate WithinPace(ops: seq<Op>) {
    forall times: seq<int>, from: int, upto: int :: Clocked(ops, times) && from <= upto ==>
      BytesWithin(ops, times, from, upto) <= 512 * ((upto - from) / 50 + 1)
  }

  /** The sleeps are whole multiples of the chunk delay. */
  predicate Ticks(ops: seq<Op>) {
    forall i :: 0 <= i < |ops| && ops[i].Wait? ==> ops[i].ms % CHUNK_DELAY == 0
  }

  /** A window that opens at `now`, with what is in the bucket counted against it. */
  lemma {:induction false} BucketFrom(ops: seq<Op>, times: seq<int>, level: int, now: int, from: int, upto: int)
    requires Clocked(ops, times) && Bucket(ops, level) && 0 <= level <= CHUNK_SIZE
    requires ops != [] ==> times[0] >= now
    requires now <= upto
    ensures BytesWithin(ops, times, from, upto) <= CHUNK_SIZE * ((upto - now) / CHUNK_DELAY + 1) - level
    decreases |ops|
  {
    if ops != [] {
      var op, t, level' := ops[0], times[0], LevelAfter(level, ops[0]);
      var t' := if op.Wait? then t + op.ms else t;
      if t' <= upto {
        BucketFrom(ops[1..], times[1..], level', t', from, upto);
        if op.Wait? {
          Drains(upto - now, upto - t', op.ms, level);
        }
      } else {
        LaterNothing(ops[1..], times[1..], t', from, upto);
      }
    }
  }

  /** Time that passes makes room. */
  lemma Drains(left: nat, left': nat, ms: nat, level: int)
    requires left' + ms <= left && 0 <= level <= CHUNK_SIZE
    ensures CHUNK_SIZE * (left' / CHUNK_DELAY + 1) - Max(0, level - CHUNK_SIZE * (ms / CHUNK_DELAY))
         <= CHUNK_SIZE * (left / CHUNK_DELAY + 1) - level
  {
    assert left' / CHUNK_DELAY + ms / CHUNK_DELAY <= left / CHUNK_DELAY;
  }

  lemma {:induction false} LaterNothing(ops: seq<Op>, times: seq<int>, now: int, from: int, upto: int)
    requires Clocked(ops, times) && now > upto && (ops != [] ==> times[0] >= now)
    ensures BytesWithin(ops, times, from, upto) == 0
    decreases |ops|
  {
    if ops != [] {
      LaterNothing(ops[1..], times[1..], times[0], from, upto);
    }
  }

  lemma {:induction false} BucketBounds(ops: seq<Op>, times: seq<int>, level: int, from: int, upto: int)
    requires Clocked(ops, times) && Bucket(ops, level) && 0 <= level <= CHUNK_SIZE && from <= upto
    ensures BytesWithin(ops, times, from, upto) <= CHUNK_SIZE * ((upto - from) / CHUNK_DELAY + 1)
    decreases |ops|
  {
    if ops != [] {
      if times[0] >= from {
        BucketFrom(ops, times, level, from, from, upto);
      } else {
        BucketBounds(ops[1..], times[1..], LevelAfter(level, ops[0]), from, upto);
      }
    }
  }

  /** The fastest clock: no time passes but what is slept. */
  function Tight(ops: seq<Op>, now: int): seq<int> {
    if ops == [] then [] else [now] + Tight(ops[1..], if ops[0].Wait? then now + ops[0].ms else now)
  }

  lemma {:induction false} TightClock(ops: seq<Op>, now: int)
    ensures Clocked(ops, Tight(ops, now)) && (ops != [] ==> Tight(ops, now)[0] == now)
  {
    if ops != [] {
      var later := if ops[0].Wait? then now + ops[0].ms else now;
      TightClock(ops[1..], later);
      var times := Tight(ops, now);
      forall i | 0 <= i < |ops| - 1
        ensures times[i + 1] >= times[i] + if ops[i].Wait? then ops[i].ms else 0
      {
        assert times[i + 1] == Tight(ops[1..], later)[i];
        if i > 0 {
          assert times[i] == Tight(ops[1..], later)[i - 1] && ops[i] == ops[1..][i - 1];
        }
      }
    }
  }

  /** The window has room for this much. */
  function Room(from: int, upto: int): int { CHUNK_SIZE * ((upto - from) / CHUNK_DELAY + 1) }

  /**
   * On the fastest clock a bucket that overflows names a window with too much in it: one that opened at `since`, when
   * the bucket was last empty and `seen` bytes ago, or one that opens later.
   */
  lemma {:induction false} Overflows(ops: seq<Op>, level: int, now: int, since: int, seen: int)
    returns (from: int, upto: int)
    requires !Bucket(ops, level) && 0 <= level <= CHUNK_SIZE && Ticks(ops)
    requires since <= now && (now - since) % CHUNK_DELAY == 0
    requires seen == level + CHUNK_SIZE * ((now - since) / CHUNK_DELAY)
    ensures from <= upto && now <= upto && |Tight(ops, now)| == |ops|
    ensures var got := BytesWithin(ops, Tight(ops, now), from, upto);
      (from == since && got + seen > Room(from, upto)) || got > Room(from, upto)
    decreases |ops|
  {
    TightClock(ops, now);
    var op, level' := ops[0], LevelAfter(level, ops[0]);
    var now' := if op.Wait? then now + op.ms else now;
    var rest, later := ops[1..], Tight(ops[1..], now');
    TightClock(rest, now');
    assert Tight(ops, now)[1..] == later;
    if level' > CHUNK_SIZE {
      from, upto := since, now;
    } else if op.Wait? {
      assert op.ms % CHUNK_DELAY == 0;
      if level - CHUNK_SIZE * (op.ms / CHUNK_DELAY) < 0 {
        from, upto := Overflows(rest, 0, now', now', 0);
      } else {
        Slept(now - since, op.ms);
        from, upto := Overflows(rest, level', now', since, seen);
      }
    } else {
      from, upto := Overflows(rest, level', now', since, seen + level' - level);
    }
  }

  lemma Slept(passed: nat, ms: nat)
    requires passed % CHUNK_DELAY == 0 && ms % CHUNK_DELAY == 0
    ensures (passed + ms) % CHUNK_DELAY == 0
    ensures (passed + ms) / CHUNK_DELAY == passed / CHUNK_DELAY + ms / CHUNK_DELAY
  {
  }

  /** The bound holds on every clock if and only if the bucket never overflows. */
  lemma PaceExactly(ops: seq<Op>)
    requires Ticks(ops)
    ensures WithinPace(ops) <==> Bucket(ops, 0)
  {
    if Bucket(ops, 0) {
      forall times: seq<int>, from: int, upto: int | Clocked(ops, times) && from <= upto
        ensures BytesWithin(ops, times, from, upto) <= CHUNK_SIZE * ((upto - from) / CHUNK_DELAY + 1)
      {
        BucketBounds(ops, times, 0, from, upto);
      }
    } else {
      var from, upto := Overflows(ops, 0, 0, 0, 0);
      TightClock(ops, 0);
      assert BytesWithin(ops, Tight(ops, 0), from, upto) > Room(from, upto);
    }
  }

  lemma {:induction false} ChunksTick(key: string, data: seq<Byte>, failing: Option<Failure>)
    ensures Ticks(ChunkOps(key, data, failing))
    decreases |data|
  {
    if data != [] && !FailsNow(failing) && |data| > CHUNK_SIZE {
      ChunksTick(key, data[CHUNK_SIZE..], Later(failing));
    }
  }

  lemma {:induction false} SendsTick(key: string, sends: seq<Task>)
    requires forall i :: 0 <= i < |sends| ==> SendsTo(sends[i], key)
    ensures Ticks(OpsOf(sends))
  {
    hide ChunkOps, EndpointKey;
    if sends != [] {
      assert SendsTo(sends[0], key);
      if ValidEndpoint(sends[0].e) && Reaches(sends[0].net) {
        ChunksTick(EndpointKey(sends[0].e), sends[0].payload.bytes, sends[0].net.failing);
      }
      SendsTick(key, sends[1..]);
    }
  }

  /** For any part of any sends to one endpoint, whatever fails. */
  lemma SendsPacedExactly(key: string, sends: seq<Task>, log: seq<Op>)
    requires forall i :: 0 <= i < |sends| ==> SendsTo(sends[i], key)
    requires log <= OpsOf(sends)
    ensures WithinPace(log) <==> Bucket(log, 0)
    ensures AllSucceed(sends) ==> Bucket(log, 0)
  {
    hide WithinPace, Bucket, OpsOf, EndpointKey;
    SendsTick(key, sends);
    PaceExactly(log);
    if AllSucceed(sends) {
      SuccessPaced(key, sends, log);
    }
  }

  lemma SuccessPaced(key: string, sends: seq<Task>, log: seq<Op>)
    requires forall i :: 0 <= i < |sends| ==> SendsTo(sends[i], key)
    requires log <= OpsOf(sends) && AllSucceed(sends)
    ensures WithinPace(log)
  {
    hide Clocked, BytesWithin, AllSucceed, OpsOf;
    forall times: seq<int>, from: int, upto: int | Clocked(log, times) && from <= upto
      ensures |times| == |log|
      ensures BytesWithin(log, times, from, upto) <= CHUNK_SIZE * ((upto - from) / CHUNK_DELAY + 1)
    {
      ClockLength(log, times);
      PacingBound(key, sends, log, times, from, upto - from);
    }
  }

  lemma ClockLength(ops: seq<Op>, times: seq<int>)
    requires Clocked(ops, times)
    ensures |times| == |ops|
  {
  }

  /** Two sends whose first writes error after a and b bytes break the bound exactly when a + b exceeds a chunk. */
  lemma BrokenSendsOverrun(e: Endpoint, chunk: seq<Byte>, a: nat, b: nat)
    requires ValidEndpoint(e) && |chunk| == 512 && a < 512 && b < 512
    ensures var sends := [BrokenSend(e, chunk, a), BrokenSend(e, chunk, b)];
      WithinPace(OpsOf(sends)) <==> a + b <= 512
  {
    hide EndpointKey;
    var key := EndpointKey(e);
    var sends := [BrokenSend(e, chunk, a), BrokenSend(e, chunk, b)];
    assert forall i :: 0 <= i < |sends| ==> SendsTo(sends[i], key);
    var first, second := BrokenOps(key, chunk[..a]), BrokenOps(key, chunk[..b]);
    assert TaskOps(sends[0]) == first && TaskOps(sends[1]) == second;
    assert sends[1..] == [sends[1]] && [sends[1]][1..] == [];
    OpsOfOne(sends[1]);
    assert OpsOf(sends) == first + second;
    SendsPacedExactly(key, sends, first + second);
    BrokenLevel(key, chunk[..b], [], a);
    BrokenLevel(key, chunk[..a], second, 0);
    assert second + [] == second;
  }

  function BrokenSend(e: Endpoint, chunk: seq<Byte>, accepted: nat): Task {
    Send(e, Raw(chunk), Net(false, true, Some(Failure(0, accepted))))
  }

  function BrokenOps(key: string, got: seq<Byte>): seq<Op> {
    [Lock(EndpointLock(key)), Dial(key, true), Break(key, got), Unlock(EndpointLock(key))]
  }

  lemma BrokenLevel(key: string, got: seq<Byte>, rest: seq<Op>, level: nat)
    requires level <= CHUNK_SIZE
    ensures Bucket(BrokenOps(key, got) + rest, level) <==> level + |got| <= CHUNK_SIZE && Bucket(rest, level + |got|)
  {
    var ops := BrokenOps(key, got) + rest;
    assert ops[1..][1..][1..][1..] == rest;
    assert Bucket(ops[1..][1..][1..], level + |got|) <==> level + |got| <= CHUNK_SIZE && Bucket(rest, level + |got|);
    assert Bucket(ops[1..][1..], level) <==> level + |got| <= CHUNK_SIZE && Bucket(rest, level + |got|);
    assert Bucket(ops[1..], level) == Bucket(ops[1..][1..], level);
  }
}
