/** internal/printer/tcp.go: chunked, paced, per-endpoint serialised sending. */
module Transport {
  import opened Basics
  import opened Keys
  import opened Ops

  const CHUNK_SIZE := 512
  const CHUNK_DELAY := 50
  const INTER_JOB_DELAY := 400

  predicate ValidEndpoint(e: Endpoint) {
    e.addr != "" && 1 <= e.port <= 65535
  }

  function Min(a: int, b: int): int { if a < b then a else b }

  /** The failure as seen one chunk later. */
  function Later(failing: Option<Failure>): Option<Failure> {
    if failing.Some? && failing.value.chunk > 0 then Some(failing.value.(chunk := failing.value.chunk - 1)) else failing
  }

  predicate FailsNow(failing: Option<Failure>) {
    failing.Some? && failing.value.chunk == 0
  }

  /** What goes over an open connection. */
  function ChunkOps(key: string, data: seq<Byte>, failing: Option<Failure>): seq<Op>
    decreases |data|
  {
    if data == [] then []
    else
      var n := Min(CHUNK_SIZE, |data|);
      if FailsNow(failing) then [Break(key, data[..Min(failing.value.accepted, n - 1)])]
      else if n == |data| then [Transmit(key, data)]
      else [Transmit(key, data[..n]), Wait(CHUNK_DELAY)] + ChunkOps(key, data[n..], Later(failing))
  }

  lemma OneChunk(key: string, data: seq<Byte>, failing: Option<Failure>)
    ensures var ops, n := ChunkOps(key, data, failing), Min(CHUNK_SIZE, |data|);
      if data == [] then ops == []
      else if FailsNow(failing) then ops == [Break(key, data[..Min(failing.value.accepted, n - 1)])]
      else if n == |data| then ops == [Transmit(key, data)]
      else ops == [Transmit(key, data[..n]), Wait(CHUNK_DELAY)] + ChunkOps(key, data[n..], Later(failing))
  {
  }

  /** The failing chunk, if any, lies past the end of the payload. */
  predicate AllWritten(data: seq<Byte>, failing: Option<Failure>) {
    failing.None? || failing.value.chunk * CHUNK_SIZE >= |data|
  }

  predicate Reaches(net: Net) { net.dials && !net.cancelled }

  /** SendBytes returns nil exactly in this case. */
  predicate SendOk(e: Endpoint, data: seq<Byte>, net: Net) {
    ValidEndpoint(e) && Reaches(net) && AllWritten(data, net.failing)
  }

  /** What one call holds the endpoint lock for. */
  function SendBody(e: Endpoint, data: seq<Byte>, net: Net): seq<Op> {
    [Dial(EndpointKey(e), Reaches(net))]
    + (if Reaches(net) then ChunkOps(EndpointKey(e), data, net.failing) else [])
    + (if SendOk(e, data, net) then [Wait(INTER_JOB_DELAY)] else [])
  }

  function SendOps(e: Endpoint, data: seq<Byte>, net: Net): seq<Op> {
    if !ValidEndpoint(e) then []
    else [Lock(EndpointLock(EndpointKey(e)))] + SendBody(e, data, net) + [Unlock(EndpointLock(EndpointKey(e)))]
  }

  /** sendBytesUnlocked after a successful dial. */
  method WriteChunks(out: Transcript, key: string, data: seq<Byte>, failing: Option<Failure>) returns (ok: bool)
    modifies out
    ensures ok == AllWritten(data, failing)
    ensures out.ops == old(out.ops) + ChunkOps(key, data, failing)
  {
    hide ChunkOps;
    var offset, chunk, left := 0, 0, failing;
    ghost var rest := data;
    ghost var before := out.ops;
    assert before + ChunkOps(key, data, failing) == out.ops + ChunkOps(key, rest, left);
    while offset < |data|
      invariant 0 <= offset == chunk * CHUNK_SIZE
      invariant rest == if offset < |data| then data[offset..] else []
      invariant failing.None? ==> left.None?
      invariant failing.Some? ==> chunk <= failing.value.chunk && left == Some(failing.value.(chunk := failing.value.chunk - chunk))
      invariant out.ops + ChunkOps(key, rest, left) == before + ChunkOps(key, data, failing)
    {
      var end := offset + CHUNK_SIZE;
      if end > |data| {
        end := |data|;
      }
      assert rest[..end - offset] == data[offset..end];
      OneChunk(key, rest, left);
      if FailsNow(left) {
        var n := Min(left.value.accepted, end - offset - 1);
        assert rest[..n] == data[offset..offset + n];
        out.Do(Break(key, data[offset..offset + n]));
        return false;
      }
      ghost var tail := ChunkOps(key, rest[end - offset..], Later(left));
      ghost var sent := out.ops;
      out.Do(Transmit(key, data[offset..end]));
      if end < |data| {
        out.Do(Wait(CHUNK_DELAY));
        ghost var step := [Transmit(key, data[offset..end]), Wait(CHUNK_DELAY)];
        assert ChunkOps(key, rest, left) == step + tail;
        assert out.ops == sent + step;
        AppendAssociates(sent, step, tail);
      } else {
        assert rest == data[offset..end] && rest[end - offset..] == [];
        OneChunk(key, rest[end - offset..], Later(left));
      }
      rest := rest[end - offset..];
      offset, chunk, left := offset + CHUNK_SIZE, chunk + 1, Later(left);
    }
    OneChunk(key, rest, left);
    ok := true;
  }

  /** How many writes succeed: all of them, or those before the one that fails. */
  function WholeChunks(data: seq<Byte>, failing: Option<Failure>): (k: nat)
    ensures k <= (|data| + 511) / 512
  {
    var n := (|data| + 511) / 512;
    if failing.Some? && failing.value.chunk < n then failing.value.chunk else n
  }

  /** Where chunk k ends. */
  function EndOfChunk(data: seq<Byte>, k: nat): (end: nat)
    requires 512 * k < |data|
    ensures 512 * k < end <= |data| && end <= 512 * k + 512
  {
    if 512 * k + 512 < |data| then 512 * k + 512 else |data|
  }

  /** Operation 2i of the writing is this one, as long as there is a chunk i. */
  function WriteOf(key: string, data: seq<Byte>, failing: Option<Failure>, i: nat): Op
    requires 512 * i < |data|
  {
    var end := EndOfChunk(data, i);
    if failing == None || i < failing.value.chunk then Transmit(key, data[512 * i..end])
    else
      var room := end - 512 * i - 1;
      Break(key, data[512 * i..512 * i + if failing.value.accepted < room then failing.value.accepted else room])
  }

  lemma {:induction false} WriteAt(key: string, data: seq<Byte>, failing: Option<Failure>, i: nat)
    requires i <= WholeChunks(data, failing) && 512 * i < |data|
    ensures 2 * i < |ChunkOps(key, data, failing)| && ChunkOps(key, data, failing)[2 * i] == WriteOf(key, data, failing, i)
    decreases i
  {
    OneChunk(key, data, failing);
    hide ChunkOps;
    if i > 0 {
      hide WriteOf;
      var rest, later := data[CHUNK_SIZE..], Later(failing);
      WriteAt(key, rest, later, i - 1);
      WriteLater(key, data, failing, i);
    } else {
      assert data[0..|data|] == data;
    }
  }

  lemma WriteLater(key: string, data: seq<Byte>, failing: Option<Failure>, i: nat)
    requires 0 < i <= WholeChunks(data, failing) && 512 * i < |data|
    ensures WriteOf(key, data, failing, i) == WriteOf(key, data[512..], Later(failing), i - 1)
  {
    var rest := data[512..];
    assert EndOfChunk(rest, i - 1) == EndOfChunk(data, i) - 512;
    SliceOfTail(data, 512, 512 * (i - 1), EndOfChunk(rest, i - 1));
    if failing.Some? && failing.value.chunk == i {
      var room := EndOfChunk(data, i) - 512 * i - 1;
      SliceOfTail(data, 512, 512 * (i - 1), 512 * (i - 1) + if failing.value.accepted < room then failing.value.accepted else room);
    }
  }

  lemma {:induction false} PausesBetween(key: string, data: seq<Byte>, failing: Option<Failure>)
    ensures var ops, n, k := ChunkOps(key, data, failing), (|data| + 511) / 512, WholeChunks(data, failing);
      && |ops| == (if k < n then 2 * k + 1 else if n == 0 then 0 else 2 * n - 1)
      && (forall i :: 0 <= i < |ops| && i % 2 == 1 ==> ops[i] == Wait(50))
    decreases |data|
  {
    var ops := ChunkOps(key, data, failing);
    OneChunk(key, data, failing);
    hide ChunkOps;
    if data != [] && !FailsNow(failing) && |data| > CHUNK_SIZE {
      var tail := ChunkOps(key, data[CHUNK_SIZE..], Later(failing));
      PausesBetween(key, data[CHUNK_SIZE..], Later(failing));
      assert forall i :: 2 <= i < |ops| ==> ops[i] == tail[i - 2];
    }
  }

  /**
   * Every second operation is the write of one chunk, from octet 512i on, and 50 ms are slept between any two writes;
   * the write that fails gets a proper part of its chunk through and is the last.
   */
  lemma WritesAndPauses(key: string, data: seq<Byte>, failing: Option<Failure>)
    ensures var ops, n, k := ChunkOps(key, data, failing), (|data| + 511) / 512, WholeChunks(data, failing);
      && |ops| == (if k < n then 2 * k + 1 else if n == 0 then 0 else 2 * n - 1)
      && (forall i :: 0 <= i < |ops| && i % 2 == 1 ==> ops[i] == Wait(50))
      && (forall i :: 0 <= 2 * i < |ops| ==> ops[2 * i] == WriteOf(key, data, failing, i))
  {
    PausesBetween(key, data, failing);
    var ops := ChunkOps(key, data, failing);
    hide ChunkOps, WriteOf;
    forall i | 0 <= 2 * i < |ops|
      ensures ops[2 * i] == WriteOf(key, data, failing, i)
    {
      WriteAt(key, data, failing, i);
    }
  }

  lemma SliceOfTail(data: seq<Byte>, n: nat, from: nat, upto: nat)
    requires from <= upto && n + upto <= |data|
    ensures data[n..][from..upto] == data[n + from..n + upto]
  {
  }

  /** Nil is returned exactly for a proper address, a live context, a connection, and no write that fails. */
  lemma SendOkExactly(e: Endpoint, data: seq<Byte>, net: Net)
    ensures SendOk(e, data, net) <==>
      && e.addr != "" && 1 <= e.port <= 65535 && net.dials && !net.cancelled
      && (net.failing.None? || net.failing.value.chunk * 512 >= |data|)
  {
  }

  /** Neither a dial nor the long sleep, and no write to another endpoint. */
  predicate KeepsTo(op: Op, key: string) {
    !op.Dial? && op != Wait(400) && (IsWrite(op) ==> op.key == key)
  }

  predicate AllKeepTo(ops: seq<Op>, key: string) {
    forall i :: 0 <= i < |ops| ==> KeepsTo(ops[i], key)
  }

  lemma {:induction false} ChunksKeep(key: string, data: seq<Byte>, failing: Option<Failure>)
    ensures AllKeepTo(ChunkOps(key, data, failing), key)
    decreases |data|
  {
    if data != [] && !FailsNow(failing) && |data| > CHUNK_SIZE {
      var rest, ops := ChunkOps(key, data[CHUNK_SIZE..], Later(failing)), ChunkOps(key, data, failing);
      ChunksKeep(key, data[CHUNK_SIZE..], Later(failing));
      assert ops == [Transmit(key, data[..CHUNK_SIZE]), Wait(CHUNK_DELAY)] + rest;
      forall i | 0 <= i < |ops| ensures KeepsTo(ops[i], key) { assert i >= 2 ==> ops[i] == rest[i - 2]; }
    }
  }

  /**
   * A call to a proper address takes the lock of that address, dials that address once, writes nowhere else, sleeps
   * 400 ms at the end if and only if it succeeds, and gives the lock back.
   */
  lemma SendShape(e: Endpoint, data: seq<Byte>, net: Net) returns (writing: seq<Op>)
    requires e.addr != "" && 1 <= e.port <= 65535
    ensures AllKeepTo(writing, EndpointKey(e))
    ensures writing == if net.dials && !net.cancelled then ChunkOps(EndpointKey(e), data, net.failing) else []
    ensures var key := EndpointKey(e);
      SendOps(e, data, net) ==
        [Lock(EndpointLock(key)), Dial(key, net.dials && !net.cancelled)] + writing
        + (if SendOk(e, data, net) then [Wait(400)] else []) + [Unlock(EndpointLock(key))]
  {
    var key := EndpointKey(e);
    ChunksKeep(key, data, net.failing);
    hide ChunkOps, EndpointKey, AllWritten;
    writing := if Reaches(net) then ChunkOps(key, data, net.failing) else [];
  }

  method SendBytes(out: Transcript, e: Endpoint, data: seq<Byte>, net: Net) returns (ok: bool)
    modifies out
    ensures ok == SendOk(e, data, net)
    ensures ok <==>
      && e.addr != "" && 1 <= e.port <= 65535 && net.dials && !net.cancelled
      && (net.failing.None? || net.failing.value.chunk * 512 >= |data|)
    ensures out.ops == old(out.ops) + SendOps(e, data, net)
    ensures e.addr == "" || e.port < 1 || e.port > 65535 ==> out.ops == old(out.ops)
  {
    SendOkExactly(e, data, net);
    hide ChunkOps, EndpointKey, AllWritten;
    if !ValidEndpoint(e) {
      return false;
    }
    var key := EndpointKey(e);
    out.Do(Lock(EndpointLock(key)));
    out.Do(Dial(key, Reaches(net)));
    ok := false;
    if Reaches(net) {
      ok := WriteChunks(out, key, data, net.failing);
    }
    if ok {
      out.Do(Wait(INTER_JOB_DELAY));
    }
    out.Do(Unlock(EndpointLock(key)));
  }

  // ----- what a call delivers -----

  /** The bytes a call gets through are a prefix of its payload. */
  function Contribution(e: Endpoint, data: seq<Byte>, net: Net): seq<Byte> {
    Delivered(EndpointKey(e), SendOps(e, data, net))
  }

  lemma {:induction false} ChunksDeliver(key: string, data: seq<Byte>, failing: Option<Failure>)
    ensures Delivered(key, ChunkOps(key, data, failing)) <= data
    ensures AllWritten(data, failing) <==> Delivered(key, ChunkOps(key, data, failing)) == data
    decreases |data|
  {
    if data != [] && !FailsNow(failing) && |data| > CHUNK_SIZE {
      var n := CHUNK_SIZE;
      var head := [Transmit(key, data[..n]), Wait(CHUNK_DELAY)];
      ChunksDeliver(key, data[n..], Later(failing));
      DeliveredConcat(key, head, ChunkOps(key, data[n..], Later(failing)));
      assert head[1..][1..] == [];
      assert Delivered(key, head) == data[..n];
      assert data == data[..n] + data[n..];
    }
  }

  lemma BodyDelivers(e: Endpoint, data: seq<Byte>, net: Net)
    requires ValidEndpoint(e)
    ensures Delivered(EndpointKey(e), SendBody(e, data, net)) == Contribution(e, data, net)
    ensures Contribution(e, data, net) == if Reaches(net) then Delivered(EndpointKey(e), ChunkOps(EndpointKey(e), data, net.failing)) else []
  {
    var key := EndpointKey(e);
    var chunks := if Reaches(net) then ChunkOps(key, data, net.failing) else [];
    var tail := if SendOk(e, data, net) then [Wait(INTER_JOB_DELAY)] else [];
    QuietAround(key, [Dial(key, Reaches(net))], chunks, tail);
    QuietAround(key, [Lock(EndpointLock(key))], SendBody(e, data, net), [Unlock(EndpointLock(key))]);
    assert Delivered(key, []) == [];
  }

  lemma SendDelivers(e: Endpoint, data: seq<Byte>, net: Net)
    ensures Contribution(e, data, net) <= data
    ensures SendOk(e, data, net) ==> Contribution(e, data, net) == data
    ensures data != [] && Contribution(e, data, net) == data ==> SendOk(e, data, net)
    ensures !Reaches(net) || !ValidEndpoint(e) ==> Contribution(e, data, net) == []
  {
    if ValidEndpoint(e) {
      BodyDelivers(e, data, net);
      ChunksDeliver(EndpointKey(e), data, net.failing);
    }
  }

  /** A send writes to its own endpoint only. */
  lemma ElsewhereQuiet(key: string, e: Endpoint, data: seq<Byte>, net: Net)
    requires EndpointKey(e) != key
    ensures Delivered(key, SendOps(e, data, net)) == []
  {
    hide EndpointKey;
    if ValidEndpoint(e) {
      ChunksElsewhere(key, EndpointKey(e), data, net.failing);
      var chunks := if Reaches(net) then ChunkOps(EndpointKey(e), data, net.failing) else [];
      var tail := if SendOk(e, data, net) then [Wait(INTER_JOB_DELAY)] else [];
      QuietAround(key, [Dial(EndpointKey(e), Reaches(net))], chunks, tail);
      QuietAround(key, [Lock(EndpointLock(EndpointKey(e)))], SendBody(e, data, net), [Unlock(EndpointLock(EndpointKey(e)))]);
    }
  }

  lemma {:induction false} ChunksElsewhere(key: string, own: string, data: seq<Byte>, failing: Option<Failure>)
    requires own != key
    ensures Delivered(key, ChunkOps(own, data, failing)) == []
    decreases |data|
  {
    if data != [] && !FailsNow(failing) && |data| > CHUNK_SIZE {
      var head := [Transmit(own, data[..CHUNK_SIZE]), Wait(CHUNK_DELAY)];
      var rest := ChunkOps(own, data[CHUNK_SIZE..], Later(failing));
      ChunksElsewhere(key, own, data[CHUNK_SIZE..], Later(failing));
      DeliveredConcat(key, head, rest);
      assert head[1..][1..] == [];
    }
  }

  /** The payloads of the individual writes. */
  function Writes(ops: seq<Op>): seq<seq<Byte>> {
    if ops == [] then []
    else (if ops[0].Transmit? || ops[0].Break? then [ops[0].bytes] else []) + Writes(ops[1..])
  }

  /** A completed payload is cut into full chunks; only the last one may be short. */
  lemma {:induction false} ChunkShape(key: string, data: seq<Byte>, failing: Option<Failure>)
    requires AllWritten(data, failing)
    ensures var w := Writes(ChunkOps(key, data, failing));
      && Concat(w) == data
      && |w| == (|data| + 511) / 512
      && (forall i :: 0 <= i < |w| - 1 ==> |w[i]| == 512)
      && (forall i :: 0 <= i < |w| ==> 0 < |w[i]| <= 512)
    decreases |data|
  {
    hide Concat, AllWritten;
    if data != [] {
      var ops := ChunkOps(key, data, failing);
      OpenChunk(data, failing);
      if |data| <= CHUNK_SIZE {
        assert ops == [Transmit(key, data)] && ops[1..] == [];
        assert Writes(ops) == [data];
        ConcatOne(data);
      } else {
        var first, later := data[..CHUNK_SIZE], ChunkOps(key, data[CHUNK_SIZE..], Later(failing));
        ChunkShape(key, data[CHUNK_SIZE..], Later(failing));
        assert ops[1..][1..] == later;
        assert Writes(ops[1..]) == Writes(later);
        hide ChunkOps, Writes;
        ConcatOne(first);
        ConcatAppend([first], Writes(later));
        assert data == first + data[CHUNK_SIZE..];
      }
    } else {
      ConcatNone<Byte>();
    }
  }

  /** A payload that gets through gets its first chunk through, and the rest. */
  lemma OpenChunk(data: seq<Byte>, failing: Option<Failure>)
    requires data != [] && AllWritten(data, failing)
    ensures !FailsNow(failing)
    ensures |data| > CHUNK_SIZE ==> AllWritten(data[CHUNK_SIZE..], Later(failing))
  {
  }

  lemma ConcatNone<T>()
    ensures Concat<T>([]) == []
  {
  }
}
