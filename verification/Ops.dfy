/** The observable operations of a goroutine, and the transcript that records them in program order. */
module Ops {
  import opened Basics
  import opened Keys

  datatype LogoRef = LogoRef(slot: int, hash: string, image: Base64)

  /** A spooler job. `rendered` is what escpos.Render returned: the receipt bytes, or an error. */
  datatype Job = Job(
    id: string,
    addr: string,
    port: int,
    rendered: Option<seq<Byte>>,
    logo: Option<LogoRef>,
    wantsAck: bool,
    env: JobEnv)

  /** One conn.Write that errors: the index of the chunk and how many of its bytes got through, which is never all. */
  datatype Failure = Failure(chunk: nat, accepted: nat)

  /** Everything the network and the context do to one SendBytes call. */
  datatype Net = Net(cancelled: bool, dials: bool, failing: Option<Failure>)

  /** Everything they do to one job: the upload, the wait for the flash, the receipt. */
  datatype JobEnv = JobEnv(upload: Net, cancelledInWait: bool, receipt: Net)

  datatype Mutex = EndpointLock(key: string) | LogoLock | SocketLock | PrintersLock

  datatype Op =
    | Lock(m: Mutex)
    | Unlock(m: Mutex)
    | Dial(key: string, connected: bool)
    | Transmit(key: string, bytes: seq<Byte>)  // a conn.Write without error
    | Break(key: string, bytes: seq<Byte>)     // a conn.Write with an error, and the bytes it got through
    | Wait(ms: nat)
    | Uploaded(slot: SlotId)                   // the log line after a logo upload
    | ReadCache(slot: SlotId)
    | Commit(slot: SlotId, hash: string)
    | Report(id: string, ok: bool, errClass: string)
    | SocketWrite
    | CopyPrinters
    | Submit(job: Job)

  predicate IsWrite(op: Op) { op.Transmit? || op.Break? }

  function BytesTo(key: string, op: Op): seq<Byte> {
    if IsWrite(op) && op.key == key then op.bytes else []
  }

  /** The bytes a printer has received from these operations. */
  function Delivered(key: string, ops: seq<Op>): seq<Byte> {
    if ops == [] then [] else BytesTo(key, ops[0]) + Delivered(key, ops[1..])
  }

  lemma {:induction false} DeliveredConcat(key: string, a: seq<Op>, b: seq<Op>)
    ensures Delivered(key, a + b) == Delivered(key, a) + Delivered(key, b)
  {
    if a == [] {
      assert a + b == b;
    } else {
      hide BytesTo;
      DeliveredConcat(key, a[1..], b);
      assert (a + b)[1..] == a[1..] + b && (a + b)[0] == a[0];
      AppendAssociates(BytesTo(key, a[0]), Delivered(key, a[1..]), Delivered(key, b));
    }
  }

  /** Operations that write nothing deliver nothing, before or after some others. */
  lemma {:induction false} QuietDelivers(key: string, ops: seq<Op>)
    requires forall i :: 0 <= i < |ops| ==> !IsWrite(ops[i])
    ensures Delivered(key, ops) == []
  {
    if ops != [] {
      assert !IsWrite(ops[0]);
      QuietDelivers(key, ops[1..]);
    }
  }

  lemma QuietAround(key: string, a: seq<Op>, ops: seq<Op>, b: seq<Op>)
    requires forall i :: 0 <= i < |a| ==> !IsWrite(a[i])
    requires forall i :: 0 <= i < |b| ==> !IsWrite(b[i])
    ensures Delivered(key, a + ops + b) == Delivered(key, ops)
  {
    DeliveredConcat(key, a + ops, b);
    DeliveredConcat(key, a, ops);
    QuietDelivers(key, a);
    QuietDelivers(key, b);
  }

  class Transcript {
    var ops: seq<Op>

    constructor ()
      ensures ops == []
    {
      ops := [];
    }

    method Do(op: Op)
      modifies this
      ensures ops == old(ops) + [op]
    {
      ops := ops + [op];
    }
  }
}
