/** The units a goroutine's transcript is made of: each holds at most one mutex while it runs. */
module Tasks {
  import opened Basics
  import opened Keys
  import opened Ops
  import opened Transport

  datatype Payload =
    | Upload(slot: SlotId, hash: string, bytes: seq<Byte>)
    | Receipt(id: string, bytes: seq<Byte>)
    | Raw(bytes: seq<Byte>)

  datatype Task =
    | Send(e: Endpoint, payload: Payload, net: Net)  // printer.SendBytes
    | Consult(slot: SlotId)                          // the cache lookup in logoPrelude
    | Save(slot: SlotId, hash: string)               // the cache update in handle
    | Answer(id: string, ok: bool, errClass: string) // SendAck
    | Tell                                           // any other websocket write
    | Copy                                           // a snapshot of the printer list under its mutex
    | Flash(slot: SlotId)                            // upload finished
    | Pause(ms: nat)
    | Put(job: Job)                                  // Spooler.Enqueue

  function Guarded(m: Mutex, op: Op): seq<Op> { [Lock(m), op, Unlock(m)] }

  function TaskOps(t: Task): seq<Op> {
    match t
    case Send(e, p, net) => SendOps(e, p.bytes, net)
    case Consult(slot) => Guarded(LogoLock, ReadCache(slot))
    case Save(slot, hash) => Guarded(LogoLock, Commit(slot, hash))
    case Answer(id, ok, c) => Guarded(SocketLock, Report(id, ok, c))
    case Tell => Guarded(SocketLock, SocketWrite)
    case Copy => Guarded(PrintersLock, CopyPrinters)
    case Flash(slot) => [Uploaded(slot)]
    case Pause(ms) => [Wait(ms)]
    case Put(job) => [Submit(job)]
  }

  predicate SendsTo(t: Task, key: string) { t.Send? && EndpointKey(t.e) == key }

  /** A send that takes the lock of this endpoint. */
  predicate ServedAt(t: Task, key: string) { SendsTo(t, key) && ValidEndpoint(t.e) }

  function OpsOf(tasks: seq<Task>): seq<Op> {
    if tasks == [] then [] else TaskOps(tasks[0]) + OpsOf(tasks[1..])
  }

  lemma {:induction false} OpsOfConcat(a: seq<Task>, b: seq<Task>)
    ensures OpsOf(a + b) == OpsOf(a) + OpsOf(b)
  {
    hide TaskOps;
    if a == [] {
      assert a + b == b;
    } else {
      OpsOfConcat(a[1..], b);
      assert (a + b)[1..] == a[1..] + b && (a + b)[0] == a[0];
      AppendAssociates(TaskOps(a[0]), OpsOf(a[1..]), OpsOf(b));
    }
  }

  lemma OpsOfOne(t: Task)
    ensures OpsOf([t]) == TaskOps(t)
  {
    assert [t][1..] == [];
  }

  /** An appended task appends its operations. */
  lemma OpsOfSnoc(a: seq<Task>, t: Task)
    ensures OpsOf(a + [t]) == OpsOf(a) + TaskOps(t)
  {
    OpsOfConcat(a, [t]);
    OpsOfOne(t);
  }
}
