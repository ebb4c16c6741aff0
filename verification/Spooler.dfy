/** internal/spooler/spooler.go: one consumer, a bounded FIFO queue, and the cache of logos in printer memory. */
module Spooling {
  import opened Basics
  import opened Keys
  import opened Ops
  import opened Transport
  import opened Tasks

  const FLASH_SETTLE := 4000
  const DEFAULT_BUFFER := 1024
  const DEFAULT_PORT := 9100

  type Cache = map<string, string>

  // ----- what handling one job does, as a function of the cache and the job -----

  datatype Plan = NoLogo | Hit | NothingToUpload | UploadFirst(bytes: seq<Byte>)

  function EndpointOf(job: Job): Endpoint {
    Endpoint(job.addr, if job.port == 0 then DEFAULT_PORT else job.port)
  }

  predicate HasLogo(job: Job) {
    job.logo.Some? && job.logo.value.hash != ""
  }

  function SlotOf(job: Job): SlotId
    requires HasLogo(job)
  {
    SlotId(EndpointOf(job), job.logo.value.slot)
  }

  predicate CacheHit(cache: Cache, job: Job)
    requires HasLogo(job)
  {
    SlotKey(SlotOf(job)) in cache && cache[SlotKey(SlotOf(job))] == job.logo.value.hash
  }

  predicate HasImage(job: Job)
    requires HasLogo(job)
  {
    job.logo.value.image.Decoded? && job.logo.value.image.bytes != []
  }

  function PlanOf(cache: Cache, job: Job): Plan {
    if !HasLogo(job) then NoLogo
    else if CacheHit(cache, job) then Hit
    else if HasImage(job) then UploadFirst(job.logo.value.image.bytes)
    else NothingToUpload
  }

  function AnswerTasks(job: Job, ok: bool, errClass: string): seq<Task> {
    if job.wantsAck then [Answer(job.id, ok, errClass)] else []
  }

  predicate UploadOk(job: Job, bytes: seq<Byte>) { SendOk(EndpointOf(job), bytes, job.env.upload) }

  predicate ReceiptOk(job: Job) {
    job.rendered.Some? && SendOk(EndpointOf(job), job.rendered.value, job.env.receipt)
  }

  /** From the receipt transmission to the end. */
  function PrintTasks(plan: Plan, job: Job): seq<Task>
    requires job.rendered.Some? && (plan.UploadFirst? ==> HasLogo(job))
  {
    [Send(EndpointOf(job), Receipt(job.id, job.rendered.value), job.env.receipt)]
    + if !ReceiptOk(job) then AnswerTasks(job, false, "print_error")
      else (if plan.UploadFirst? then [Save(SlotOf(job), job.logo.value.hash)] else []) + AnswerTasks(job, true, "")
  }

  /** From the logo upload, when one is due, to the end. */
  function DeliverTasks(plan: Plan, job: Job): seq<Task>
    requires job.rendered.Some? && (plan.UploadFirst? ==> HasLogo(job))
  {
    if !plan.UploadFirst? then PrintTasks(plan, job)
    else
      [Send(EndpointOf(job), Upload(SlotOf(job), job.logo.value.hash, plan.bytes), job.env.upload)]
      + if !UploadOk(job, plan.bytes) then AnswerTasks(job, false, "print_error")
        else if job.env.cancelledInWait then [Flash(SlotOf(job))]
        else [Flash(SlotOf(job)), Pause(FLASH_SETTLE)] + PrintTasks(plan, job)
  }

  function HandleTasks(cache: Cache, job: Job): seq<Task> {
    if job.rendered.None? then AnswerTasks(job, false, "format_error")
    else (if HasLogo(job) then [Consult(SlotOf(job))] else []) + DeliverTasks(PlanOf(cache, job), job)
  }

  /** The upload went through and the context ended during the wait: the job is dropped without an answer. */
  predicate Abandoned(cache: Cache, job: Job) {
    var plan := PlanOf(cache, job);
    job.rendered.Some? && plan.UploadFirst? && UploadOk(job, plan.bytes) && job.env.cancelledInWait
  }

  /** Everything the job needed went through. */
  predicate JobOk(cache: Cache, job: Job) {
    var plan := PlanOf(cache, job);
    && ReceiptOk(job)
    && (plan.UploadFirst? ==> UploadOk(job, plan.bytes) && !job.env.cancelledInWait)
  }

  function HandleCache(cache: Cache, job: Job): Cache {
    if PlanOf(cache, job).UploadFirst? && JobOk(cache, job) then cache[SlotKey(SlotOf(job)) := job.logo.value.hash]
    else cache
  }

  function RunTasks(cache: Cache, jobs: seq<Job>): seq<Task>
    decreases |jobs|
  {
    if jobs == [] then [] else HandleTasks(cache, jobs[0]) + RunTasks(HandleCache(cache, jobs[0]), jobs[1..])
  }

  function RunCache(cache: Cache, jobs: seq<Job>): Cache
    decreases |jobs|
  {
    if jobs == [] then cache else RunCache(HandleCache(cache, jobs[0]), jobs[1..])
  }

  lemma {:induction false} RunConcat(cache: Cache, a: seq<Job>, b: seq<Job>)
    ensures RunCache(cache, a + b) == RunCache(RunCache(cache, a), b)
    ensures RunTasks(cache, a + b) == RunTasks(cache, a) + RunTasks(RunCache(cache, a), b)
    decreases |a|
  {
    hide HandleTasks, HandleCache;
    if a == [] {
      assert a + b == b;
    } else {
      RunConcat(HandleCache(cache, a[0]), a[1..], b);
      assert (a + b)[1..] == a[1..] + b;
    }
  }

  lemma RunOne(cache: Cache, job: Job)
    ensures RunCache(cache, [job]) == HandleCache(cache, job)
    ensures RunTasks(cache, [job]) == HandleTasks(cache, job)
  {
    assert [job][1..] == [];
    assert RunTasks(HandleCache(cache, job), []) == [];
  }

  // ----- the spooler itself -----

  class Spooler {
    var ch: seq<Job>
    var logoCache: Cache
    const buf: nat
    const out: Transcript
    /** The tasks whose operations make up the transcript. */
    ghost var done: seq<Task>

    ghost predicate Valid()
      reads this, out
    {
      buf >= 1 && |ch| <= buf && out.ops == OpsOf(done)
    }

    constructor (size: int)
      ensures Valid() && fresh(out)
      ensures ch == [] && logoCache == map[] && done == []
      ensures buf == if size < 1 then 1024 else size
    {
      buf := if size < 1 then DEFAULT_BUFFER else size;
      ch, logoCache, done := [], map[], [];
      out := new Transcript();
    }

    /** A channel send; it does not happen while the buffer is full. */
    method Enqueue(j: Job) returns (sent: bool)
      requires Valid()
      modifies this`ch
      ensures Valid()
      ensures sent == (|old(ch)| < buf)
      ensures ch == if sent then old(ch) + [j] else old(ch)
    {
      sent := |ch| < buf;
      if sent {
        ch := ch + [j];
      }
    }

    method Record(t: Task)
      requires Valid()
      modifies this`done, out
      ensures Valid() && done == old(done) + [t]
    {
      hide TaskOps, OpsOf;
      OpsOfSnoc(done, t);
      var ops := TaskOps(t);
      var i := 0;
      while i < |ops|
        invariant 0 <= i <= |ops|
        invariant out.ops == old(out.ops) + ops[..i] && done == old(done)
      {
        out.Do(ops[i]);
        i := i + 1;
      }
      done := done + [t];
    }

    method Send(e: Endpoint, payload: Payload, net: Net) returns (ok: bool)
      requires Valid()
      modifies this`done, out
      ensures Valid() && done == old(done) + [Task.Send(e, payload, net)]
      ensures ok == SendOk(e, payload.bytes, net)
    {
      OpsOfSnoc(done, Task.Send(e, payload, net));
      ok := SendBytes(out, e, payload.bytes, net);
      done := done + [Task.Send(e, payload, net)];
    }

    method SendAck(j: Job, ok: bool, errClass: string)
      requires Valid()
      modifies this`done, out
      ensures Valid() && done == old(done) + AnswerTasks(j, ok, errClass)
    {
      if j.wantsAck {
        Record(Answer(j.id, ok, errClass));
      }
    }

    method LogoPrelude(j: Job) returns (willUpdate: bool, prelude: seq<Byte>)
      requires Valid()
      modifies this`done, out
      ensures Valid() && done == old(done) + if HasLogo(j) then [Consult(SlotOf(j))] else []
      ensures willUpdate == PlanOf(logoCache, j).UploadFirst?
      ensures prelude == if willUpdate then PlanOf(logoCache, j).bytes else []
      ensures willUpdate ==> prelude != []
    {
      willUpdate, prelude := false, [];
      if j.logo.None? || j.logo.value.hash == "" {
        return;
      }
      var ref := j.logo.value;
      var key := SlotKey(SlotOf(j));
      Record(Consult(SlotOf(j)));
      if key in logoCache && logoCache[key] == ref.hash {
        return;
      }
      if ref.image.Missing? {
        return;
      }
      if ref.image.Undecodable? || ref.image.bytes == [] {
        return;
      }
      willUpdate, prelude := true, ref.image.bytes;
    }

    /** The last part of handle: send the receipt, commit the cache entry, ack. */
    method Print(j: Job, data: seq<Byte>, ghost plan: Plan, willUpdate: bool)
      requires Valid() && j.rendered == Some(data)
      requires willUpdate == plan.UploadFirst? && (willUpdate ==> HasLogo(j))
      modifies this`done, this`logoCache, out
      ensures Valid()
      ensures done == old(done) + PrintTasks(plan, j)
      ensures logoCache == if willUpdate && ReceiptOk(j) then old(logoCache)[SlotKey(SlotOf(j)) := j.logo.value.hash] else old(logoCache)
    {
      hide OpsOf, SendOk, SlotKey;
      var ok := Send(EndpointOf(j), Receipt(j.id, data), j.env.receipt);
      if !ok {
        SendAck(j, false, "print_error");
        return;
      }
      if willUpdate {
        Record(Save(SlotOf(j), j.logo.value.hash));
        logoCache := logoCache[SlotKey(SlotOf(j)) := j.logo.value.hash];
      }
      SendAck(j, true, "");
    }

    method Handle(j: Job)
      requires Valid()
      modifies this`done, this`logoCache, out
      ensures Valid()
      ensures done == old(done) + HandleTasks(old(logoCache), j)
      ensures logoCache == HandleCache(old(logoCache), j)
    {
      hide OpsOf, SendOk, SlotKey, PrintTasks;
      if j.rendered.None? {
        SendAck(j, false, "format_error");
        return;
      }
      ghost var plan := PlanOf(logoCache, j);
      var willUpdate, prelude := LogoPrelude(j);
      ghost var consulted := done;
      assert old(done) + HandleTasks(old(logoCache), j) == consulted + DeliverTasks(plan, j);
      if |prelude| > 0 {
        var ok := Send(EndpointOf(j), Upload(SlotOf(j), j.logo.value.hash, prelude), j.env.upload);
        if !ok {
          SendAck(j, false, "print_error");
          assert done == consulted + DeliverTasks(plan, j);
          return;
        }
        Record(Flash(SlotOf(j)));
        if j.env.cancelledInWait {
          assert done == consulted + DeliverTasks(plan, j);
          return;
        }
        Record(Pause(FLASH_SETTLE));
      }
      assert consulted + DeliverTasks(plan, j) == done + PrintTasks(plan, j);
      Print(j, j.rendered.value, plan, willUpdate);
    }

    /** Receives jobs until the queue is drained or the context ends, which happens before job number `limit`. */
    method Run(limit: nat)
      requires Valid()
      modifies this, out
      ensures Valid()
      ensures var n := Min(limit, |old(ch)|);
        && ch == old(ch)[n..]
        && done == old(done) + RunTasks(old(logoCache), old(ch)[..n])
        && logoCache == RunCache(old(logoCache), old(ch)[..n])
    {
      hide HandleTasks, HandleCache, OpsOf;
      ghost var jobs, cache, before := ch, logoCache, done;
      var n := 0;
      while n < limit && ch != []
        invariant Valid()
        invariant 0 <= n <= limit && n <= |jobs|
        invariant ch == jobs[n..]
        invariant done == before + RunTasks(cache, jobs[..n])
        invariant logoCache == RunCache(cache, jobs[..n])
      {
        var j := ch[0];
        ch := ch[1..];
        RunConcat(cache, jobs[..n], [j]);
        RunOne(logoCache, j);
        assert jobs[..n] + [j] == jobs[..n + 1];
        Handle(j);
        n := n + 1;
      }
    }
  }
}
