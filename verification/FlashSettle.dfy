/** After a logo upload the spooler leaves every printer alone until the flash memory has settled. */
module FlashSettle {
  import opened Basics
  import opened Keys
  import opened Ops
  import opened Transport
  import opened Tasks
  import opened Spooling
  import Pacing

  /** Time under the endpoint lock after a successful upload, plus the wait for the flash. */
  const SETTLE := INTER_JOB_DELAY + FLASH_SETTLE

  /** Time slept since the last write, and whether an upload has finished since then. */
  datatype Quiet = Quiet(since: nat, uploaded: bool)

  function Step(q: Quiet, op: Op): Quiet {
    match op
    case Transmit(_, _) => Quiet(0, false)
    case Break(_, _) => Quiet(0, false)
    case Wait(ms) => q.(since := q.since + ms)
    case Uploaded(_) => q.(uploaded := true)
    case _ => q
  }

  function Steps(q: Quiet, ops: seq<Op>): Quiet
    decreases |ops|
  {
    if ops == [] then q else Steps(Step(q, ops[0]), ops[1..])
  }

  /** No write comes too early after an upload. */
  predicate Settles(q: Quiet, ops: seq<Op>)
    decreases |ops|
  {
    ops != [] ==>
      && (IsWrite(ops[0]) && q.uploaded ==> q.since >= SETTLE)
      && Settles(Step(q, ops[0]), ops[1..])
  }

  lemma {:induction false} SettlesConcat(q: Quiet, a: seq<Op>, b: seq<Op>)
    ensures Settles(q, a + b) <==> Settles(q, a) && Settles(Steps(q, a), b)
    ensures Steps(q, a + b) == Steps(Steps(q, a), b)
    decreases |a|
  {
    if a == [] {
      assert a + b == b;
    } else {
      assert (a + b)[1..] == a[1..] + b && (a + b)[0] == a[0];
      SettlesConcat(Step(q, a[0]), a[1..], b);
    }
  }

  predicate Silent(ops: seq<Op>) {
    forall i :: 0 <= i < |ops| ==> !IsWrite(ops[i])
  }

  lemma {:induction false} SilentSettles(q: Quiet, ops: seq<Op>)
    requires Silent(ops)
    ensures Settles(q, ops)
    ensures Steps(q, ops).since >= q.since
    ensures (forall i :: 0 <= i < |ops| ==> !ops[i].Uploaded?) ==> Steps(q, ops).uploaded == q.uploaded
    decreases |ops|
  {
    if ops != [] {
      assert !IsWrite(ops[0]);
      SilentSettles(Step(q, ops[0]), ops[1..]);
    }
  }

  /** The next write may come now. */
  predicate Free(q: Quiet) { q.uploaded ==> q.since >= SETTLE }

  lemma {:induction false} ChunksSettle(q: Quiet, key: string, data: seq<Byte>, failing: Option<Failure>)
    requires Free(q)
    ensures Settles(q, ChunkOps(key, data, failing))
    ensures var q' := Steps(q, ChunkOps(key, data, failing)); Free(q') && (data != [] ==> !q'.uploaded)
    decreases |data|
  {
    var ops := ChunkOps(key, data, failing);
    if data == [] {
    } else if FailsNow(failing) || |data| <= CHUNK_SIZE {
      assert ops[1..] == [];
    } else {
      assert ops[1..][1..] == ChunkOps(key, data[CHUNK_SIZE..], Later(failing));
      assert ops[1..][0] == Wait(CHUNK_DELAY);
      ChunksSettle(Quiet(CHUNK_DELAY, false), key, data[CHUNK_SIZE..], Later(failing));
    }
  }

  /** A send that may start leaves the next one free to start; a successful one leaves INTER_JOB_DELAY behind it. */
  lemma SendSettles(q: Quiet, e: Endpoint, data: seq<Byte>, net: Net)
    requires Free(q)
    ensures Settles(q, SendOps(e, data, net))
    ensures var q' := Steps(q, SendOps(e, data, net));
      && Free(q')
      && (SendOk(e, data, net) && data != [] ==> !q'.uploaded && q'.since >= INTER_JOB_DELAY)
  {
    hide ChunkOps, EndpointKey, AllWritten, Settles, Steps;
    NoSteps(q);
    if ValidEndpoint(e) {
      var key := EndpointKey(e);
      var front := [Lock(EndpointLock(key)), Dial(key, Reaches(net))];
      var chunks := if Reaches(net) then ChunkOps(key, data, net.failing) else [];
      var delay := if SendOk(e, data, net) then [Wait(INTER_JOB_DELAY)] else [];
      var close := [Unlock(EndpointLock(key))];
      assert SendOps(e, data, net) == front + (chunks + (delay + close));
      SilentSettles(q, front);
      SettlesConcat(q, front, chunks + (delay + close));
      var q1 := Steps(q, front);
      ChunksSettle(q1, key, data, net.failing);
      NoSteps(q1);
      SettlesConcat(q1, chunks, delay + close);
      var q2 := Steps(q1, chunks);
      SilentSettles(q2, delay);
      SettlesConcat(q2, delay, close);
      SilentSettles(Steps(q2, delay), close);
      WaitStep(q2, INTER_JOB_DELAY);
    }
  }

  lemma NoSteps(q: Quiet)
    ensures Settles(q, []) && Steps(q, []) == q
  {
  }

  lemma WaitStep(q: Quiet, ms: nat)
    ensures Steps(q, [Wait(ms)]) == q.(since := q.since + ms)
  {
    assert [Wait(ms)][1..] == [];
  }

  // ----- the spooler's tasks -----

  lemma TasksSettle(q: Quiet, a: seq<Task>, b: seq<Task>)
    ensures Settles(q, OpsOf(a + b)) <==> Settles(q, OpsOf(a)) && Settles(Steps(q, OpsOf(a)), OpsOf(b))
    ensures Steps(q, OpsOf(a + b)) == Steps(Steps(q, OpsOf(a)), OpsOf(b))
  {
    OpsOfConcat(a, b);
    SettlesConcat(q, OpsOf(a), OpsOf(b));
  }

  predicate SilentTask(t: Task) {
    t.Send? ==> !Reaches(t.net)
  }

  lemma SilentTaskOps(t: Task)
    requires SilentTask(t)
    ensures Silent(TaskOps(t))
    ensures !t.Flash? ==> forall i :: 0 <= i < |TaskOps(t)| ==> !TaskOps(t)[i].Uploaded?
  {
  }

  lemma {:induction false} SilentTasksSettle(q: Quiet, tasks: seq<Task>)
    requires forall i :: 0 <= i < |tasks| ==> SilentTask(tasks[i])
    ensures Settles(q, OpsOf(tasks))
    ensures Steps(q, OpsOf(tasks)).since >= q.since
    ensures (forall i :: 0 <= i < |tasks| ==> !tasks[i].Flash?) ==> Steps(q, OpsOf(tasks)).uploaded == q.uploaded
    decreases |tasks|
  {
    hide TaskOps;
    if tasks != [] {
      assert SilentTask(tasks[0]);
      SilentTaskOps(tasks[0]);
      SilentSettles(q, TaskOps(tasks[0]));
      SettlesConcat(q, TaskOps(tasks[0]), OpsOf(tasks[1..]));
      SilentTasksSettle(Steps(q, TaskOps(tasks[0])), tasks[1..]);
      assert tasks[0] == tasks[0];
    }
  }

  lemma PrintSettles(q: Quiet, plan: Plan, job: Job)
    requires job.rendered.Some? && (plan.UploadFirst? ==> HasLogo(job))
    requires Free(q)
    ensures Settles(q, OpsOf(PrintTasks(plan, job))) && Free(Steps(q, OpsOf(PrintTasks(plan, job))))
  {
    hide TaskOps, SendOk, OpsOf, Settles, Steps;
    var tasks := PrintTasks(plan, job);
    var send := Send(EndpointOf(job), Receipt(job.id, job.rendered.value), job.env.receipt);
    assert tasks == [send] + tasks[1..];
    TasksSettle(q, [send], tasks[1..]);
    SendTaskSettles(q, EndpointOf(job), send.payload, job.env.receipt);
    SilentTasksSettle(Steps(q, OpsOf([send])), tasks[1..]);
  }

  lemma SendTaskSettles(q: Quiet, e: Endpoint, payload: Payload, net: Net)
    requires Free(q)
    ensures var ops := OpsOf([Send(e, payload, net)]);
      && Settles(q, ops) && Free(Steps(q, ops))
      && (SendOk(e, payload.bytes, net) && payload.bytes != [] ==> !Steps(q, ops).uploaded && Steps(q, ops).since >= INTER_JOB_DELAY)
  {
    OpsOfOne(Send(e, payload, net));
    SendSettles(q, e, payload.bytes, net);
  }

  /** Unless the context ended while the job waited for the flash, the next job may write at once. */
  lemma JobSettles(q: Quiet, cache: Cache, job: Job)
    requires Free(q)
    ensures Settles(q, OpsOf(HandleTasks(cache, job)))
    ensures !Abandoned(cache, job) ==> Free(Steps(q, OpsOf(HandleTasks(cache, job))))
  {
    hide TaskOps, SendOk, OpsOf, Settles, Steps, PrintTasks;
    var plan, tasks := PlanOf(cache, job), HandleTasks(cache, job);
    if job.rendered.None? {
      SilentTasksSettle(q, tasks);
      return;
    }
    var front := if HasLogo(job) then [Consult(SlotOf(job))] else [];
    TasksSettle(q, front, DeliverTasks(plan, job));
    SilentTasksSettle(q, front);
    var q1 := Steps(q, OpsOf(front));
    if !plan.UploadFirst? {
      PrintSettles(q1, plan, job);
      return;
    }
    var up := Send(EndpointOf(job), Upload(SlotOf(job), job.logo.value.hash, plan.bytes), job.env.upload);
    var rest := DeliverTasks(plan, job)[1..];
    assert DeliverTasks(plan, job) == [up] + rest;
    TasksSettle(q1, [up], rest);
    SendTaskSettles(q1, EndpointOf(job), up.payload, job.env.upload);
    var q2 := Steps(q1, OpsOf([up]));
    if !UploadOk(job, plan.bytes) || job.env.cancelledInWait {
      SilentTasksSettle(q2, rest);
    } else {
      var wait := [Flash(SlotOf(job)), Pause(FLASH_SETTLE)];
      assert rest == wait + PrintTasks(plan, job);
      TasksSettle(q2, wait, PrintTasks(plan, job));
      WaitSettles(q2, SlotOf(job));
      PrintSettles(Steps(q2, OpsOf(wait)), plan, job);
    }
  }

  lemma WaitSettles(q: Quiet, slot: SlotId)
    requires q.since >= INTER_JOB_DELAY
    ensures var ops := OpsOf([Flash(slot), Pause(FLASH_SETTLE)]); Settles(q, ops) && Free(Steps(q, ops))
  {
    var tasks := [Flash(slot), Pause(FLASH_SETTLE)];
    assert tasks[1..][1..] == [];
    assert OpsOf(tasks[1..]) == [Wait(FLASH_SETTLE)];
    assert OpsOf(tasks) == [Uploaded(slot), Wait(FLASH_SETTLE)];
    var ops := OpsOf(tasks);
    assert ops[1..] == [Wait(FLASH_SETTLE)] && ops[1..][1..] == [];
    assert Steps(Step(q, ops[0]), ops[1..]) == Quiet(q.since + FLASH_SETTLE, true);
  }

  // ----- whole runs -----

  /** Once the context has ended it stays ended: every later dial is made under a cancelled context. */
  ghost predicate ContextEndsOnce(ended: bool, jobs: seq<Job>)
    decreases |jobs|
  {
    jobs != [] ==>
      var env := jobs[0].env;
      && (ended ==> env.upload.cancelled && env.cancelledInWait && env.receipt.cancelled)
      && (env.upload.cancelled || env.cancelledInWait ==> env.receipt.cancelled)
      && ContextEndsOnce(env.receipt.cancelled, jobs[1..])
  }

  lemma {:induction false} EndedRunSilent(cache: Cache, jobs: seq<Job>)
    requires ContextEndsOnce(true, jobs)
    ensures forall i :: 0 <= i < |RunTasks(cache, jobs)| ==> SilentTask(RunTasks(cache, jobs)[i])
    decreases |jobs|
  {
    if jobs != [] {
      EndedRunSilent(HandleCache(cache, jobs[0]), jobs[1..]);
    }
  }

  lemma {:induction false} RunSettlesFrom(q: Quiet, cache: Cache, jobs: seq<Job>)
    requires Free(q) && ContextEndsOnce(false, jobs)
    ensures Settles(q, OpsOf(RunTasks(cache, jobs)))
    decreases |jobs|
  {
    hide HandleTasks, HandleCache, TaskOps;
    if jobs != [] {
      var job, rest := jobs[0], RunTasks(HandleCache(cache, jobs[0]), jobs[1..]);
      TasksSettle(q, HandleTasks(cache, job), rest);
      JobSettles(q, cache, job);
      if job.env.receipt.cancelled {
        EndedRunSilent(HandleCache(cache, job), jobs[1..]);
        SilentTasksSettle(Steps(q, OpsOf(HandleTasks(cache, job))), rest);
      } else {
        RunSettlesFrom(Steps(q, OpsOf(HandleTasks(cache, job))), HandleCache(cache, job), jobs[1..]);
      }
    }
  }

  /** Every run of the spooler, cancelled or not, keeps the distance. */
  lemma RunSettles(cache: Cache, jobs: seq<Job>)
    requires ContextEndsOnce(false, jobs)
    ensures Settles(Quiet(0, false), OpsOf(RunTasks(cache, jobs)))
  {
    RunSettlesFrom(Quiet(0, false), cache, jobs);
  }

  // ----- in terms of the clock -----

  lemma {:induction false} ClockGrows(ops: seq<Op>, times: seq<int>, j: nat)
    requires Pacing.Clocked(ops, times) && j < |ops|
    ensures times[0] <= times[j]
  {
    if j > 0 {
      ClockGrows(ops, times, j - 1);
      assert times[j - 1 + 1] >= times[j - 1];
    }
  }

  lemma {:induction false} NoEarlyWrite(q: Quiet, ops: seq<Op>, times: seq<int>, last: int, j: nat)
    requires Pacing.Clocked(ops, times) && Settles(q, ops)
    requires j < |ops| && IsWrite(ops[j])
    requires q.uploaded && last + q.since <= times[0]
    ensures times[j] >= last + SETTLE
    decreases |ops|
  {
    if IsWrite(ops[0]) {
      ClockGrows(ops, times, j);
    } else {
      assert times[0 + 1] >= times[0];
      NoEarlyWrite(Step(q, ops[0]), ops[1..], times[1..], last, j - 1);
    }
  }

  lemma {:induction false} UploadThenWrite(q: Quiet, ops: seq<Op>, times: seq<int>, last: int, k: nat, j: nat)
    requires Pacing.Clocked(ops, times) && Settles(q, ops)
    requires k < j < |ops| && ops[k].Uploaded? && IsWrite(ops[j])
    requires forall i :: 0 <= i < k ==> !IsWrite(ops[i])
    requires last + q.since <= times[0]
    ensures times[j] >= last + SETTLE
    decreases k
  {
    assert times[0 + 1] >= times[0];
    if k == 0 {
      NoEarlyWrite(Step(q, ops[0]), ops[1..], times[1..], last, j - 1);
    } else {
      assert !IsWrite(ops[0]);
      UploadThenWrite(Step(q, ops[0]), ops[1..], times[1..], last, k - 1, j - 1);
    }
  }

  lemma {:induction false} WriteUploadWrite(q: Quiet, ops: seq<Op>, times: seq<int>, i: nat, k: nat, j: nat)
    requires Pacing.Clocked(ops, times) && Settles(q, ops)
    requires i < k < j < |ops| && IsWrite(ops[i]) && ops[k].Uploaded? && IsWrite(ops[j])
    requires forall m :: i < m < k ==> !IsWrite(ops[m])
    ensures times[j] >= times[i] + SETTLE
    decreases i
  {
    assert times[0 + 1] >= times[0];
    if i == 0 {
      UploadThenWrite(Step(q, ops[0]), ops[1..], times[1..], times[0], k - 1, j - 1);
    } else {
      WriteUploadWrite(Step(q, ops[0]), ops[1..], times[1..], i - 1, k - 1, j - 1);
    }
  }

  /**
   * In every run of the spooler and for every clock: when i is the last write before an upload's log line at k, no
   * write to any printer happens within 4400 ms of it.
   */
  lemma FlashWait(cache: Cache, jobs: seq<Job>, times: seq<int>, i: nat, k: nat, j: nat)
    requires ContextEndsOnce(false, jobs)
    requires var ops := OpsOf(RunTasks(cache, jobs));
      && Pacing.Clocked(ops, times)
      && i < k < j < |ops| && IsWrite(ops[i]) && ops[k].Uploaded? && IsWrite(ops[j])
      && (forall m :: i < m < k ==> !IsWrite(ops[m]))
    ensures times[j] >= times[i] + 4400
  {
    RunSettles(cache, jobs);
    WriteUploadWrite(Quiet(0, false), OpsOf(RunTasks(cache, jobs)), times, i, k, j);
  }
}
