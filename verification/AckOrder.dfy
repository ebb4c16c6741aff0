/** One answer per job, in queue order, and what a positive answer says about the bytes on the wire. */
module AckOrder {
  import opened Basics
  import opened Keys
  import opened Ops
  import opened Transport
  import opened Tasks
  import opened Spooling

  datatype Ack = Ack(id: string, ok: bool, errClass: string)

  /** The acks among the operations, in order. */
  function Acks(ops: seq<Op>): seq<Ack> {
    if ops == [] then []
    else (if ops[0].Report? then [Ack(ops[0].id, ops[0].ok, ops[0].errClass)] else []) + Acks(ops[1..])
  }

  lemma {:induction false} AcksConcat(a: seq<Op>, b: seq<Op>)
    ensures Acks(a + b) == Acks(a) + Acks(b)
  {
    if a == [] {
      assert a + b == b;
    } else {
      assert (a + b)[1..] == a[1..] + b && (a + b)[0] == a[0];
      AcksConcat(a[1..], b);
    }
  }

  lemma {:induction false} ChunksSilent(key: string, data: seq<Byte>, failing: Option<Failure>)
    ensures forall i :: 0 <= i < |ChunkOps(key, data, failing)| ==> !ChunkOps(key, data, failing)[i].Report?
    decreases |data|
  {
    if data != [] && !FailsNow(failing) && |data| > CHUNK_SIZE {
      ChunksSilent(key, data[CHUNK_SIZE..], Later(failing));
    }
  }

  lemma {:induction false} NoReports(ops: seq<Op>)
    requires forall i :: 0 <= i < |ops| ==> !ops[i].Report?
    ensures Acks(ops) == []
  {
    if ops != [] {
      assert !ops[0].Report?;
      NoReports(ops[1..]);
    }
  }

  lemma TaskAcks(t: Task)
    ensures Acks(TaskOps(t)) == if t.Answer? then [Ack(t.id, t.ok, t.errClass)] else []
  {
    match t
    case Send(e, p, net) =>
      if ValidEndpoint(e) {
        ChunksSilent(EndpointKey(e), p.bytes, net.failing);
        NoReports(TaskOps(t));
      }
    case Answer(id, ok, c) =>
      assert TaskOps(t) == [Lock(SocketLock)] + [Report(id, ok, c)] + [Unlock(SocketLock)];
      AcksConcat([Lock(SocketLock)] + [Report(id, ok, c)], [Unlock(SocketLock)]);
      AcksConcat([Lock(SocketLock)], [Report(id, ok, c)]);
      NoReports([Lock(SocketLock)]);
      NoReports([Unlock(SocketLock)]);
      assert [Report(id, ok, c)][1..] == [];
    case _ =>
      NoReports(TaskOps(t));
  }

  function TaskAnswers(tasks: seq<Task>): seq<Ack> {
    if tasks == [] then []
    else (if tasks[0].Answer? then [Ack(tasks[0].id, tasks[0].ok, tasks[0].errClass)] else []) + TaskAnswers(tasks[1..])
  }

  lemma {:induction false} AcksOfTasks(tasks: seq<Task>)
    ensures Acks(OpsOf(tasks)) == TaskAnswers(tasks)
  {
    hide TaskOps;
    if tasks != [] {
      TaskAcks(tasks[0]);
      AcksConcat(TaskOps(tasks[0]), OpsOf(tasks[1..]));
      AcksOfTasks(tasks[1..]);
    }
  }

  lemma {:induction false} TaskAnswersConcat(a: seq<Task>, b: seq<Task>)
    ensures TaskAnswers(a + b) == TaskAnswers(a) + TaskAnswers(b)
  {
    if a == [] {
      assert a + b == b;
    } else {
      assert (a + b)[1..] == a[1..] + b && (a + b)[0] == a[0];
      TaskAnswersConcat(a[1..], b);
    }
  }

  /** The one answer a job gets, if it gets any. */
  function ExpectedAck(cache: Cache, job: Job): seq<Ack> {
    if !job.wantsAck || Abandoned(cache, job) then []
    else if JobOk(cache, job) then [Ack(job.id, true, "")]
    else [Ack(job.id, false, if job.rendered.None? then "format_error" else "print_error")]
  }

  lemma {:induction false} Unanswered(tasks: seq<Task>)
    requires forall i :: 0 <= i < |tasks| ==> !tasks[i].Answer?
    ensures TaskAnswers(tasks) == []
  {
    if tasks != [] {
      assert !tasks[0].Answer?;
      Unanswered(tasks[1..]);
    }
  }

  lemma AnsweredOnce(front: seq<Task>, job: Job, ok: bool, errClass: string)
    requires forall i :: 0 <= i < |front| ==> !front[i].Answer?
    ensures TaskAnswers(front + AnswerTasks(job, ok, errClass)) == if job.wantsAck then [Ack(job.id, ok, errClass)] else []
  {
    var answer := AnswerTasks(job, ok, errClass);
    Unanswered(front);
    TaskAnswersConcat(front, answer);
    if job.wantsAck {
      assert answer[1..] == [];
    }
  }

  lemma JobAcks(cache: Cache, job: Job)
    ensures TaskAnswers(HandleTasks(cache, job)) == ExpectedAck(cache, job)
  {
    hide TaskAnswers, SendOk, SlotKey;
    var plan, tasks := PlanOf(cache, job), HandleTasks(cache, job);
    if job.rendered.None? {
      assert [] + tasks == tasks;
      AnsweredOnce([], job, false, "format_error");
    } else {
      var front := if HasLogo(job) then [Consult(SlotOf(job))] else [];
      var receipt := [Send(EndpointOf(job), Receipt(job.id, job.rendered.value), job.env.receipt)];
      if plan.UploadFirst? {
        var up := [Send(EndpointOf(job), Upload(SlotOf(job), job.logo.value.hash, plan.bytes), job.env.upload)];
        if !UploadOk(job, plan.bytes) {
          assert tasks == (front + up) + AnswerTasks(job, false, "print_error");
          AnsweredOnce(front + up, job, false, "print_error");
        } else if job.env.cancelledInWait {
          Unanswered(tasks);
        } else {
          var sent := front + up + [Flash(SlotOf(job)), Pause(FLASH_SETTLE)] + receipt;
          PrintAcks(plan, job, sent, tasks);
        }
      } else {
        PrintAcks(plan, job, front + receipt, tasks);
      }
    }
  }

  lemma PrintAcks(plan: Plan, job: Job, sent: seq<Task>, tasks: seq<Task>)
    requires job.rendered.Some? && (plan.UploadFirst? ==> HasLogo(job))
    requires forall i :: 0 <= i < |sent| ==> !sent[i].Answer?
    requires tasks == sent + PrintTasks(plan, job)[1..]
    ensures TaskAnswers(tasks) ==
      if job.wantsAck then [Ack(job.id, ReceiptOk(job), if ReceiptOk(job) then "" else "print_error")] else []
  {
    if !ReceiptOk(job) {
      assert tasks == sent + AnswerTasks(job, false, "print_error");
      AnsweredOnce(sent, job, false, "print_error");
    } else {
      var save := if plan.UploadFirst? then [Save(SlotOf(job), job.logo.value.hash)] else [];
      assert tasks == (sent + save) + AnswerTasks(job, true, "");
      AnsweredOnce(sent + save, job, true, "");
    }
  }

  /** The answers the queue's jobs are due, in queue order. */
  function ExpectedAcks(cache: Cache, jobs: seq<Job>): seq<Ack>
    decreases |jobs|
  {
    if jobs == [] then [] else ExpectedAck(cache, jobs[0]) + ExpectedAcks(HandleCache(cache, jobs[0]), jobs[1..])
  }

  /** Exactly one ack per job with a callback, in queue order, except for a job abandoned during the flash wait. */
  lemma {:induction false} RunAcks(cache: Cache, jobs: seq<Job>)
    ensures Acks(OpsOf(RunTasks(cache, jobs))) == ExpectedAcks(cache, jobs)
    decreases |jobs|
  {
    hide HandleTasks, HandleCache, ExpectedAck, OpsOf;
    AcksOfTasks(RunTasks(cache, jobs));
    if jobs != [] {
      JobAcks(cache, jobs[0]);
      TaskAnswersConcat(HandleTasks(cache, jobs[0]), RunTasks(HandleCache(cache, jobs[0]), jobs[1..]));
      RunAcks(HandleCache(cache, jobs[0]), jobs[1..]);
      AcksOfTasks(RunTasks(HandleCache(cache, jobs[0]), jobs[1..]));
    }
  }

  // ----- what reaches the printer -----

  function Prelude(cache: Cache, job: Job): seq<Byte> {
    if PlanOf(cache, job).UploadFirst? then PlanOf(cache, job).bytes else []
  }

  lemma {:induction false} QuietTasks(key: string, tasks: seq<Task>)
    requires forall i :: 0 <= i < |tasks| ==> !tasks[i].Send?
    ensures Delivered(key, OpsOf(tasks)) == []
  {
    if tasks != [] {
      assert !tasks[0].Send?;
      QuietDelivers(key, TaskOps(tasks[0]));
      DeliveredConcat(key, TaskOps(tasks[0]), OpsOf(tasks[1..]));
      QuietTasks(key, tasks[1..]);
    }
  }

  lemma DeliveredTasks(key: string, a: seq<Task>, b: seq<Task>)
    ensures Delivered(key, OpsOf(a + b)) == Delivered(key, OpsOf(a)) + Delivered(key, OpsOf(b))
  {
    OpsOfConcat(a, b);
    DeliveredConcat(key, OpsOf(a), OpsOf(b));
  }

  lemma PrintDelivers(plan: Plan, job: Job)
    requires job.rendered.Some? && (plan.UploadFirst? ==> HasLogo(job))
    ensures var got := Delivered(EndpointKey(EndpointOf(job)), OpsOf(PrintTasks(plan, job)));
      got <= job.rendered.value && (ReceiptOk(job) ==> got == job.rendered.value)
  {
    hide TaskOps;
    var key, tasks := EndpointKey(EndpointOf(job)), PrintTasks(plan, job);
    assert tasks == [tasks[0]] + tasks[1..];
    DeliveredTasks(key, [tasks[0]], tasks[1..]);
    QuietTasks(key, tasks[1..]);
    OpsOfOne(tasks[0]);
    SendTask(EndpointOf(job), Receipt(job.id, job.rendered.value), job.env.receipt);
  }

  lemma SendTask(e: Endpoint, payload: Payload, net: Net)
    ensures var got := Delivered(EndpointKey(e), TaskOps(Send(e, payload, net)));
      got <= payload.bytes && (SendOk(e, payload.bytes, net) ==> got == payload.bytes)
  {
    SendDelivers(e, payload.bytes, net);
  }

  /**
   * What a job puts on its printer's wire is a prefix of the due logo upload followed by the rendered receipt, and
   * the whole of both when the answer is positive.
   */
  lemma JobDelivers(cache: Cache, job: Job)
    requires job.rendered.Some?
    ensures var got := Delivered(EndpointKey(EndpointOf(job)), OpsOf(HandleTasks(cache, job)));
      && got <= Prelude(cache, job) + job.rendered.value
      && (JobOk(cache, job) ==> got == Prelude(cache, job) + job.rendered.value)
  {
    hide TaskOps, PrintTasks, OpsOf, Delivered, SendOk;
    var key, plan := EndpointKey(EndpointOf(job)), PlanOf(cache, job);
    var front := if HasLogo(job) then [Consult(SlotOf(job))] else [];
    QuietTasks(key, front);
    DeliveredTasks(key, front, DeliverTasks(plan, job));
    PrintDelivers(plan, job);
    if plan.UploadFirst? {
      var up := Send(EndpointOf(job), Upload(SlotOf(job), job.logo.value.hash, plan.bytes), job.env.upload);
      SendTask(EndpointOf(job), up.payload, up.net);
      OpsOfOne(up);
      if UploadOk(job, plan.bytes) && !job.env.cancelledInWait {
        var wait := [Flash(SlotOf(job)), Pause(FLASH_SETTLE)];
        assert DeliverTasks(plan, job) == [up] + (wait + PrintTasks(plan, job));
        DeliveredTasks(key, [up], wait + PrintTasks(plan, job));
        DeliveredTasks(key, wait, PrintTasks(plan, job));
        QuietTasks(key, wait);
      } else {
        var rest := DeliverTasks(plan, job)[1..];
        assert DeliverTasks(plan, job) == [up] + rest;
        DeliveredTasks(key, [up], rest);
        QuietTasks(key, rest);
      }
    }
  }
}
