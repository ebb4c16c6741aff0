/** Where a job's bytes go, in the job's own terms. */
module Destinations {
  import opened Basics
  import opened Keys
  import opened Ops
  import opened Transport
  import opened Tasks
  import opened Spooling
  import opened AckOrder
  import Interleaving
  import SharedPrinters

  /** A logo upload is due: a hash that is not the one cached for the slot, and an image that decodes to something. */
  predicate UploadDue(cache: Cache, job: Job) {
    job.logo.Some? &&
    var ref, port := job.logo.value, if job.port == 0 then 9100 else job.port;
    var key := job.addr + ":" + Decimal.Print(port) + "|" + Decimal.Print(ref.slot);
    ref.hash != "" && ref.image.Decoded? && ref.image.bytes != [] && !(key in cache && cache[key] == ref.hash)
  }

  /** What a rendered job's printer is due. */
  function Due(cache: Cache, job: Job): seq<Byte>
    requires job.rendered.Some?
  {
    (if UploadDue(cache, job) then job.logo.value.image.bytes else []) + job.rendered.value
  }

  /** The upload, when due, and the receipt go through, and the context lives through the wait between them. */
  predicate AllThrough(cache: Cache, job: Job) {
    var home := Endpoint(job.addr, if job.port == 0 then 9100 else job.port);
    && job.rendered.Some? && SendOk(home, job.rendered.value, job.env.receipt)
    && (UploadDue(cache, job) ==> SendOk(home, job.logo.value.image.bytes, job.env.upload) && !job.env.cancelledInWait)
  }

  /** What one endpoint gets of a job: nothing unless it is the job's own, where port 0 stands for 9100. */
  predicate Share(cache: Cache, job: Job, e: Endpoint, got: seq<Byte>) {
    if job.rendered.Some? && e.addr == job.addr && e.port == (if job.port == 0 then 9100 else job.port) then
      got <= Due(cache, job) && (AllThrough(cache, job) ==> got == Due(cache, job))
    else got == []
  }

  /** The job's plan, task by task, in its own terms. */
  predicate Own(job: Job, t: Task) {
    var home := Endpoint(job.addr, if job.port == 0 then 9100 else job.port);
    match t
    case Send(e, Receipt(id, bytes), net) => e == home && id == job.id && job.rendered == Some(bytes) && net == job.env.receipt
    case Send(e, Upload(slot, hash, bytes), net) =>
      && e == home && job.logo.Some? && slot == SlotId(home, job.logo.value.slot) && hash == job.logo.value.hash
      && job.logo.value.image == Decoded(bytes) && net == job.env.upload
    case Send(_, Raw(_), _) => false
    case Consult(slot) => job.logo.Some? && slot == SlotId(home, job.logo.value.slot)
    case Save(slot, hash) => job.logo.Some? && slot == SlotId(home, job.logo.value.slot) && hash == job.logo.value.hash
    case Flash(slot) => job.logo.Some? && slot == SlotId(home, job.logo.value.slot)
    case Answer(id, _, _) => job.wantsAck && id == job.id
    case Pause(ms) => ms == 4000
    case _ => false
  }

  lemma PlanInOwnTerms(cache: Cache, job: Job)
    ensures EndpointOf(job) == Endpoint(job.addr, if job.port == 0 then 9100 else job.port)
    ensures PlanOf(cache, job).UploadFirst? <==> UploadDue(cache, job)
    ensures PlanOf(cache, job).UploadFirst? ==> HasLogo(job)
    ensures UploadDue(cache, job) ==> PlanOf(cache, job).bytes == job.logo.value.image.bytes
  {
    if HasLogo(job) {
      var e := EndpointOf(job);
      assert SlotKey(SlotOf(job)) == job.addr + ":" + Decimal.Print(e.port) + "|" + Decimal.Print(job.logo.value.slot);
    }
  }

  predicate AllOwn(job: Job, tasks: seq<Task>) {
    forall i :: 0 <= i < |tasks| ==> Own(job, tasks[i])
  }

  predicate HasUpload(tasks: seq<Task>) {
    exists i :: 0 <= i < |tasks| && tasks[i].Send? && tasks[i].payload.Upload?
  }

  lemma PrintsOwn(plan: Plan, job: Job)
    requires job.rendered.Some? && (plan.UploadFirst? ==> HasLogo(job))
    ensures AllOwn(job, PrintTasks(plan, job)) && !HasUpload(PrintTasks(plan, job))
  {
    hide ReceiptOk;
  }

  lemma OwnConcat(job: Job, a: seq<Task>, b: seq<Task>)
    requires AllOwn(job, a) && AllOwn(job, b)
    ensures AllOwn(job, a + b) && (HasUpload(a + b) <==> HasUpload(a) || HasUpload(b))
  {
    hide Own;
    var c := a + b;
    if HasUpload(a) {
      var i :| 0 <= i < |a| && a[i].Send? && a[i].payload.Upload?;
      assert c[i] == a[i];
    }
    if HasUpload(b) {
      var i :| 0 <= i < |b| && b[i].Send? && b[i].payload.Upload?;
      assert c[|a| + i] == b[i];
    }
  }

  lemma DeliversOwn(cache: Cache, job: Job)
    requires job.rendered.Some?
    ensures AllOwn(job, DeliverTasks(PlanOf(cache, job), job))
    ensures HasUpload(DeliverTasks(PlanOf(cache, job), job)) <==> UploadDue(cache, job)
  {
    var plan := PlanOf(cache, job);
    PlanInOwnTerms(cache, job);
    hide PrintTasks, SlotKey, UploadDue, CacheHit, UploadOk;
    PrintsOwn(plan, job);
    if plan.UploadFirst? {
      var tasks := DeliverTasks(plan, job);
      var up := [Send(EndpointOf(job), Upload(SlotOf(job), job.logo.value.hash, plan.bytes), job.env.upload)];
      assert up[0].payload.Upload? && AllOwn(job, up) && HasUpload(up);
      var rest :=
        if !UploadOk(job, plan.bytes) then AnswerTasks(job, false, "print_error")
        else if job.env.cancelledInWait then [Flash(SlotOf(job))]
        else [Flash(SlotOf(job)), Pause(FLASH_SETTLE)];
      assert AllOwn(job, rest);
      OwnConcat(job, up, rest);
      assert tasks == if UploadOk(job, plan.bytes) && !job.env.cancelledInWait then up + rest + PrintTasks(plan, job) else up + rest;
      OwnConcat(job, up + rest, PrintTasks(plan, job));
    }
  }

  /** Everything a job does is for its own printer, its own slot and its own id; an upload is done exactly when due. */
  lemma TasksAreOwn(cache: Cache, job: Job)
    ensures AllOwn(job, HandleTasks(cache, job))
    ensures HasUpload(HandleTasks(cache, job)) <==> job.rendered.Some? && UploadDue(cache, job)
  {
    hide SlotKey, DeliverTasks, UploadDue, PlanOf;
    PlanInOwnTerms(cache, job);
    if job.rendered.Some? {
      DeliversOwn(cache, job);
      var consult := if HasLogo(job) then [Consult(SlotOf(job))] else [];
      assert AllOwn(job, consult) && !HasUpload(consult);
      OwnConcat(job, consult, DeliverTasks(PlanOf(cache, job), job));
    }
  }

  lemma OkInOwnTerms(cache: Cache, job: Job)
    ensures JobOk(cache, job) <==> AllThrough(cache, job)
    ensures Abandoned(cache, job) <==> Dropped(cache, job)
  {
    hide SendOk, UploadDue, SlotKey;
    PlanInOwnTerms(cache, job);
  }

  /** The upload was due and went through, and the context ended in the wait after it. */
  predicate Dropped(cache: Cache, job: Job) {
    var home := Endpoint(job.addr, if job.port == 0 then 9100 else job.port);
    && job.rendered.Some? && UploadDue(cache, job)
    && SendOk(home, job.logo.value.image.bytes, job.env.upload) && job.env.cancelledInWait
  }

  /**
   * A job that wants an answer gets one, unless it was dropped: yes if all went through, format_error if it could not be
   * rendered, print_error otherwise. The cache gets the uploaded hash if and only if all went through.
   */
  lemma AnsweredInOwnTerms(cache: Cache, job: Job)
    ensures Acks(OpsOf(HandleTasks(cache, job))) ==
      if !job.wantsAck || Dropped(cache, job) then []
      else if AllThrough(cache, job) then [Ack(job.id, true, "")]
      else [Ack(job.id, false, if job.rendered.None? then "format_error" else "print_error")]
    ensures HandleCache(cache, job) ==
      if UploadDue(cache, job) && AllThrough(cache, job) then
        var port := if job.port == 0 then 9100 else job.port;
        cache[job.addr + ":" + Decimal.Print(port) + "|" + Decimal.Print(job.logo.value.slot) := job.logo.value.hash]
      else cache
  {
    OkInOwnTerms(cache, job);
    AcksOfTasks(HandleTasks(cache, job));
    JobAcks(cache, job);
    PlanInOwnTerms(cache, job);
    if PlanOf(cache, job).UploadFirst? {
      var e := EndpointOf(job);
      assert SlotKey(SlotOf(job)) == job.addr + ":" + Decimal.Print(e.port) + "|" + Decimal.Print(job.logo.value.slot);
    }
    hide UploadDue, AllThrough, Dropped, Abandoned, JobOk, SlotKey, Acks, TaskAnswers, OpsOf, HandleTasks, PlanOf;
  }

  datatype Step = Consults | Uploads | Notes | Waits | Sends | Commits | Answers | Other

  function StepOf(t: Task): Step {
    match t
    case Consult(_) => Consults
    case Send(_, Upload(_, _, _), _) => Uploads
    case Flash(_) => Notes
    case Pause(_) => Waits
    case Send(_, Receipt(_, _), _) => Sends
    case Save(_, _) => Commits
    case Answer(_, _, _) => Answers
    case _ => Other
  }

  function Steps(tasks: seq<Task>): seq<Step> {
    seq(|tasks|, i requires 0 <= i < |tasks| => StepOf(tasks[i]))
  }

  lemma StepsConcat(a: seq<Task>, b: seq<Task>)
    ensures Steps(a + b) == Steps(a) + Steps(b)
  {
    hide StepOf;
  }

  lemma PrintSteps(plan: Plan, job: Job)
    requires job.rendered.Some? && (plan.UploadFirst? ==> HasLogo(job))
    ensures Steps(PrintTasks(plan, job)) ==
      [Sends] + (if plan.UploadFirst? && ReceiptOk(job) then [Commits] else []) + if job.wantsAck then [Answers] else []
  {
    hide ReceiptOk;
  }

  lemma DeliverSteps(plan: Plan, job: Job)
    requires job.rendered.Some? && (plan.UploadFirst? ==> HasLogo(job))
    ensures Steps(DeliverTasks(plan, job)) ==
      if !plan.UploadFirst? then Steps(PrintTasks(plan, job))
      else if !UploadOk(job, plan.bytes) then [Uploads] + if job.wantsAck then [Answers] else []
      else if job.env.cancelledInWait then [Uploads, Notes]
      else [Uploads, Notes, Waits] + Steps(PrintTasks(plan, job))
  {
    hide UploadOk, PrintTasks;
  }

  /**
   * The steps of a job, in order: the cache is consulted for a logo with a hash; a due upload is made, noted and waited
   * for; the receipt is sent; an upload is committed only after its receipt; the answer comes last.
   */
  lemma StepByStep(cache: Cache, job: Job)
    ensures var home := Endpoint(job.addr, if job.port == 0 then 9100 else job.port);
      var consults := if job.logo.Some? && job.logo.value.hash != "" then [Consults] else [];
      var answers := if job.wantsAck then [Answers] else [];
      Steps(HandleTasks(cache, job)) ==
        if job.rendered.None? then answers
        else
          var sent := SendOk(home, job.rendered.value, job.env.receipt);
          if !UploadDue(cache, job) then consults + [Sends] + answers
          else if !SendOk(home, job.logo.value.image.bytes, job.env.upload) then consults + [Uploads] + answers
          else if job.env.cancelledInWait then consults + [Uploads, Notes]
          else if sent then consults + [Uploads, Notes, Waits, Sends, Commits] + answers
          else consults + [Uploads, Notes, Waits, Sends] + answers
  {
    PlanInOwnTerms(cache, job);
    var plan := PlanOf(cache, job);
    if job.rendered.Some? {
      DeliverSteps(plan, job);
      PrintSteps(plan, job);
      var consult := if HasLogo(job) then [Consult(SlotOf(job))] else [];
      StepsConcat(consult, DeliverTasks(plan, job));
      hide UploadDue, PlanOf, DeliverTasks, PrintTasks, SendOk;
    }
  }

  lemma {:induction false} TasksElsewhere(key: string, tasks: seq<Task>)
    requires forall i :: 0 <= i < |tasks| ==> (tasks[i].Send? ==> EndpointKey(tasks[i].e) != key)
    ensures Delivered(key, OpsOf(tasks)) == []
  {
    hide EndpointKey, Delivered, SendOps;
    if tasks == [] {
      QuietDelivers(key, []);
    } else {
      var t := tasks[0];
      TasksElsewhere(key, tasks[1..]);
      DeliveredConcat(key, TaskOps(t), OpsOf(tasks[1..]));
      if t.Send? {
        ElsewhereQuiet(key, t.e, t.payload.bytes, t.net);
      } else {
        QuietDelivers(key, TaskOps(t));
      }
    }
  }

  /** The printer at the job's address gets what the job is due, and no other endpoint gets a byte of it. */
  lemma JobGoesHome(cache: Cache, job: Job, e: Endpoint)
    ensures Share(cache, job, e, Delivered(EndpointKey(e), OpsOf(HandleTasks(cache, job))))
  {
    hide Delivered, OpsOf, HandleTasks, EndpointKey, SendOk, UploadDue, SlotKey, JobOk, AllThrough;
    PlanInOwnTerms(cache, job);
    OkInOwnTerms(cache, job);
    var home := EndpointOf(job);
    if job.rendered.Some? && e == home {
      JobDelivers(cache, job);
      assert Prelude(cache, job) + job.rendered.value == Due(cache, job);
    } else {
      var tasks := HandleTasks(cache, job);
      TasksAreOwn(cache, job);
      EndpointKeyInjective(e, home);
      forall i | 0 <= i < |tasks|
        ensures tasks[i].Send? ==> EndpointKey(tasks[i].e) != EndpointKey(e)
      {
        assert Own(job, tasks[i]);
      }
      TasksElsewhere(EndpointKey(e), tasks);
    }
  }

  /** Of a run, an endpoint gets the shares of the jobs in queue order. */
  lemma {:induction false} RunGoesHome(cache: Cache, jobs: seq<Job>, e: Endpoint) returns (shares: seq<seq<Byte>>)
    ensures |shares| == |jobs| && Delivered(EndpointKey(e), OpsOf(RunTasks(cache, jobs))) == Concat(shares)
    ensures forall k :: 0 <= k < |jobs| ==> Share(RunCache(cache, jobs[..k]), jobs[k], e, shares[k])
    decreases |jobs|
  {
    hide HandleTasks, HandleCache, Delivered, OpsOf, EndpointKey, Share;
    var key := EndpointKey(e);
    if jobs == [] {
      shares := [];
      assert OpsOf([]) == [] by { NoTasks(); }
      QuietDelivers(key, []);
    } else {
      var cache', first := HandleCache(cache, jobs[0]), HandleTasks(cache, jobs[0]);
      var more := RunGoesHome(cache', jobs[1..], e);
      JobGoesHome(cache, jobs[0], e);
      DeliveredTasks(key, first, RunTasks(cache', jobs[1..]));
      shares := [Delivered(key, OpsOf(first))] + more;
      assert shares[1..] == more;
      forall k | 0 <= k < |jobs|
        ensures Share(RunCache(cache, jobs[..k]), jobs[k], e, shares[k])
      {
        if k > 0 {
          assert jobs[..k][1..] == jobs[1..][..k - 1] && jobs[..k][0] == jobs[0];
          assert RunCache(cache, jobs[..k]) == RunCache(cache', jobs[1..][..k - 1]);
        } else {
          assert jobs[..0] == [];
        }
      }
    }
  }

  lemma NoTasks()
    ensures OpsOf([]) == []
  {
  }

  /** Whatever the other goroutines do, what the spooler has written to an endpoint so far begins these shares. */
  lemma SpoolerGoesHome(s: Interleaving.System, e: Endpoint) returns (shares: seq<seq<Byte>>)
    requires Interleaving.Inv(s)
    ensures s.procs != [] && |shares| == |s.taken| && Delivered(EndpointKey(e), s.procs[0].past) <= Concat(shares)
    ensures forall k :: 0 <= k < |s.taken| ==> Share(RunCache(map[], s.taken[..k]), s.taken[k], e, shares[k])
  {
    assert s.procs != [] by { assert Interleaving.SpoolerOk(s); }
    hide Interleaving.Inv, Delivered, OpsOf, EndpointKey, Share, RunTasks, RunCache, Concat;
    shares := RunGoesHome(map[], s.taken, e);
    SharedPrinters.SpoolerTranscript(s);
    DeliveredPrefix(EndpointKey(e), s.procs[0].past, OpsOf(RunTasks(map[], s.taken)));
  }

  lemma DeliveredPrefix(key: string, past: seq<Op>, all: seq<Op>)
    requires past <= all
    ensures Delivered(key, past) <= Delivered(key, all)
  {
    assert all == past + all[|past|..];
    DeliveredConcat(key, past, all[|past|..]);
  }
}
