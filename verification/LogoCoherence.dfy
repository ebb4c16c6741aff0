/**
 * The logo cache against the printers it describes. The devices are modelled: an upload that arrives whole leaves its
 * image in its own slot and touches no other, one that arrives in part leaves the slot torn, and a hash determines
 * the image. Keys that name different slots are different strings (Keys.SlotKeyInjective).
 */
module LogoCoherence {
  import opened Basics
  import opened Keys
  import opened Ops
  import opened Transport
  import opened Tasks
  import opened Spooling

  datatype Content = Blank | Holds(hash: string) | Torn

  type Devices = map<SlotId, Content>

  function Look(dev: Devices, id: SlotId): Content {
    if id in dev then dev[id] else Blank
  }

  function AfterTask(dev: Devices, t: Task): Devices {
    if t.Send? && t.payload.Upload? then
      var got := Contribution(t.e, t.payload.bytes, t.net);
      if got == [] then dev
      else dev[t.payload.slot := if got == t.payload.bytes then Holds(t.payload.hash) else Torn]
    else dev
  }

  function AfterTasks(dev: Devices, tasks: seq<Task>): Devices
    decreases |tasks|
  {
    if tasks == [] then dev else AfterTasks(AfterTask(dev, tasks[0]), tasks[1..])
  }

  /** Slots written to since the last commit of their cache entry: a record of the run, not of the devices. */
  function DirtyAfterTask(dirty: set<SlotId>, t: Task): set<SlotId> {
    match t
    case Send(e, Upload(slot, _, bytes), net) => if Contribution(e, bytes, net) == [] then dirty else dirty + {slot}
    case Save(slot, _) => dirty - {slot}
    case _ => dirty
  }

  function DirtyAfter(dirty: set<SlotId>, tasks: seq<Task>): set<SlotId>
    decreases |tasks|
  {
    if tasks == [] then dirty else DirtyAfter(DirtyAfterTask(dirty, tasks[0]), tasks[1..])
  }

  /** A cached slot holds the cached image exactly when it is not dirty. */
  ghost predicate Coherent(cache: Cache, dev: Devices, dirty: set<SlotId>) {
    forall id: SlotId {:trigger SlotKey(id)} :: SlotKey(id) in cache ==>
      (Look(dev, id) == Holds(cache[SlotKey(id)]) <==> id !in dirty)
  }

  // ----- folding over the tasks of a job -----

  lemma {:induction false} AfterConcat(dev: Devices, dirty: set<SlotId>, a: seq<Task>, b: seq<Task>)
    ensures AfterTasks(dev, a + b) == AfterTasks(AfterTasks(dev, a), b)
    ensures DirtyAfter(dirty, a + b) == DirtyAfter(DirtyAfter(dirty, a), b)
    decreases |a|
  {
    hide AfterTask, DirtyAfterTask;
    if a == [] {
      assert a + b == b;
    } else {
      assert (a + b)[1..] == a[1..] + b;
      AfterConcat(AfterTask(dev, a[0]), DirtyAfterTask(dirty, a[0]), a[1..], b);
    }
  }

  lemma AfterOne(dev: Devices, dirty: set<SlotId>, t: Task)
    ensures AfterTasks(dev, [t]) == AfterTask(dev, t)
    ensures DirtyAfter(dirty, [t]) == DirtyAfterTask(dirty, t)
  {
    hide AfterTask, DirtyAfterTask;
    assert [t][1..] == [];
  }

  /** Neither an upload nor a cache update. */
  predicate Neutral(t: Task) {
    !(t.Send? && t.payload.Upload?) && !t.Save?
  }

  lemma {:induction false} NeutralKeeps(dev: Devices, dirty: set<SlotId>, tasks: seq<Task>)
    requires forall i :: 0 <= i < |tasks| ==> Neutral(tasks[i])
    ensures AfterTasks(dev, tasks) == dev && DirtyAfter(dirty, tasks) == dirty
  {
    if tasks != [] {
      assert Neutral(tasks[0]);
      NeutralKeeps(dev, dirty, tasks[1..]);
    }
  }

  /** The only two places where a job's tasks touch a slot or an entry. */
  lemma PrintAfter(plan: Plan, job: Job, dev: Devices, dirty: set<SlotId>)
    requires job.rendered.Some? && (plan.UploadFirst? ==> HasLogo(job))
    ensures AfterTasks(dev, PrintTasks(plan, job)) == dev
    ensures DirtyAfter(dirty, PrintTasks(plan, job))
         == if plan.UploadFirst? && ReceiptOk(job) then dirty - {SlotOf(job)} else dirty
  {
    var send := [Send(EndpointOf(job), Receipt(job.id, job.rendered.value), job.env.receipt)];
    var answer := AnswerTasks(job, ReceiptOk(job), if ReceiptOk(job) then "" else "print_error");
    NeutralKeeps(dev, dirty, send);
    if plan.UploadFirst? && ReceiptOk(job) {
      var save := [Save(SlotOf(job), job.logo.value.hash)];
      assert PrintTasks(plan, job) == send + (save + answer);
      AfterConcat(dev, dirty, send, save + answer);
      AfterConcat(dev, dirty, save, answer);
      AfterOne(dev, dirty, save[0]);
      NeutralKeeps(dev, dirty - {SlotOf(job)}, answer);
    } else {
      assert PrintTasks(plan, job) == send + answer;
      NeutralKeeps(dev, dirty, send + answer);
    }
  }

  /** Effect of one job on the devices and on the dirty set. */
  function JobDevices(cache: Cache, job: Job, dev: Devices): Devices {
    AfterTasks(dev, HandleTasks(cache, job))
  }

  function JobDirty(cache: Cache, job: Job, dirty: set<SlotId>): set<SlotId> {
    DirtyAfter(dirty, HandleTasks(cache, job))
  }

  function UploadTask(job: Job, bytes: seq<Byte>): Task
    requires HasLogo(job)
  {
    Send(EndpointOf(job), Upload(SlotOf(job), job.logo.value.hash, bytes), job.env.upload)
  }

  lemma WithoutUpload(cache: Cache, job: Job, dev: Devices, dirty: set<SlotId>)
    requires job.rendered.None? || !PlanOf(cache, job).UploadFirst?
    ensures JobDevices(cache, job, dev) == dev && JobDirty(cache, job, dirty) == dirty
  {
    var tasks := HandleTasks(cache, job);
    if job.rendered.None? {
      NeutralKeeps(dev, dirty, tasks);
    } else {
      var consult := if HasLogo(job) then [Consult(SlotOf(job))] else [];
      NeutralKeeps(dev, dirty, consult);
      AfterConcat(dev, dirty, consult, PrintTasks(PlanOf(cache, job), job));
      PrintAfter(PlanOf(cache, job), job, dev, dirty);
    }
  }

  lemma WithUpload(cache: Cache, job: Job, dev: Devices, dirty: set<SlotId>)
    requires job.rendered.Some? && PlanOf(cache, job).UploadFirst?
    ensures var up := UploadTask(job, PlanOf(cache, job).bytes);
      && JobDevices(cache, job, dev) == AfterTask(dev, up)
      && JobDirty(cache, job, dirty)
         == DirtyAfterTask(dirty, up) - if JobOk(cache, job) then {SlotOf(job)} else {}
  {
    var plan := PlanOf(cache, job);
    var up := UploadTask(job, plan.bytes);
    var consult, upload := [Consult(SlotOf(job))], [up];
    var rest :=
      if !UploadOk(job, plan.bytes) then AnswerTasks(job, false, "print_error")
      else if job.env.cancelledInWait then [Flash(SlotOf(job))]
      else [Flash(SlotOf(job)), Pause(FLASH_SETTLE)] + PrintTasks(plan, job);
    assert HandleTasks(cache, job) == consult + (upload + rest);
    NeutralKeeps(dev, dirty, consult);
    AfterConcat(dev, dirty, consult, upload + rest);
    AfterConcat(dev, dirty, upload, rest);
    AfterOne(dev, dirty, up);
    var dev', dirty' := AfterTask(dev, up), DirtyAfterTask(dirty, up);
    if UploadOk(job, plan.bytes) && !job.env.cancelledInWait {
      var wait := [Flash(SlotOf(job)), Pause(FLASH_SETTLE)];
      NeutralKeeps(dev', dirty', wait);
      AfterConcat(dev', dirty', wait, PrintTasks(plan, job));
      PrintAfter(plan, job, dev', dirty');
    } else {
      NeutralKeeps(dev', dirty', rest);
    }
  }

  /** Every job keeps the cache coherent, whatever fails and whenever it is cancelled. */
  lemma JobCoherent(cache: Cache, job: Job, dev: Devices, dirty: set<SlotId>)
    requires Coherent(cache, dev, dirty)
    ensures Coherent(HandleCache(cache, job), JobDevices(cache, job, dev), JobDirty(cache, job, dirty))
  {
    if job.rendered.None? || !PlanOf(cache, job).UploadFirst? {
      WithoutUpload(cache, job, dev, dirty);
    } else {
      WithUpload(cache, job, dev, dirty);
      UploadCoherent(cache, job, dev, dirty);
    }
  }

  lemma UploadCoherent(cache: Cache, job: Job, dev: Devices, dirty: set<SlotId>)
    requires job.rendered.Some? && PlanOf(cache, job).UploadFirst?
    requires Coherent(cache, dev, dirty)
    ensures var up := UploadTask(job, PlanOf(cache, job).bytes);
      Coherent(HandleCache(cache, job), AfterTask(dev, up), DirtyAfterTask(dirty, up) - if JobOk(cache, job) then {SlotOf(job)} else {})
  {
    var slot, bytes := SlotOf(job), PlanOf(cache, job).bytes;
    var up := UploadTask(job, bytes);
    var cache', dev' := HandleCache(cache, job), AfterTask(dev, up);
    var dirty' := DirtyAfterTask(dirty, up) - if JobOk(cache, job) then {slot} else {};
    SendDelivers(EndpointOf(job), bytes, job.env.upload);
    forall id: SlotId | SlotKey(id) in cache'
      ensures Look(dev', id) == Holds(cache'[SlotKey(id)]) <==> id !in dirty'
    {
      SlotKeyInjective(id, slot);
      if id == slot && !JobOk(cache, job) {
        assert cache[SlotKey(id)] != job.logo.value.hash;
      }
    }
  }

  // ----- whole runs -----

  lemma {:induction false} RunCoherent(cache: Cache, jobs: seq<Job>, dev: Devices, dirty: set<SlotId>)
    requires Coherent(cache, dev, dirty)
    ensures Coherent(RunCache(cache, jobs), AfterTasks(dev, RunTasks(cache, jobs)), DirtyAfter(dirty, RunTasks(cache, jobs)))
    decreases |jobs|
  {
    if jobs != [] {
      JobCoherent(cache, jobs[0], dev, dirty);
      AfterConcat(dev, dirty, HandleTasks(cache, jobs[0]), RunTasks(HandleCache(cache, jobs[0]), jobs[1..]));
      RunCoherent(HandleCache(cache, jobs[0]), jobs[1..], JobDevices(cache, jobs[0], dev), JobDirty(cache, jobs[0], dirty));
    }
  }

  /** A fresh spooler knows nothing, so whatever the printers hold, every run from it is coherent throughout. */
  lemma FreshRunCoherent(jobs: seq<Job>, dev: Devices)
    ensures forall n :: 0 <= n <= |jobs| ==>
      Coherent(RunCache(map[], jobs[..n]), AfterTasks(dev, RunTasks(map[], jobs[..n])), DirtyAfter({}, RunTasks(map[], jobs[..n])))
  {
    forall n | 0 <= n <= |jobs|
      ensures Coherent(RunCache(map[], jobs[..n]), AfterTasks(dev, RunTasks(map[], jobs[..n])), DirtyAfter({}, RunTasks(map[], jobs[..n])))
    {
      RunCoherent(map[], jobs[..n], dev, {});
    }
  }

  /** What is in the printers when the job's receipt goes out. */
  function AtReceipt(dev: Devices, tasks: seq<Task>): Devices
    decreases |tasks|
  {
    if tasks == [] || (tasks[0].Send? && tasks[0].payload.Receipt?) then dev
    else AtReceipt(AfterTask(dev, tasks[0]), tasks[1..])
  }

  /** The device state at the receipt is the one the whole job leaves behind. */
  lemma ReceiptSees(cache: Cache, job: Job, dev: Devices)
    requires JobOk(cache, job)
    ensures AtReceipt(dev, HandleTasks(cache, job)) == JobDevices(cache, job, dev)
  {
    var plan := PlanOf(cache, job);
    var printing := PrintTasks(plan, job);
    var front := if HasLogo(job) then [Consult(SlotOf(job))] else [];
    assert printing[0] == Send(EndpointOf(job), Receipt(job.id, job.rendered.value), job.env.receipt);
    if plan.UploadFirst? {
      var up := UploadTask(job, plan.bytes);
      var all := front + [up, Flash(SlotOf(job)), Pause(FLASH_SETTLE)];
      assert HandleTasks(cache, job) == all + printing;
      WithUpload(cache, job, dev, {});
      AtReceiptAfter(dev, all, printing);
      assert all[1..] == [up, Flash(SlotOf(job)), Pause(FLASH_SETTLE)];
      assert all[1..][1..] == [Flash(SlotOf(job)), Pause(FLASH_SETTLE)];
      NeutralKeeps(AfterTask(dev, up), {}, all[1..][1..]);
      assert AfterTasks(dev, all) == AfterTask(dev, up);
    } else {
      WithoutUpload(cache, job, dev, {});
      AtReceiptAfter(dev, front, printing);
      NeutralKeeps(dev, {}, front);
    }
  }

  lemma {:induction false} AtReceiptAfter(dev: Devices, front: seq<Task>, printing: seq<Task>)
    requires printing != [] && printing[0].Send? && printing[0].payload.Receipt?
    requires forall i :: 0 <= i < |front| ==> !(front[i].Send? && front[i].payload.Receipt?)
    ensures AtReceipt(dev, front + printing) == AfterTasks(dev, front)
    decreases |front|
  {
    hide AfterTask;
    if front == [] {
      assert front + printing == printing;
    } else {
      assert (front + printing)[1..] == front[1..] + printing && (front + printing)[0] == front[0];
      AtReceiptAfter(AfterTask(dev, front[0]), front[1..], printing);
    }
  }

  /**
   * A job that was acked as printed, with a logo that is cached or can be uploaded, printed with its own image in its
   * slot if and only if it was not answered from a dirty cache entry.
   */
  lemma PrintedLogo(cache: Cache, job: Job, dev: Devices, dirty: set<SlotId>)
    requires Coherent(cache, dev, dirty)
    requires JobOk(cache, job) && HasLogo(job) && (CacheHit(cache, job) || HasImage(job))
    ensures Look(AtReceipt(dev, HandleTasks(cache, job)), SlotOf(job)) == Holds(job.logo.value.hash)
       <==> !(CacheHit(cache, job) && SlotOf(job) in dirty)
  {
    ReceiptSees(cache, job, dev);
    if CacheHit(cache, job) {
      WithoutUpload(cache, job, dev, dirty);
    } else {
      WithUpload(cache, job, dev, dirty);
      SendDelivers(EndpointOf(job), PlanOf(cache, job).bytes, job.env.upload);
    }
  }

  /** The same, for job number n of any run of a fresh spooler. */
  lemma PrintedLogoInRun(jobs: seq<Job>, n: nat, dev: Devices)
    requires n < |jobs|
    requires var cache := RunCache(map[], jobs[..n]);
      JobOk(cache, jobs[n]) && HasLogo(jobs[n]) && (CacheHit(cache, jobs[n]) || HasImage(jobs[n]))
    ensures var cache, past := RunCache(map[], jobs[..n]), RunTasks(map[], jobs[..n]);
      Look(AtReceipt(AfterTasks(dev, past), HandleTasks(cache, jobs[n])), SlotOf(jobs[n])) == Holds(jobs[n].logo.value.hash)
      <==> !(CacheHit(cache, jobs[n]) && SlotOf(jobs[n]) in DirtyAfter({}, past))
  {
    FreshRunCoherent(jobs, dev);
    var past := RunTasks(map[], jobs[..n]);
    PrintedLogo(RunCache(map[], jobs[..n]), jobs[n], AfterTasks(dev, past), DirtyAfter({}, past));
  }

  // ----- the run that goes wrong -----

  const CLEAR := Net(false, true, None)
  const REFUSED := Net(false, false, None)

  function LogoJob(hash: string, receipt: Net): Job {
    Job("job", "10.0.0.9", 9100, Some(Ascii("receipt")), Some(LogoRef(1, hash, Decoded(Ascii(hash)))), true, JobEnv(CLEAR, false, receipt))
  }

  /**
   * "a" is printed; the upload of "b" succeeds but its receipt cannot be sent; then "a" is sent again: it is acked as
   * printed without an upload, while the slot holds "b".
   */
  lemma StaleLogoRun()
    ensures var jobs := [LogoJob("a", CLEAR), LogoJob("b", REFUSED), LogoJob("a", CLEAR)];
      var cache, past := RunCache(map[], jobs[..2]), RunTasks(map[], jobs[..2]);
      && JobOk(cache, jobs[2])
      && Answer("job", true, "") in HandleTasks(cache, jobs[2])
      && Look(AtReceipt(AfterTasks(map[], past), HandleTasks(cache, jobs[2])), SlotOf(jobs[2])) == Holds("b")
  {
    hide AtReceipt, AfterTasks, RunTasks, RunCache, Delivered, SendOps, SlotKey, Look;
    var a, b := LogoJob("a", CLEAR), LogoJob("b", REFUSED);
    var jobs := [a, b, a];
    assert jobs[..2] == [a, b] && Ascii("a") != [] && a.rendered == Some(Ascii("receipt"));
    FirstTwo(a, b);
    var cache, dev := RunCache(map[], [a, b]), AfterTasks(map[], RunTasks(map[], [a, b]));
    ReceiptSees(cache, a, dev);
    WithoutUpload(cache, a, dev, {});
    var tasks := HandleTasks(cache, a);
    assert tasks == [Consult(SlotOf(a)), Send(EndpointOf(a), Receipt("job", Ascii("receipt")), CLEAR), Answer("job", true, "")];
  }

  lemma FirstTwo(a: Job, b: Job)
    requires a == LogoJob("a", CLEAR) && b == LogoJob("b", REFUSED)
    ensures RunCache(map[], [a, b]) == map[SlotKey(SlotOf(a)) := "a"]
    ensures Look(AfterTasks(map[], RunTasks(map[], [a, b])), SlotOf(a)) == Holds("b")
  {
    hide AtReceipt, AfterTasks, RunTasks, RunCache, Delivered, SendOps, SlotKey;
    assert Ascii("a") != [] && Ascii("b") != [];
    SendDelivers(EndpointOf(b), Ascii("b"), CLEAR);
    var cache := map[SlotKey(SlotOf(a)) := "a"];
    assert HandleCache(map[], a) == cache && HandleCache(cache, b) == cache;
    var first := AfterTask(map[], UploadTask(a, Ascii("a")));
    WithUpload(map[], a, map[], {});
    WithUpload(cache, b, first, {});
    assert [a, b] == [a] + [b];
    RunConcat(map[], [a], [b]);
    RunOne(map[], a);
    RunOne(cache, b);
    AfterConcat(map[], {}, HandleTasks(map[], a), HandleTasks(cache, b));
  }
}
