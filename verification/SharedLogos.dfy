/** The logo cache while other goroutines print: coherent between any two tasks of the spooler. */
module SharedLogos {
  import opened Basics
  import opened Keys
  import opened Ops
  import opened Transport
  import opened Tasks
  import opened Spooling
  import opened LogoCoherence
  import opened Interleaving

  predicate IsUpload(t: Task) { t.Send? && t.payload.Upload? }

  // ----- task by task -----

  function CacheAfterTask(cache: Cache, t: Task): Cache {
    if t.Save? then cache[SlotKey(t.slot) := t.hash] else cache
  }

  function CacheAfter(cache: Cache, tasks: seq<Task>): Cache
    decreases |tasks|
  {
    if tasks == [] then cache else CacheAfter(CacheAfterTask(cache, tasks[0]), tasks[1..])
  }

  /** Uploads only what the cache does not have, to the slot's own printer; saves only what the slot holds. */
  predicate CarefulTask(cache: Cache, dev: Devices, t: Task) {
    && (IsUpload(t) ==>
          && t.e == t.payload.slot.endpoint
          && !(SlotKey(t.payload.slot) in cache && cache[SlotKey(t.payload.slot)] == t.payload.hash))
    && (t.Save? ==> Look(dev, t.slot) == Holds(t.hash))
  }

  predicate Careful(cache: Cache, dev: Devices, tasks: seq<Task>)
    decreases |tasks|
  {
    tasks != [] ==>
      && CarefulTask(cache, dev, tasks[0])
      && Careful(CacheAfterTask(cache, tasks[0]), AfterTask(dev, tasks[0]), tasks[1..])
  }

  lemma TaskCoherent(cache: Cache, dev: Devices, dirty: set<SlotId>, t: Task)
    requires Coherent(cache, dev, dirty) && CarefulTask(cache, dev, t)
    ensures Coherent(CacheAfterTask(cache, t), AfterTask(dev, t), DirtyAfterTask(dirty, t))
  {
    hide SlotKey, Contribution;
    if IsUpload(t) || t.Save? {
      var slot := if IsUpload(t) then t.payload.slot else t.slot;
      forall id: SlotId
        ensures SlotKey(id) == SlotKey(slot) <==> id == slot
      {
        SlotKeyInjective(id, slot);
      }
    }
  }

  lemma {:induction false} PrefixCoherent(cache: Cache, dev: Devices, dirty: set<SlotId>, tasks: seq<Task>, n: nat)
    requires Coherent(cache, dev, dirty) && Careful(cache, dev, tasks) && n <= |tasks|
    ensures Coherent(CacheAfter(cache, tasks[..n]), AfterTasks(dev, tasks[..n]), DirtyAfter(dirty, tasks[..n]))
    decreases |tasks|
  {
    hide Coherent, CarefulTask, CacheAfterTask, AfterTask, DirtyAfterTask;
    if n > 0 {
      var t := tasks[0];
      TaskCoherent(cache, dev, dirty, t);
      PrefixCoherent(CacheAfterTask(cache, t), AfterTask(dev, t), DirtyAfterTask(dirty, t), tasks[1..], n - 1);
      assert tasks[..n][1..] == tasks[1..][..n - 1];
    }
  }

  lemma {:induction false} CarefulConcat(cache: Cache, dev: Devices, a: seq<Task>, b: seq<Task>)
    ensures Careful(cache, dev, a + b) <==> Careful(cache, dev, a) && Careful(CacheAfter(cache, a), AfterTasks(dev, a), b)
    ensures CacheAfter(cache, a + b) == CacheAfter(CacheAfter(cache, a), b)
    decreases |a|
  {
    hide CarefulTask, CacheAfterTask, AfterTask;
    if a == [] {
      assert a + b == b;
    } else {
      assert (a + b)[1..] == a[1..] + b && (a + b)[0] == a[0];
      CarefulConcat(CacheAfterTask(cache, a[0]), AfterTask(dev, a[0]), a[1..], b);
    }
  }

  lemma {:induction false} NeutralCareful(cache: Cache, dev: Devices, tasks: seq<Task>)
    requires forall i :: 0 <= i < |tasks| ==> Neutral(tasks[i])
    ensures Careful(cache, dev, tasks) && CacheAfter(cache, tasks) == cache && AfterTasks(dev, tasks) == dev
  {
    NeutralKeeps(dev, {}, tasks);
    if tasks != [] {
      assert Neutral(tasks[0]);
      NeutralCareful(cache, dev, tasks[1..]);
    }
  }

  lemma OneCareful(cache: Cache, dev: Devices, t: Task)
    requires CarefulTask(cache, dev, t)
    ensures Careful(cache, dev, [t]) && CacheAfter(cache, [t]) == CacheAfterTask(cache, t)
  {
    hide CarefulTask, CacheAfterTask, AfterTask;
    assert [t][1..] == [];
  }

  lemma PrintCareful(plan: Plan, cache: Cache, job: Job, dev: Devices)
    requires job.rendered.Some?
    requires plan.UploadFirst? ==> HasLogo(job) && Look(dev, SlotOf(job)) == Holds(job.logo.value.hash)
    ensures Careful(cache, dev, PrintTasks(plan, job))
    ensures CacheAfter(cache, PrintTasks(plan, job)) ==
      if plan.UploadFirst? && ReceiptOk(job) then cache[SlotKey(SlotOf(job)) := job.logo.value.hash] else cache
  {
    hide SlotKey, Careful, CacheAfter, SendOk;
    var send := [Send(EndpointOf(job), Receipt(job.id, job.rendered.value), job.env.receipt)];
    var answer := AnswerTasks(job, ReceiptOk(job), if ReceiptOk(job) then "" else "print_error");
    NeutralCareful(cache, dev, send);
    if plan.UploadFirst? && ReceiptOk(job) {
      var save := Save(SlotOf(job), job.logo.value.hash);
      assert PrintTasks(plan, job) == send + ([save] + answer);
      CarefulConcat(cache, dev, send, [save] + answer);
      CarefulConcat(cache, dev, [save], answer);
      OneCareful(cache, dev, save);
      AfterOne(dev, {}, save);
      NeutralCareful(CacheAfterTask(cache, save), dev, answer);
    } else {
      assert PrintTasks(plan, job) == send + answer;
      NeutralCareful(cache, dev, send + answer);
    }
  }

  lemma JobCareful(cache: Cache, job: Job, dev: Devices)
    ensures Careful(cache, dev, HandleTasks(cache, job))
    ensures CacheAfter(cache, HandleTasks(cache, job)) == HandleCache(cache, job)
  {
    hide SlotKey, Careful, CacheAfter, PrintTasks, SendOk, CacheHit;
    var plan := PlanOf(cache, job);
    if job.rendered.None? {
      NeutralCareful(cache, dev, HandleTasks(cache, job));
      return;
    }
    var consult := if HasLogo(job) then [Consult(SlotOf(job))] else [];
    NeutralCareful(cache, dev, consult);
    CarefulConcat(cache, dev, consult, DeliverTasks(plan, job));
    if !plan.UploadFirst? {
      PrintCareful(plan, cache, job, dev);
    } else {
      UploadCareful(cache, job, dev);
    }
  }

  lemma UploadCareful(cache: Cache, job: Job, dev: Devices)
    requires job.rendered.Some? && PlanOf(cache, job).UploadFirst?
    ensures var tasks := DeliverTasks(PlanOf(cache, job), job);
      Careful(cache, dev, tasks) && CacheAfter(cache, tasks) == HandleCache(cache, job)
  {
    var plan := PlanOf(cache, job);
    var up := UploadTask(job, plan.bytes);
    assert CarefulTask(cache, dev, up);
    assert CacheAfterTask(cache, up) == cache && plan.bytes != [];
    hide SlotKey, Careful, CacheAfter, CarefulTask, CacheAfterTask, PrintTasks, SendOk;
    var rest := DeliverTasks(plan, job)[1..];
    assert DeliverTasks(plan, job) == [up] + rest;
    OneCareful(cache, dev, up);
    AfterOne(dev, {}, up);
    CarefulConcat(cache, dev, [up], rest);
    var dev' := AfterTask(dev, up);
    if UploadOk(job, plan.bytes) && !job.env.cancelledInWait {
      var wait := [Flash(SlotOf(job)), Pause(FLASH_SETTLE)];
      assert rest == wait + PrintTasks(plan, job);
      NeutralCareful(cache, dev', wait);
      CarefulConcat(cache, dev', wait, PrintTasks(plan, job));
      SendDelivers(EndpointOf(job), plan.bytes, job.env.upload);
      PrintCareful(plan, cache, job, dev');
    } else {
      NeutralCareful(cache, dev', rest);
    }
  }

  lemma {:induction false} RunCareful(cache: Cache, jobs: seq<Job>, dev: Devices)
    ensures Careful(cache, dev, RunTasks(cache, jobs))
    ensures CacheAfter(cache, RunTasks(cache, jobs)) == RunCache(cache, jobs)
    decreases |jobs|
  {
    hide Careful, CacheAfter, HandleTasks, HandleCache;
    if jobs == [] {
      NeutralCareful(cache, dev, []);
    } else {
      var first := HandleTasks(cache, jobs[0]);
      JobCareful(cache, jobs[0], dev);
      RunCareful(HandleCache(cache, jobs[0]), jobs[1..], AfterTasks(dev, first));
      CarefulConcat(cache, dev, first, RunTasks(HandleCache(cache, jobs[0]), jobs[1..]));
    }
  }

  /** The cache that the commits among these operations make. */
  function Committed(cache: Cache, ops: seq<Op>): Cache
    decreases |ops|
  {
    if ops == [] then cache
    else Committed(if ops[0].Commit? then cache[SlotKey(ops[0].slot) := ops[0].hash] else cache, ops[1..])
  }

  lemma {:induction false} CommittedConcat(cache: Cache, a: seq<Op>, b: seq<Op>)
    ensures Committed(cache, a + b) == Committed(Committed(cache, a), b)
    decreases |a|
  {
    hide SlotKey;
    if a == [] {
      assert a + b == b;
    } else {
      assert (a + b)[1..] == a[1..] + b && (a + b)[0] == a[0];
      CommittedConcat(if a[0].Commit? then cache[SlotKey(a[0].slot) := a[0].hash] else cache, a[1..], b);
    }
  }

  lemma {:induction false} NothingCommitted(cache: Cache, ops: seq<Op>)
    requires forall i :: 0 <= i < |ops| ==> !ops[i].Commit?
    ensures Committed(cache, ops) == cache
  {
    if ops != [] {
      assert !ops[0].Commit?;
      NothingCommitted(cache, ops[1..]);
    }
  }

  lemma TaskCommits(cache: Cache, t: Task)
    ensures Committed(cache, TaskOps(t)) == CacheAfterTask(cache, t)
  {
    if t.Save? {
      var front, commit, back := [Lock(LogoLock)], [Commit(t.slot, t.hash)], [Unlock(LogoLock)];
      assert TaskOps(t) == front + (commit + back) && commit[1..] == [];
      hide SlotKey;
      CommittedConcat(cache, front, commit + back);
      CommittedConcat(cache, commit, back);
      NothingCommitted(cache, front);
      NothingCommitted(CacheAfterTask(cache, t), back);
    } else {
      hide Committed;
      if t.Send? && ValidEndpoint(t.e) {
        ChunksCommitNothing(EndpointKey(t.e), t.payload.bytes, t.net.failing);
      }
      NothingCommitted(cache, TaskOps(t));
    }
  }

  lemma {:induction false} ChunksCommitNothing(key: string, data: seq<Byte>, failing: Option<Failure>)
    ensures forall i :: 0 <= i < |ChunkOps(key, data, failing)| ==> !ChunkOps(key, data, failing)[i].Commit?
    decreases |data|
  {
    if data != [] && !FailsNow(failing) && |data| > CHUNK_SIZE {
      ChunksCommitNothing(key, data[CHUNK_SIZE..], Later(failing));
    }
  }

  lemma {:induction false} TasksCommit(cache: Cache, tasks: seq<Task>)
    ensures Committed(cache, OpsOf(tasks)) == CacheAfter(cache, tasks)
    decreases |tasks|
  {
    hide TaskOps, CacheAfterTask, Committed;
    if tasks == [] {
      NothingCommitted(cache, OpsOf(tasks));
    } else {
      TaskCommits(cache, tasks[0]);
      CommittedConcat(cache, TaskOps(tasks[0]), OpsOf(tasks[1..]));
      TasksCommit(CacheAfterTask(cache, tasks[0]), tasks[1..]);
    }
  }

  /** The commits that a run writes to its transcript are what makes its cache. */
  lemma CommitsMakeCache(cache: Cache, jobs: seq<Job>)
    ensures Committed(cache, OpsOf(RunTasks(cache, jobs))) == RunCache(cache, jobs)
  {
    TasksCommit(cache, RunTasks(cache, jobs));
    RunCareful(cache, jobs, map[]);
    hide Committed, OpsOf, RunTasks, RunCache, CacheAfter;
  }

  /** Every upload of a careful run goes to its slot's printer. */
  lemma {:induction false} CarefulPlaces(cache: Cache, dev: Devices, tasks: seq<Task>)
    requires Careful(cache, dev, tasks)
    ensures forall i :: 0 <= i < |tasks| && IsUpload(tasks[i]) ==> tasks[i].e == tasks[i].payload.slot.endpoint
    decreases |tasks|
  {
    hide SlotKey, AfterTask, CacheAfterTask;
    if tasks != [] {
      CarefulPlaces(CacheAfterTask(cache, tasks[0]), AfterTask(dev, tasks[0]), tasks[1..]);
    }
  }

  // ----- the uploads an endpoint serves are the spooler's -----

  predicate LogoFree(tasks: seq<Task>) {
    forall i :: 0 <= i < |tasks| ==> !IsUpload(tasks[i])
  }

  /** No goroutine but the spooler is given a logo to write. */
  ghost predicate OthersLogoFree(choices: seq<Choice>) {
    forall i :: 0 <= i < |choices| && choices[i].Arrive? ==> LogoFree(choices[i].tasks)
  }

  function UploadsAt(tasks: seq<Task>, key: string): seq<Task> {
    if tasks == [] then []
    else
      var t := tasks[|tasks| - 1];
      UploadsAt(tasks[..|tasks| - 1], key) + if ServedAt(t, key) && IsUpload(t) then [t] else []
  }

  /** The tasks a process has done something for. */
  function Started(proc: Proc): seq<Task> {
    if proc.begun != [] && proc.cur != [] && |proc.cur| == |TaskOps(Last(proc))| then proc.begun[..|proc.begun| - 1]
    else proc.begun
  }

  ghost predicate LogoInv(s: System) {
    && |s.procs| > 0
    && (forall p :: 0 < p < |s.procs| ==> LogoFree(s.procs[p].begun) && LogoFree(s.procs[p].todo))
    && (forall key :: UploadsAt(At(s.served, key), key) == UploadsAt(Started(s.procs[0]), key))
  }

  lemma UploadsSnoc(tasks: seq<Task>, t: Task, key: string)
    ensures UploadsAt(tasks + [t], key) == UploadsAt(tasks, key) + if ServedAt(t, key) && IsUpload(t) then [t] else []
  {
    assert (tasks + [t])[..|tasks|] == tasks;
  }

  predicate AtFirst(proc: Proc) {
    proc.begun != [] && |proc.cur| == |TaskOps(Last(proc))|
  }

  /** The first operation of a send takes the lock of its endpoint; nothing else takes an endpoint lock. */
  lemma FirstServes(proc: Proc, key: string)
    requires ProcOk(proc) && proc.cur != []
    ensures SendKey(proc) == Some(key) && proc.cur[0].Lock? <==> AtFirst(proc) && ServedAt(Last(proc), key)
  {
    CurShape(proc);
    hide TaskOps, OpsOf, EndpointKey, ProcOk;
    if SendKey(proc).None? {
      assert !Last(proc).Send?;
    }
  }

  lemma AdvanceStarts(proc: Proc)
    requires ProcOk(proc) && proc.cur != []
    ensures Started(Advance(proc)) == Started(proc) + if AtFirst(proc) then [Last(proc)] else []
  {
    hide TaskOps, OpsOf;
  }

  /** An endpoint serves a send when its first operation is done. */
  lemma ExecServes(s: System, p: nat, key: string)
    requires Inv(s) && Enabled(s, Exec(p))
    ensures var proc, s' := s.procs[p], ExecOn(s, p);
      && At(s'.served, key) == At(s.served, key) + (if AtFirst(proc) && ServedAt(Last(proc), key) then [Last(proc)] else [])
      && Started(s'.procs[p]) == Started(proc) + if AtFirst(proc) then [Last(proc)] else []
  {
    var proc := s.procs[p];
    assert ProcOk(proc);
    hide Inv, ProcOk, TaskOps, EndpointKey, ServedAt, AtFirst, SendKey, Started, OwnerAfter, LogsAfter, WireAfter, ServedAfter, At;
    FirstServes(proc, key);
    ExecAt(s, p, key);
    AdvanceStarts(proc);
  }

  lemma BeginStarts(proc: Proc, key: string)
    requires proc.cur == [] && proc.todo != []
    ensures var next := proc.(begun := proc.begun + [proc.todo[0]], cur := TaskOps(proc.todo[0]), todo := proc.todo[1..]);
      UploadsAt(Started(next), key) == UploadsAt(Started(proc), key)
  {
    hide EndpointKey;
    var t := proc.todo[0];
    assert (proc.begun + [t])[..|proc.begun|] == proc.begun;
    if TaskOps(t) == [] {
      UploadsSnoc(proc.begun, t, key);
    }
  }

  lemma StepLogos(s: System, c: Choice)
    requires Inv(s) && LogoInv(s) && Enabled(s, c)
    requires c.Arrive? ==> LogoFree(c.tasks)
    ensures LogoInv(Next(s, c))
  {
    hide TaskOps, OpsOf, Inv, ServedAt, UploadsAt, Started, HandleTasks;
    match c
    case Begin(p) =>
      forall key
        ensures UploadsAt(At(Next(s, c).served, key), key) == UploadsAt(Started(Next(s, c).procs[0]), key)
      {
        BeginStarts(s.procs[p], key);
      }
    case Exec(p) =>
      ExecLogos(s, p);
    case Take =>
      StartedTodo(s.procs[0], HandleTasks(s.cache, s.queue[0]));
    case Arrive(p, tasks) =>
  }

  lemma StartedTodo(proc: Proc, todo: seq<Task>)
    ensures Started(proc.(todo := todo)) == Started(proc)
  {
  }

  lemma ExecLogos(s: System, p: nat)
    requires Inv(s) && LogoInv(s) && Enabled(s, Exec(p))
    ensures LogoInv(ExecOn(s, p))
  {
    hide TaskOps, OpsOf, Inv, ServedAt, UploadsAt, Started, AtFirst;
    var s', t := ExecOn(s, p), Last(s.procs[p]);
    forall key
      ensures UploadsAt(At(s'.served, key), key) == UploadsAt(Started(s'.procs[0]), key)
    {
      ExecServes(s, p, key);
      UploadsSnoc(At(s.served, key), t, key);
      UploadsSnoc(Started(s.procs[0]), t, key);
      assert At(s.served, key) + [] == At(s.served, key) && Started(s.procs[0]) + [] == Started(s.procs[0]);
      if p > 0 {
        assert t == s.procs[p].begun[|s.procs[p].begun| - 1] && !IsUpload(t);
      }
    }
  }

  lemma {:induction false} RunLogos(s: System, choices: seq<Choice>, s': System)
    requires Inv(s) && LogoInv(s) && Runs(s, choices, s') && OthersLogoFree(choices)
    ensures LogoInv(s')
    decreases |choices|
  {
    hide Inv, LogoInv, LogoFree;
    if choices != [] {
      assert choices[0].Arrive? ==> LogoFree(choices[0].tasks);
      StepOk(s, choices[0]);
      StepLogos(s, choices[0]);
      RunLogos(Next(s, choices[0]), choices[1..], s');
    }
  }

  // ----- what a slot holds is decided by the uploads at its endpoint -----

  /** The upload is one the endpoint served, or is for a slot of the printer it goes to. */
  predicate Placed(t: Task, key: string) {
    IsUpload(t) ==> ServedAt(t, key) || t.e == t.payload.slot.endpoint
  }

  lemma {:induction false} OnlyUploadsCount(dev: Devices, tasks: seq<Task>, id: SlotId)
    requires forall i :: 0 <= i < |tasks| ==> Placed(tasks[i], EndpointKey(id.endpoint))
    ensures Look(AfterTasks(dev, tasks), id) == Look(AfterTasks(dev, UploadsAt(tasks, EndpointKey(id.endpoint))), id)
    decreases |tasks|
  {
    hide EndpointKey, Placed, AfterTask, Look, ServedAt;
    var key := EndpointKey(id.endpoint);
    if tasks != [] {
      var n := |tasks| - 1;
      var most, t := tasks[..n], tasks[n];
      OnlyUploadsCount(dev, most, id);
      assert tasks == most + [t];
      UploadsSnoc(most, t, key);
      AfterConcat(dev, {}, most, [t]);
      AfterOne(AfterTasks(dev, most), {}, t);
      var counted := UploadsAt(most, key);
      AfterConcat(dev, {}, counted, [t]);
      AfterOne(AfterTasks(dev, counted), {}, t);
      assert counted + [] == counted;
      OneTaskSeen(AfterTasks(dev, most), AfterTasks(dev, counted), t, id);
    }
  }

  lemma OneTaskSeen(dev: Devices, dev': Devices, t: Task, id: SlotId)
    requires Look(dev, id) == Look(dev', id) && Placed(t, EndpointKey(id.endpoint))
    ensures Look(AfterTask(dev, t), id) == Look(AfterTask(dev', t), id)
    ensures !(ServedAt(t, EndpointKey(id.endpoint)) && IsUpload(t)) ==> Look(AfterTask(dev, t), id) == Look(dev', id)
  {
    hide EndpointKey, Contribution;
    if IsUpload(t) {
      SendDelivers(t.e, t.payload.bytes, t.net);
    }
  }

  /**
   * In every run in which only the spooler writes logos, whatever else is printed meanwhile and by whom: between two
   * tasks of the spooler, a cached slot holds the cached image, after the sends its printer has served, exactly when
   * the slot is not dirty.
   */
  lemma SlotsCoherent(n: nat, cap: nat, choices: seq<Choice>, s: System, dev: Devices)
    requires n > 0 && cap > 0 && Runs(Start(n, cap), choices, s) && OthersLogoFree(choices)
    requires s.procs != [] && s.procs[0].cur == []
    ensures var begun := s.procs[0].begun;
      var cache, dirty := CacheAfter(map[], begun), DirtyAfter({}, begun);
      forall id: SlotId {:trigger SlotKey(id)} :: SlotKey(id) in cache ==>
        (Look(AfterTasks(dev, At(s.served, EndpointKey(id.endpoint))), id) == Holds(cache[SlotKey(id)]) <==> id !in dirty)
  {
    hide TaskOps, OpsOf, SlotKey, EndpointKey, RunTasks, Careful, DirtyAfter, CacheAfter, AfterTasks, UploadsAt, Look;
    StartOk(n, cap);
    assert LogoInv(Start(n, cap));
    RunOk(Start(n, cap), choices, s);
    RunLogos(Start(n, cap), choices, s);
    var begun, all := s.procs[0].begun, RunTasks(map[], s.taken);
    RunCareful(map[], s.taken, dev);
    assert all == begun + s.procs[0].todo && all[..|begun|] == begun;
    PrefixCoherent(map[], dev, {}, all, |begun|);
    forall id: SlotId
      ensures Look(AfterTasks(dev, At(s.served, EndpointKey(id.endpoint))), id) == Look(AfterTasks(dev, begun), id)
    {
      SlotSeen(s, dev, id);
    }
  }

  // ----- the receipt among the others -----

  predicate IsReceipt(t: Task) { t.Send? && t.payload.Receipt? }

  /** When a job's receipt is due, its upload, if one was due, is through. */
  lemma BeforeReceipt(cache: Cache, job: Job, dev: Devices, m: nat)
    requires m < |HandleTasks(cache, job)| && IsReceipt(HandleTasks(cache, job)[m])
    ensures HandleTasks(cache, job)[m].e == EndpointOf(job)
    ensures var plan, front := PlanOf(cache, job), HandleTasks(cache, job)[..m];
      if plan.UploadFirst? then UploadOk(job, plan.bytes) && AfterTasks(dev, front) == AfterTask(dev, UploadTask(job, plan.bytes))
      else AfterTasks(dev, front) == dev
  {
    hide SlotKey, CacheHit, AfterTasks, AfterTask, ReceiptOk, UploadOk;
    var plan, tasks := PlanOf(cache, job), HandleTasks(cache, job);
    var consult := if HasLogo(job) then [Consult(SlotOf(job))] else [];
    if !plan.UploadFirst? {
      FrontOf(consult, PrintTasks(plan, job), m) by { OneReceipt(plan, job); }
      NeutralKeeps(dev, {}, consult);
    } else {
      var up := UploadTask(job, plan.bytes);
      var wait := [Flash(SlotOf(job)), Pause(FLASH_SETTLE)];
      var front := consult + ([up] + wait);
      assert tasks == front + PrintTasks(plan, job);
      FrontOf(front, PrintTasks(plan, job), m) by { OneReceipt(plan, job); }
      NeutralKeeps(dev, {}, consult);
      NeutralKeeps(AfterTask(dev, up), {}, wait);
      AfterConcat(dev, {}, consult, [up] + wait);
      AfterConcat(dev, {}, [up], wait);
      AfterOne(dev, {}, up);
    }
  }

  lemma OneReceipt(plan: Plan, job: Job)
    requires job.rendered.Some? && (plan.UploadFirst? ==> HasLogo(job))
    ensures var printing := PrintTasks(plan, job);
      && printing != [] && printing[0].Send? && printing[0].e == EndpointOf(job)
      && forall i :: 0 < i < |printing| ==> !IsReceipt(printing[i])
  {
    hide ReceiptOk;
  }

  lemma FrontOf(front: seq<Task>, printing: seq<Task>, m: nat)
    requires m < |front + printing| && IsReceipt((front + printing)[m])
    requires forall i :: 0 <= i < |front| ==> !IsReceipt(front[i])
    requires forall i :: 0 < i < |printing| ==> !IsReceipt(printing[i])
    ensures m == |front| && (front + printing)[..m] == front
  {
    assert m >= |front|;
  }

  /** What the spooler has still to begin belongs to the job it took last, and so does a task it is in. */
  ghost predicate OnLast(s: System) {
    && |s.procs| > 0
    && (s.taken == [] ==> s.procs[0].begun == [] && s.procs[0].todo == [])
    && (s.taken != [] ==>
          && |s.procs[0].todo| <= |LastTasks(s)|
          && (|s.procs[0].todo| == |LastTasks(s)| ==> s.procs[0].cur == []))
  }

  function CacheBefore(s: System): Cache
    requires s.taken != []
  {
    RunCache(map[], s.taken[..|s.taken| - 1])
  }

  function LastTasks(s: System): seq<Task>
    requires s.taken != []
  {
    HandleTasks(CacheBefore(s), s.taken[|s.taken| - 1])
  }

  lemma StepOnLast(s: System, c: Choice)
    requires Inv(s) && OnLast(s) && Enabled(s, c)
    ensures OnLast(Next(s, c))
  {
    hide TaskOps, OpsOf, HandleTasks, HandleCache, RunTasks, RunCache, OwnersOk, EndpointOk, ProcOk;
    var s' := Next(s, c);
    if c.Take? {
      assert s'.taken[..|s'.taken| - 1] == s.taken;
      assert s.cache == RunCache(map[], s.taken);
    } else {
      assert s'.taken == s.taken;
      if c.Exec? && c.p == 0 && s.taken != [] {
        assert s.procs[0].cur != [];
      }
    }
  }

  lemma {:induction false} RunOnLast(s: System, choices: seq<Choice>, s': System)
    requires Inv(s) && OnLast(s) && Runs(s, choices, s')
    ensures OnLast(s')
    decreases |choices|
  {
    hide Inv, OnLast;
    if choices != [] {
      StepOk(s, choices[0]);
      StepOnLast(s, choices[0]);
      RunOnLast(Next(s, choices[0]), choices[1..], s');
    }
  }

  /** The tasks begun are those of the earlier jobs and the first m + 1 of the last one's. */
  lemma SplitBegun(s: System) returns (m: nat)
    requires Inv(s) && OnLast(s) && s.procs[0].cur != []
    ensures s.taken != [] && m < |LastTasks(s)|
    ensures var past := RunTasks(map[], s.taken[..|s.taken| - 1]);
      s.procs[0].begun == past + LastTasks(s)[..m + 1] && s.procs[0].begun[..|s.procs[0].begun| - 1] == past + LastTasks(s)[..m]
  {
    hide TaskOps, OpsOf, HandleTasks, HandleCache, RunTasks, RunCache, OwnersOk, EndpointOk;
    assert ProcOk(s.procs[0]);
    var n := |s.taken| - 1;
    var job, proc := s.taken[n], s.procs[0];
    var past, last := RunTasks(map[], s.taken[..n]), LastTasks(s);
    assert s.taken == s.taken[..n] + [job];
    RunConcat(map[], s.taken[..n], [job]);
    RunOne(CacheBefore(s), job);
    assert proc.begun + proc.todo == past + last;
    m := |last| - |proc.todo| - 1;
    assert |proc.begun| == |past| + m + 1;
    assert proc.begun == (past + last)[..|past| + m + 1];
  }

  /**
   * In every interleaved run in which only the spooler writes logos: when a job's receipt is due to take its printer's
   * lock, the slot, as the sends served there so far leave it, holds the job's image if and only if the job was not
   * answered from a dirty cache entry.
   */
  lemma ReceiptFinds(n: nat, cap: nat, choices: seq<Choice>, s: System, dev: Devices)
    requires n > 0 && cap > 0 && Runs(Start(n, cap), choices, s) && OthersLogoFree(choices)
    requires s.procs != [] && s.procs[0].cur != [] && AtFirst(s.procs[0]) && IsReceipt(Last(s.procs[0]))
    ensures s.taken != []
    ensures var cache, job := CacheBefore(s), s.taken[|s.taken| - 1];
      var dirty := DirtyAfter({}, RunTasks(map[], s.taken[..|s.taken| - 1]));
      HasLogo(job) && (CacheHit(cache, job) || HasImage(job)) ==>
        (Look(AfterTasks(dev, At(s.served, EndpointKey(EndpointOf(job)))), SlotOf(job)) == Holds(job.logo.value.hash)
         <==> !(CacheHit(cache, job) && SlotOf(job) in dirty))
  {
    hide TaskOps, OpsOf, Runs, EndpointKey, SlotKey, RunTasks, RunCache, HandleTasks, AfterTasks, DirtyAfter, Look, UploadsAt;
    StartOk(n, cap);
    assert LogoInv(Start(n, cap)) && OnLast(Start(n, cap));
    RunOk(Start(n, cap), choices, s);
    RunLogos(Start(n, cap), choices, s);
    RunOnLast(Start(n, cap), choices, s);
    var m := SplitBegun(s);
    var job, before := s.taken[|s.taken| - 1], s.taken[..|s.taken| - 1];
    var cache, past, tasks := CacheBefore(s), RunTasks(map[], before), LastTasks(s);
    assert Last(s.procs[0]) == tasks[m];
    BeforeReceipt(cache, job, AfterTasks(dev, past), m);
    AfterConcat(dev, {}, past, tasks[..m]);
    if HasLogo(job) && (CacheHit(cache, job) || HasImage(job)) {
      SlotSeen(s, dev, SlotOf(job));
      RunCoherent(map[], before, dev, {});
      HeldAtReceipt(cache, job, AfterTasks(dev, past), DirtyAfter({}, past));
    }
  }

  lemma HeldAtReceipt(cache: Cache, job: Job, dev: Devices, dirty: set<SlotId>)
    requires Coherent(cache, dev, dirty)
    requires HasLogo(job) && (CacheHit(cache, job) || HasImage(job))
    requires PlanOf(cache, job).UploadFirst? ==> UploadOk(job, PlanOf(cache, job).bytes)
    ensures var plan := PlanOf(cache, job);
      var held := if plan.UploadFirst? then AfterTask(dev, UploadTask(job, plan.bytes)) else dev;
      Look(held, SlotOf(job)) == Holds(job.logo.value.hash) <==> !(CacheHit(cache, job) && SlotOf(job) in dirty)
  {
    hide SlotKey, SendOk, Contribution;
    if PlanOf(cache, job).UploadFirst? {
      SendDelivers(EndpointOf(job), PlanOf(cache, job).bytes, job.env.upload);
    } else {
      assert SlotKey(SlotOf(job)) in cache;
    }
  }

  /** The sends served at a slot's printer leave in the slot what the spooler's own started tasks do. */
  lemma SlotSeen(s: System, dev: Devices, id: SlotId)
    requires Inv(s) && LogoInv(s)
    ensures Look(AfterTasks(dev, At(s.served, EndpointKey(id.endpoint))), id) == Look(AfterTasks(dev, Started(s.procs[0])), id)
  {
    hide TaskOps, OpsOf, EndpointKey, AfterTasks, Look, RunTasks, Careful;
    var key, started := EndpointKey(id.endpoint), Started(s.procs[0]);
    var served, all := At(s.served, key), RunTasks(map[], s.taken);
    RunCareful(map[], s.taken, dev);
    CarefulPlaces(map[], dev, all);
    assert EndpointOk(s, key);
    forall i | 0 <= i < |served| ensures Placed(served[i], key) { assert ServedAt(served[i], key); }
    assert all == s.procs[0].begun + s.procs[0].todo;
    forall i | 0 <= i < |started| ensures Placed(started[i], key) { assert started[i] == all[i]; }
    OnlyUploadsCount(dev, started, id);
    OnlyUploadsCount(dev, served, id);
  }
}
