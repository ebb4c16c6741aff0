/** No deadlock: while there is work, some step is possible, and every step but an arrival uses up some of it. */
module Progress {
  import opened Basics
  import opened Keys
  import opened Ops
  import opened Tasks
  import opened Spooling
  import opened Interleaving

  // ----- how much is left to do -----

  function PlainCost(tasks: seq<Task>): nat {
    if tasks == [] then 0 else 1 + |TaskOps(tasks[0])| + PlainCost(tasks[1..])
  }

  /** More than handling the job can take, whether its logo is cached or not. */
  function JobCost(job: Job): nat {
    1 + PlainCost(HandleTasks(map[], job))
    + if HasLogo(job) then PlainCost(HandleTasks(map[SlotKey(SlotOf(job)) := job.logo.value.hash], job)) else 0
  }

  function OpCost(op: Op): nat { if op.Submit? then 1 + JobCost(op.job) else 1 }

  function OpsCost(ops: seq<Op>): nat {
    if ops == [] then 0 else OpCost(ops[0]) + OpsCost(ops[1..])
  }

  function TodoCost(tasks: seq<Task>): nat {
    if tasks == [] then 0 else 1 + OpsCost(TaskOps(tasks[0])) + TodoCost(tasks[1..])
  }

  function ProcCost(proc: Proc): nat { OpsCost(proc.cur) + TodoCost(proc.todo) }

  function ProcsCost(procs: seq<Proc>): nat {
    if procs == [] then 0 else ProcCost(procs[0]) + ProcsCost(procs[1..])
  }

  function QueueCost(queue: seq<Job>): nat {
    if queue == [] then 0 else JobCost(queue[0]) + QueueCost(queue[1..])
  }

  function Work(s: System): nat { ProcsCost(s.procs) + QueueCost(s.queue) }

  lemma HandleCost(cache: Cache, job: Job)
    ensures PlainCost(HandleTasks(cache, job)) < JobCost(job)
  {
    hide TaskOps, PlainCost, SlotKey, DeliverTasks;
    if HasLogo(job) && CacheHit(cache, job) {
      assert PlanOf(cache, job) == PlanOf(map[SlotKey(SlotOf(job)) := job.logo.value.hash], job);
      assert HandleTasks(cache, job) == HandleTasks(map[SlotKey(SlotOf(job)) := job.logo.value.hash], job);
    } else {
      assert PlanOf(cache, job) == PlanOf(map[], job);
      assert HandleTasks(cache, job) == HandleTasks(map[], job);
    }
  }

  lemma {:induction false} OpsCostPlain(ops: seq<Op>)
    requires forall i :: 0 <= i < |ops| ==> !ops[i].Submit?
    ensures OpsCost(ops) == |ops|
  {
    if ops != [] {
      assert !ops[0].Submit?;
      OpsCostPlain(ops[1..]);
    }
  }

  lemma {:induction false} TodoCostPlain(tasks: seq<Task>)
    requires forall i :: 0 <= i < |tasks| ==> !tasks[i].Put?
    ensures TodoCost(tasks) == PlainCost(tasks)
  {
    hide TaskOps;
    if tasks != [] {
      assert !tasks[0].Put?;
      TaskShape(tasks[0]);
      OpsCostPlain(TaskOps(tasks[0]));
      TodoCostPlain(tasks[1..]);
    }
  }

  lemma HandlePutsNothing(cache: Cache, job: Job)
    ensures forall i :: 0 <= i < |HandleTasks(cache, job)| ==> !HandleTasks(cache, job)[i].Put?
  {
    hide PlanOf, ReceiptOk, UploadOk;
    var plan := PlanOf(cache, job);
    assert plan.UploadFirst? ==> HasLogo(job) by { UploadHasLogo(cache, job); }
  }

  lemma UploadHasLogo(cache: Cache, job: Job)
    ensures PlanOf(cache, job).UploadFirst? ==> HasLogo(job)
  {
  }

  lemma {:induction false} RunPutsNothing(cache: Cache, jobs: seq<Job>)
    ensures forall i :: 0 <= i < |RunTasks(cache, jobs)| ==> !RunTasks(cache, jobs)[i].Put?
    decreases |jobs|
  {
    hide HandleTasks, HandleCache;
    if jobs != [] {
      HandlePutsNothing(cache, jobs[0]);
      RunPutsNothing(HandleCache(cache, jobs[0]), jobs[1..]);
    }
  }

  lemma {:induction false} ProcsCostUpdate(procs: seq<Proc>, p: nat, proc: Proc)
    requires p < |procs|
    ensures ProcsCost(procs[p := proc]) == ProcsCost(procs) - ProcCost(procs[p]) + ProcCost(proc)
    ensures ProcsCost(procs) >= ProcCost(procs[p])
  {
    hide ProcCost;
    if p == 0 {
      assert procs[0 := proc][1..] == procs[1..];
    } else {
      assert procs[p := proc][1..] == procs[1..][p - 1 := proc];
      ProcsCostUpdate(procs[1..], p - 1, proc);
    }
  }

  lemma {:induction false} QueueCostSnoc(queue: seq<Job>, more: seq<Job>)
    ensures QueueCost(queue + more) == QueueCost(queue) + QueueCost(more)
  {
    hide JobCost;
    if queue == [] {
      assert queue + more == more;
    } else {
      assert (queue + more)[1..] == queue[1..] + more;
      QueueCostSnoc(queue[1..], more);
    }
  }

  lemma SentCost(op: Op)
    ensures QueueCost(Sent(op)) == OpCost(op) - 1
  {
    if op.Submit? {
      assert [op.job][1..] == [];
    }
  }

  /** Every step of a goroutine leaves less to do. */
  lemma StepCosts(s: System, c: Choice)
    requires Inv(s) && Enabled(s, c) && !c.Arrive?
    ensures Work(Next(s, c)) < Work(s)
  {
    hide TaskOps, HandleTasks, HandleCache, JobCost, Inv, OpCost;
    match c
    case Begin(p) =>
      ProcsCostUpdate(s.procs, p, Next(s, c).procs[p]);
    case Exec(p) =>
      ProcsCostUpdate(s.procs, p, Advance(s.procs[p]));
      QueueCostSnoc(s.queue, Sent(s.procs[p].cur[0]));
      SentCost(s.procs[p].cur[0]);
    case Take =>
      ProcsCostUpdate(s.procs, 0, Next(s, c).procs[0]);
      HandleCost(s.cache, s.queue[0]);
      HandlePutsNothing(s.cache, s.queue[0]);
      TodoCostPlain(HandleTasks(s.cache, s.queue[0]));
  }

  // ----- some step is always possible -----

  /** The owner of a mutex is never held up. */
  lemma OwnerRuns(s: System, m: Mutex)
    requires Inv(s) && m in s.owner
    ensures Enabled(s, Exec(s.owner[m]))
  {
    hide TaskOps, OpsOf, RunTasks, RunCache, EndpointOk, SpoolerOk;
    var proc := s.procs[s.owner[m]];
    assert Holding(proc) == Some(m);
    CurShape(proc);
  }

  /** The spooler is never held up for good: it runs, waits for a mutex whose owner runs, or takes a job. */
  lemma SpoolerRuns(s: System)
    requires Inv(s)
    requires s.procs[0].cur != [] || s.procs[0].todo != [] || s.queue != []
    ensures exists c: Choice :: !c.Arrive? && Enabled(s, c)
  {
    hide TaskOps, OpsOf, RunTasks, RunCache, EndpointOk, OwnersOk, Holding, TaskMutex;
    var proc := s.procs[0];
    if proc.cur != [] {
      CurShape(proc);
      RunPutsNothing(map[], s.taken);
      assert Last(proc) == (proc.begun + proc.todo)[|proc.begun| - 1];
      if CanExec(s, proc.cur[0]) {
        assert Enabled(s, Exec(0));
      } else {
        OwnerRuns(s, proc.cur[0].m);
        assert !Exec(s.owner[proc.cur[0].m]).Arrive?;
      }
    } else if proc.todo != [] {
      assert Enabled(s, Begin(0));
    } else {
      assert Enabled(s, Take);
    }
  }

  lemma {:induction false} BusyProc(procs: seq<Proc>) returns (p: nat)
    requires ProcsCost(procs) > 0
    ensures p < |procs| && (procs[p].cur != [] || procs[p].todo != [])
  {
    if ProcCost(procs[0]) > 0 {
      p := 0;
    } else {
      p := BusyProc(procs[1..]);
      p := p + 1;
    }
  }

  /** With work left, some goroutine can move, even with the job channel full and every mutex taken. */
  lemma NoDeadlock(s: System)
    requires Inv(s) && Work(s) > 0
    ensures exists c: Choice :: !c.Arrive? && Enabled(s, c)
  {
    hide TaskOps, OpsOf, RunTasks, RunCache, EndpointOk, OwnersOk, Holding, JobCost;
    if ProcsCost(s.procs) == 0 {
      SpoolerRuns(s);
    } else {
      var p := BusyProc(s.procs);
      var proc := s.procs[p];
      if proc.cur == [] {
        assert Enabled(s, Begin(p));
      } else if CanExec(s, proc.cur[0]) {
        CurShape(proc);
        assert Enabled(s, Exec(p));
      } else if proc.cur[0].Lock? {
        OwnerRuns(s, proc.cur[0].m);
        assert !Exec(s.owner[proc.cur[0].m]).Arrive?;
      } else {
        SpoolerRuns(s);
      }
    }
  }

  ghost predicate WithoutArrivals(choices: seq<Choice>) {
    forall i :: 0 <= i < |choices| ==> !choices[i].Arrive?
  }

  /** A run without new arrivals is no longer than the work there was. */
  lemma {:induction false} RunsEnd(s: System, choices: seq<Choice>, s': System)
    requires Inv(s) && Runs(s, choices, s') && WithoutArrivals(choices)
    ensures |choices| + Work(s') <= Work(s)
    decreases |choices|
  {
    hide Inv, Work;
    if choices != [] {
      assert !choices[0].Arrive?;
      StepOk(s, choices[0]);
      StepCosts(s, choices[0]);
      RunsEnd(Next(s, choices[0]), choices[1..], s');
    }
  }

  lemma {:induction false} IdleProcs(procs: seq<Proc>)
    requires ProcsCost(procs) == 0
    ensures forall p :: 0 <= p < |procs| ==> procs[p].cur == [] && procs[p].todo == []
  {
    if procs != [] {
      assert ProcCost(procs[0]) == 0;
      IdleProcs(procs[1..]);
      forall p | 0 <= p < |procs|
        ensures procs[p].cur == [] && procs[p].todo == []
      {
        assert p > 0 ==> procs[p] == procs[1..][p - 1];
      }
    }
  }

  /** A run that cannot go on has finished everything: no task half done, no mutex held, every submitted job handled. */
  lemma StuckMeansDone(s: System)
    requires Inv(s) && forall c: Choice :: Enabled(s, c) ==> c.Arrive?
    ensures forall p :: 0 <= p < |s.procs| ==> s.procs[p].cur == [] && s.procs[p].todo == []
    ensures s.owner == map[] && s.taken == s.submitted
    ensures s.procs[0].past == OpsOf(RunTasks(map[], s.submitted))
  {
    hide TaskOps, OpsOf, RunTasks, RunCache, EndpointOk, JobCost;
    if Work(s) > 0 {
      NoDeadlock(s);
      assert false;
    }
    if s.owner != map[] {
      var m :| m in s.owner;
      OwnerRuns(s, m);
      assert false;
    }
    IdleProcs(s.procs);
    assert s.queue == [] by { if s.queue != [] { assert QueueCost(s.queue) >= JobCost(s.queue[0]); HandleCost(map[], s.queue[0]); } }
    assert s.procs[0].begun + [] == s.procs[0].begun && s.procs[0].past + [] == s.procs[0].past;
    assert ProcOk(s.procs[0]);
  }
}
