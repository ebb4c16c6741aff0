/**
 * All goroutines of the bridge at once: the spooler (process 0), the session, the health check, the HTTP handlers.
 * Each runs its tasks one operation at a time, in any interleaving. Mutexes and the bounded job channel are the only
 * things that can hold one up; every network operation finishes, with an outcome that is part of the task.
 */
module Interleaving {
  import opened Basics
  import opened Keys
  import opened Ops
  import opened Transport
  import opened Tasks
  import opened Spooling

  /** Tasks begun, operations done, operations left of the task begun last, tasks not yet begun. */
  datatype Proc = Proc(begun: seq<Task>, past: seq<Op>, cur: seq<Op>, todo: seq<Task>)

  datatype System = System(
    procs: seq<Proc>,
    owner: map<Mutex, nat>,
    queue: seq<Job>,
    cap: nat,
    cache: Cache,
    taken: seq<Job>,                   // jobs received from the channel
    submitted: seq<Job>,               // jobs sent to it
    served: map<string, seq<Task>>,    // per endpoint: the sends, in the order they took its lock
    logs: map<string, seq<Op>>,        // per endpoint: the operations of those sends
    wire: map<string, seq<Byte>>)      // per endpoint: the bytes its printer received

  function At<T>(m: map<string, seq<T>>, key: string): seq<T> {
    if key in m then m[key] else []
  }

  datatype Choice = Begin(p: nat) | Exec(p: nat) | Take | Arrive(p: nat, tasks: seq<Task>)

  function Start(n: nat, cap: nat): System {
    System(Repeat(Proc([], [], [], []), n), map[], [], cap, map[], [], [], map[], map[], map[])
  }

  // ----- one step -----

  predicate CanExec(s: System, op: Op) {
    match op
    case Lock(m) => m !in s.owner
    case Submit(_) => |s.queue| < s.cap
    case _ => true
  }

  predicate Enabled(s: System, c: Choice) {
    match c
    case Begin(p) => p < |s.procs| && s.procs[p].cur == [] && s.procs[p].todo != []
    case Exec(p) => p < |s.procs| && s.procs[p].begun != [] && s.procs[p].cur != [] && CanExec(s, s.procs[p].cur[0])
    case Take => |s.procs| > 0 && s.procs[0].cur == [] && s.procs[0].todo == [] && s.queue != []
    case Arrive(p, _) => 0 < p < |s.procs|
  }

  /** The endpoint an operation of this process is for, when it is running a send to a valid endpoint. */
  function SendKey(proc: Proc): Option<string> {
    if proc.begun != [] && proc.begun[|proc.begun| - 1].Send? then Some(EndpointKey(proc.begun[|proc.begun| - 1].e)) else None
  }

  function Advance(proc: Proc): Proc
    requires proc.cur != []
  {
    proc.(past := proc.past + [proc.cur[0]], cur := proc.cur[1..])
  }

  function OwnerAfter(owner: map<Mutex, nat>, op: Op, p: nat): map<Mutex, nat> {
    if op.Lock? then owner[op.m := p] else if op.Unlock? then owner - {op.m} else owner
  }

  /** Appends at one key. */
  function AddAt<T>(m: map<string, seq<T>>, key: string, more: seq<T>): map<string, seq<T>> {
    m[key := At(m, key) + more]
  }

  function WireAfter(wire: map<string, seq<Byte>>, op: Op): map<string, seq<Byte>> {
    if IsWrite(op) then AddAt(wire, op.key, op.bytes) else wire
  }

  function LogsAfter(logs: map<string, seq<Op>>, key: Option<string>, op: Op): map<string, seq<Op>> {
    if key.Some? then AddAt(logs, key.value, [op]) else logs
  }

  function ServedAfter(served: map<string, seq<Task>>, key: Option<string>, op: Op, t: Task): map<string, seq<Task>> {
    if key.Some? && op.Lock? then AddAt(served, key.value, [t]) else served
  }

  function Sent(op: Op): seq<Job> { if op.Submit? then [op.job] else [] }

  function ExecOn(s: System, p: nat): System
    requires Enabled(s, Exec(p))
  {
    var proc := s.procs[p];
    var op, key := proc.cur[0], SendKey(proc);
    System(
      s.procs[p := Advance(proc)],
      OwnerAfter(s.owner, op, p),
      s.queue + Sent(op),
      s.cap,
      s.cache,
      s.taken,
      s.submitted + Sent(op),
      ServedAfter(s.served, key, op, Last(proc)),
      LogsAfter(s.logs, key, op),
      WireAfter(s.wire, op))
  }

  function Next(s: System, c: Choice): System
    requires Enabled(s, c)
  {
    match c
    case Begin(p) =>
      var t := s.procs[p].todo[0];
      s.(procs := s.procs[p := s.procs[p].(begun := s.procs[p].begun + [t], cur := TaskOps(t), todo := s.procs[p].todo[1..])])
    case Exec(p) => ExecOn(s, p)
    case Take =>
      var job := s.queue[0];
      s.(procs := s.procs[0 := s.procs[0].(todo := HandleTasks(s.cache, job))],
         queue := s.queue[1..],
         cache := HandleCache(s.cache, job),
         taken := s.taken + [job])
    case Arrive(p, tasks) =>
      s.(procs := s.procs[p := s.procs[p].(todo := s.procs[p].todo + tasks)])
  }

  // ----- the shape of a task -----

  function TaskMutex(t: Task): Option<Mutex> {
    match t
    case Send(e, _, _) => if ValidEndpoint(e) then Some(EndpointLock(EndpointKey(e))) else None
    case Consult(_) => Some(LogoLock)
    case Save(_, _) => Some(LogoLock)
    case Answer(_, _, _) => Some(SocketLock)
    case Tell => Some(SocketLock)
    case Copy => Some(PrintersLock)
    case Flash(_) => None
    case Pause(_) => None
    case Put(_) => None
  }

  /** Operations that never wait for another goroutine and leave the mutexes alone. */
  predicate Plain(op: Op) { !op.Lock? && !op.Unlock? && !op.Submit? }

  lemma {:induction false} ChunksPlain(key: string, data: seq<Byte>, failing: Option<Failure>)
    ensures forall i :: 0 <= i < |ChunkOps(key, data, failing)| ==> Plain(ChunkOps(key, data, failing)[i])
    ensures forall i :: 0 <= i < |ChunkOps(key, data, failing)| && IsWrite(ChunkOps(key, data, failing)[i]) ==>
      ChunkOps(key, data, failing)[i].key == key
    decreases |data|
  {
    if data != [] && !FailsNow(failing) && |data| > CHUNK_SIZE {
      ChunksPlain(key, data[CHUNK_SIZE..], Later(failing));
    }
  }

  /** A task takes at most one mutex, first thing, gives it back last thing, and waits for nothing in between. */
  lemma TaskShape(t: Task)
    ensures var ops := TaskOps(t);
      match TaskMutex(t)
      case Some(m) =>
        |ops| >= 2 && ops[0] == Lock(m) && ops[|ops| - 1] == Unlock(m) && (forall i :: 0 < i < |ops| - 1 ==> Plain(ops[i]))
      case None =>
        if t.Put? then ops == [Submit(t.job)] else forall i :: 0 <= i < |ops| ==> Plain(ops[i])
    ensures forall i :: 0 <= i < |TaskOps(t)| && IsWrite(TaskOps(t)[i]) ==> t.Send? && TaskOps(t)[i].key == EndpointKey(t.e)
    ensures t.Send? && !ValidEndpoint(t.e) ==> TaskOps(t) == []
  {
    if t.Send? && ValidEndpoint(t.e) {
      ChunksPlain(EndpointKey(t.e), t.payload.bytes, t.net.failing);
    }
  }

  // ----- what every reachable state satisfies -----

  ghost predicate ProcOk(proc: Proc) {
    && proc.past + proc.cur == OpsOf(proc.begun)
    && (proc.cur != [] ==>
          && proc.begun != [] && |proc.cur| <= |TaskOps(Last(proc))|
          && proc.cur == TaskOps(Last(proc))[|TaskOps(Last(proc))| - |proc.cur|..])
  }

  function Last(proc: Proc): Task
    requires proc.begun != []
  {
    proc.begun[|proc.begun| - 1]
  }

  /** The mutex a process holds: it is past the first operation of a task with a mutex and not past the last. */
  function Holding(proc: Proc): Option<Mutex> {
    if proc.begun != [] && 0 < |proc.cur| < |TaskOps(Last(proc))| then TaskMutex(Last(proc)) else None
  }

  /** Every mutex is held by the process that owns it, and only by that one. */
  ghost predicate OwnersOk(procs: seq<Proc>, owner: map<Mutex, nat>) {
    && (forall m :: m in owner ==> owner[m] < |procs| && Holding(procs[owner[m]]) == Some(m))
    && (forall p :: 0 <= p < |procs| && Holding(procs[p]).Some? ==>
          Holding(procs[p]).value in owner && owner[Holding(procs[p]).value] == p)
  }

  /** The spooler has begun or has yet to begin exactly the tasks of the jobs it took, which left the channel in order. */
  ghost predicate SpoolerOk(s: System) {
    && |s.procs| > 0 && s.cap > 0 && |s.queue| <= s.cap
    && s.taken + s.queue == s.submitted
    && s.procs[0].begun + s.procs[0].todo == RunTasks(map[], s.taken)
    && s.cache == RunCache(map[], s.taken)
  }

  /** What the owner of an endpoint's lock has left to do there. */
  function Remaining(s: System, key: string): seq<Op> {
    if EndpointLock(key) in s.owner && s.owner[EndpointLock(key)] < |s.procs| then s.procs[s.owner[EndpointLock(key)]].cur else []
  }

  /** The sends an endpoint served, what was done for them, what is left of the last one, and what the printer got. */
  ghost predicate EndpointFacts(key: string, served: seq<Task>, log: seq<Op>, rest: seq<Op>, wire: seq<Byte>) {
    && (forall i :: 0 <= i < |served| ==> ServedAt(served[i], key))
    && log + rest == OpsOf(served)
    && (rest != [] ==> served != [] && |rest| <= |TaskOps(served[|served| - 1])|)
    && wire == Delivered(key, log)
  }

  ghost predicate EndpointOk(s: System, key: string) {
    EndpointFacts(key, At(s.served, key), At(s.logs, key), Remaining(s, key), At(s.wire, key))
  }

  ghost predicate Inv(s: System) {
    && (forall p :: 0 <= p < |s.procs| ==> ProcOk(s.procs[p]))
    && OwnersOk(s.procs, s.owner)
    && SpoolerOk(s)
    && (forall key :: EndpointOk(s, key))
  }

  lemma StartOk(n: nat, cap: nat)
    requires n > 0 && cap > 0
    ensures Inv(Start(n, cap))
  {
    var s := Start(n, cap);
    assert RunTasks(map[], []) == [] && RunCache(map[], []) == map[];
    assert OpsOf([]) == [];
    forall key
      ensures EndpointOk(s, key)
    {
      assert At(s.served, key) == [];
    }
  }

  // ----- every step keeps it -----

  /** The operation a process does next, by its place in the task. */
  lemma CurShape(proc: Proc)
    requires ProcOk(proc) && proc.cur != []
    ensures var t, ops := Last(proc), TaskOps(Last(proc));
      && proc.cur[0] == ops[|ops| - |proc.cur|]
      && (|proc.cur| == |ops| ==> proc.cur == ops)
      && (TaskMutex(t).Some? ==>
            && (|proc.cur| == |ops| <==> proc.cur[0] == Lock(TaskMutex(t).value))
            && (|proc.cur| == |ops| <==> proc.cur[0].Lock?)
            && (|proc.cur| == 1 <==> proc.cur[0] == Unlock(TaskMutex(t).value))
            && (|proc.cur| == 1 <==> proc.cur[0].Unlock?)
            && !proc.cur[0].Submit?)
      && (TaskMutex(t).None? ==> !proc.cur[0].Lock? && !proc.cur[0].Unlock?)
      && (proc.cur[0].Submit? ==> t == Put(proc.cur[0].job))
      && (IsWrite(proc.cur[0]) ==> SendKey(proc) == Some(proc.cur[0].key))
      && (SendKey(proc).Some? ==> ValidEndpoint(t.e) && TaskMutex(t) == Some(EndpointLock(SendKey(proc).value)))
  {
    hide TaskOps, OpsOf;
    TaskShape(Last(proc));
  }

  lemma AdvanceOk(proc: Proc)
    requires ProcOk(proc) && proc.cur != []
    ensures ProcOk(Advance(proc))
    ensures Holding(Advance(proc)) == if |proc.cur| > 1 then TaskMutex(Last(proc)) else None
    ensures Holding(proc) == if |proc.cur| < |TaskOps(Last(proc))| then TaskMutex(Last(proc)) else None
  {
    hide TaskOps, OpsOf;
    assert proc.past + [proc.cur[0]] + proc.cur[1..] == proc.past + proc.cur;
  }

  lemma BeginOk(proc: Proc)
    requires ProcOk(proc) && proc.cur == [] && proc.todo != []
    ensures ProcOk(proc.(begun := proc.begun + [proc.todo[0]], cur := TaskOps(proc.todo[0]), todo := proc.todo[1..]))
    ensures Holding(proc.(begun := proc.begun + [proc.todo[0]], cur := TaskOps(proc.todo[0]), todo := proc.todo[1..])) == None
  {
    hide TaskOps, OpsOf;
    OpsOfSnoc(proc.begun, proc.todo[0]);
  }

  /** One process takes a mutex nobody owns, gives back the one it holds, or does neither. */
  lemma OwnersUpdate(procs: seq<Proc>, owner: map<Mutex, nat>, p: nat, proc: Proc, owner': map<Mutex, nat>)
    requires OwnersOk(procs, owner) && p < |procs|
    requires var before, after := Holding(procs[p]), Holding(proc);
      || (before == after && owner' == owner)
      || (before == None && after.Some? && after.value !in owner && owner' == owner[after.value := p])
      || (before.Some? && after == None && owner' == owner - {before.value})
    ensures OwnersOk(procs[p := proc], owner')
  {
    hide Holding;
  }

  lemma ExecOwners(s: System, p: nat)
    requires Inv(s) && Enabled(s, Exec(p))
    ensures OwnersOk(ExecOn(s, p).procs, ExecOn(s, p).owner)
  {
    hide TaskOps, OpsOf, RunTasks, RunCache, EndpointOk, TaskMutex, SpoolerOk;
    hide WireAfter, LogsAfter, ServedAfter;
    var proc := s.procs[p];
    CurShape(proc);
    AdvanceOk(proc);
    TaskShape(Last(proc));
    OwnersUpdate(s.procs, s.owner, p, Advance(proc), OwnerAfter(s.owner, proc.cur[0], p));
  }

  lemma ExecSpooler(s: System, p: nat)
    requires Inv(s) && Enabled(s, Exec(p))
    ensures SpoolerOk(ExecOn(s, p))
  {
    hide TaskOps, OpsOf, RunTasks, RunCache, EndpointOk, ProcOk, OwnersOk;
    hide WireAfter, LogsAfter, ServedAfter, OwnerAfter;
    var s' := ExecOn(s, p);
    var op := s.procs[p].cur[0];
    assert s'.procs[0].begun == s.procs[0].begun && s'.procs[0].todo == s.procs[0].todo;
    assert s'.taken + s'.queue == s.taken + s.queue + Sent(op);
    assert op.Submit? ==> |s.queue| < s.cap;
  }

  /** What an operation adds at one endpoint. */
  lemma ExecAt(s: System, p: nat, key: string)
    requires Enabled(s, Exec(p))
    ensures var s', op, k := ExecOn(s, p), s.procs[p].cur[0], SendKey(s.procs[p]);
      && At(s'.wire, key) == At(s.wire, key) + BytesTo(key, op)
      && At(s'.logs, key) == At(s.logs, key) + (if k == Some(key) then [op] else [])
      && At(s'.served, key) == At(s.served, key) + (if k == Some(key) && op.Lock? then [Last(s.procs[p])] else [])
  {
    hide TaskOps, OpsOf, RunTasks, RunCache, OwnerAfter, SendKey;
  }

  lemma FactsLock(key: string, served: seq<Task>, log: seq<Op>, wire: seq<Byte>, t: Task)
    requires EndpointFacts(key, served, log, [], wire) && ServedAt(t, key) && TaskOps(t) != []
    ensures EndpointFacts(key, served + [t], log + [TaskOps(t)[0]], TaskOps(t)[1..], wire + BytesTo(key, TaskOps(t)[0]))
  {
    hide TaskOps, OpsOf, Delivered;
    OpsOfSnoc(served, t);
    DeliveredConcat(key, log, [TaskOps(t)[0]]);
    DeliveredOne(key, TaskOps(t)[0]);
    assert log + [] == log;
    assert log + [TaskOps(t)[0]] + TaskOps(t)[1..] == log + TaskOps(t);
  }

  lemma FactsOp(key: string, served: seq<Task>, log: seq<Op>, rest: seq<Op>, wire: seq<Byte>)
    requires EndpointFacts(key, served, log, rest, wire) && rest != []
    ensures EndpointFacts(key, served, log + [rest[0]], rest[1..], wire + BytesTo(key, rest[0]))
  {
    hide TaskOps, OpsOf, Delivered;
    DeliveredConcat(key, log, [rest[0]]);
    DeliveredOne(key, rest[0]);
    assert log + [rest[0]] + rest[1..] == log + rest;
  }

  lemma DeliveredOne(key: string, op: Op)
    ensures Delivered(key, [op]) == BytesTo(key, op)
  {
    assert [op][1..] == [];
  }

  lemma RemainingElsewhere(s: System, p: nat, key: string)
    requires Enabled(s, Exec(p)) && OwnersOk(s.procs, s.owner) && ProcOk(s.procs[p])
    requires SendKey(s.procs[p]) != Some(key)
    ensures Remaining(ExecOn(s, p), key) == Remaining(s, key)
    ensures BytesTo(key, s.procs[p].cur[0]) == []
  {
    hide TaskOps, OpsOf, Holding, ProcOk, TaskMutex, SendKey, WireAfter, LogsAfter, ServedAfter;
    var proc, m := s.procs[p], EndpointLock(key);
    CurShape(proc);
    AdvanceOk(proc);
    if TaskMutex(Last(proc)) == Some(m) {
      MutexOfSend(proc, key);
      assert false;
    }
    assert m in s.owner ==> s.owner[m] != p;
  }

  lemma ExecElsewhere(s: System, p: nat, key: string)
    requires Inv(s) && Enabled(s, Exec(p)) && SendKey(s.procs[p]) != Some(key)
    ensures EndpointOk(ExecOn(s, p), key)
  {
    hide TaskOps, OpsOf, SpoolerOk, EndpointFacts, OwnersOk, ProcOk, Remaining, ExecOn;
    ExecAt(s, p, key);
    RemainingElsewhere(s, p, key);
    assert EndpointOk(s, key);
    assert At(s.wire, key) + [] == At(s.wire, key) && At(s.logs, key) + [] == At(s.logs, key);
    assert At(s.served, key) + [] == At(s.served, key);
  }

  lemma MutexOfSend(proc: Proc, key: string)
    requires proc.begun != [] && TaskMutex(Last(proc)) == Some(EndpointLock(key))
    ensures SendKey(proc) == Some(key) && ServedAt(Last(proc), key)
  {
  }

  lemma ExecHere(s: System, p: nat, key: string)
    requires Inv(s) && Enabled(s, Exec(p)) && SendKey(s.procs[p]) == Some(key)
    ensures EndpointOk(ExecOn(s, p), key)
  {
    hide TaskOps, OpsOf, SpoolerOk, EndpointFacts, Holding, WireAfter, LogsAfter, ServedAfter;
    var s', proc := ExecOn(s, p), s.procs[p];
    var t, op, m := Last(proc), proc.cur[0], EndpointLock(key);
    ExecAt(s, p, key);
    CurShape(proc);
    AdvanceOk(proc);
    MutexOfSend(proc, key);
    assert EndpointOk(s, key);
    assert At(s'.wire, key) == At(s.wire, key) + BytesTo(key, op) && At(s'.logs, key) == At(s.logs, key) + [op];
    assert At(s'.served, key) == if op.Lock? then At(s.served, key) + [t] else At(s.served, key);
    if op.Lock? {
      assert op == Lock(m) && m !in s.owner;
      assert Remaining(s, key) == [];
      assert Remaining(s', key) == proc.cur[1..];
      FactsLock(key, At(s.served, key), At(s.logs, key), At(s.wire, key), t);
    } else {
      assert Holding(proc) == Some(m);
      assert s.owner[m] == p && Remaining(s, key) == proc.cur;
      FactsOp(key, At(s.served, key), At(s.logs, key), proc.cur, At(s.wire, key));
      assert op.Unlock? ==> proc.cur[1..] == [];
      assert Remaining(s', key) == proc.cur[1..];
    }
  }

  lemma ExecOk(s: System, p: nat)
    requires Inv(s) && Enabled(s, Exec(p))
    ensures Inv(ExecOn(s, p))
  {
    hide TaskOps, OpsOf, RunTasks, RunCache, Delivered, SpoolerOk, OwnersOk, EndpointOk, Holding;
    var s' := ExecOn(s, p);
    AdvanceOk(s.procs[p]);
    ExecOwners(s, p);
    ExecSpooler(s, p);
    forall key
      ensures EndpointOk(s', key)
    {
      if SendKey(s.procs[p]) == Some(key) {
        ExecHere(s, p, key);
      } else {
        ExecElsewhere(s, p, key);
      }
    }
  }

  /** A step that changes only tasks not yet begun, or begins one. */
  lemma QuietStepOk(s: System, s': System, p: nat)
    requires Inv(s) && p < |s.procs| && |s'.procs| == |s.procs|
    requires s'.procs == s.procs[p := s'.procs[p]]
    requires ProcOk(s'.procs[p]) && Holding(s'.procs[p]) == Holding(s.procs[p])
    requires s'.procs[p].cur == s.procs[p].cur || s.procs[p].cur == []
    requires s'.owner == s.owner && s'.served == s.served && s'.logs == s.logs && s'.wire == s.wire
    requires SpoolerOk(s')
    ensures Inv(s')
  {
    hide TaskOps, OpsOf, SpoolerOk, EndpointFacts, TaskMutex;
    OwnersUpdate(s.procs, s.owner, p, s'.procs[p], s.owner);
    forall key
      ensures EndpointOk(s', key)
    {
      assert EndpointOk(s, key);
      var m := EndpointLock(key);
      if m in s.owner {
        assert s.procs[s.owner[m]].cur != [] by { assert Holding(s.procs[s.owner[m]]) == Some(m); }
      }
      assert Remaining(s', key) == Remaining(s, key);
    }
  }

  lemma BeginStepOk(s: System, p: nat)
    requires Inv(s) && Enabled(s, Begin(p))
    ensures Inv(Next(s, Begin(p)))
  {
    hide TaskOps, OpsOf, OwnersOk, EndpointOk, ProcOk, Holding, RunTasks, RunCache;
    BeginOk(s.procs[p]) by { assert ProcOk(s.procs[p]); }
    var s' := Next(s, Begin(p));
    assert s'.procs[0].begun + s'.procs[0].todo == s.procs[0].begun + s.procs[0].todo;
    assert Holding(s.procs[p]) == None by { NotHolding(s.procs[p]); }
    QuietStepOk(s, s', p);
  }

  lemma NotHolding(proc: Proc)
    requires proc.cur == []
    ensures Holding(proc) == None
  {
  }

  lemma TodoOk(proc: Proc, todo: seq<Task>)
    ensures ProcOk(proc.(todo := todo)) <==> ProcOk(proc)
    ensures Holding(proc.(todo := todo)) == Holding(proc)
  {
    hide TaskOps, OpsOf, TaskMutex;
  }

  lemma TakeStepOk(s: System)
    requires Inv(s) && Enabled(s, Take)
    ensures Inv(Next(s, Take))
  {
    hide TaskOps, OpsOf, OwnersOk, EndpointOk, ProcOk, Holding, RunTasks, RunCache, HandleTasks, HandleCache;
    var s', job := Next(s, Take), s.queue[0];
    RunConcat(map[], s.taken, [job]);
    RunOne(s.cache, job);
    assert s.procs[0].begun + [] == s.procs[0].begun;
    assert s'.taken + s'.queue == s.submitted;
    TodoOk(s.procs[0], HandleTasks(s.cache, job));
    QuietStepOk(s, s', 0);
  }

  lemma StepOk(s: System, c: Choice)
    requires Inv(s) && Enabled(s, c)
    ensures Inv(Next(s, c))
  {
    hide TaskOps, OpsOf, OwnersOk, EndpointOk, ProcOk, Holding, RunTasks, RunCache;
    match c
    case Begin(p) =>
      BeginStepOk(s, p);
    case Exec(p) =>
      ExecOk(s, p);
    case Take =>
      TakeStepOk(s);
    case Arrive(p, tasks) =>
      TodoOk(s.procs[p], s.procs[p].todo + tasks);
      QuietStepOk(s, Next(s, c), p);
  }

  // ----- runs -----

  ghost predicate Runs(s: System, choices: seq<Choice>, s': System)
    decreases |choices|
  {
    if choices == [] then s' == s
    else Enabled(s, choices[0]) && Runs(Next(s, choices[0]), choices[1..], s')
  }

  /** Whatever the goroutines do, in whatever order. */
  lemma {:induction false} RunOk(s: System, choices: seq<Choice>, s': System)
    requires Inv(s) && Runs(s, choices, s')
    ensures Inv(s')
    decreases |choices|
  {
    hide Inv;
    if choices != [] {
      StepOk(s, choices[0]);
      RunOk(Next(s, choices[0]), choices[1..], s');
    }
  }
}
