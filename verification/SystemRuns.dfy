/** Every run of the whole bridge from its start, in any interleaving. */
module SystemRuns {
  import opened Basics
  import opened Tasks
  import opened Spooling
  import opened Interleaving
  import AckOrder
  import Pacing
  import Progress
  import SharedPrinters

  /**
   * After any run of n goroutines over a job channel of any capacity: each printer has received whole sends one after
   * the other and a part of the one that holds its lock, at the specified pace; the spooler has done what a sequential
   * run over the jobs taken does, and sent their acks in order; and while there is work, some goroutine can move.
   */
  lemma EveryRun(n: nat, cap: nat, choices: seq<Choice>, s: System, key: string) returns (whole: seq<Task>, partial: seq<Byte>)
    requires n > 0 && cap > 0 && Runs(Start(n, cap), choices, s)
    ensures SharedPrinters.Serial(s, key, whole, partial)
    ensures Pacing.WithinPace(At(s.logs, key)) <==> Pacing.Bucket(At(s.logs, key), 0)
    ensures s.procs != [] && s.taken + s.queue == s.submitted && |s.queue| <= cap
    ensures s.procs[0].past <= OpsOf(RunTasks(map[], s.taken))
    ensures AckOrder.Acks(s.procs[0].past) <= AckOrder.ExpectedAcks(map[], s.taken)
    ensures Progress.Work(s) > 0 ==> exists c: Choice :: !c.Arrive? && Enabled(s, c)
  {
    Reached(n, cap, choices, s);
    CapStays(Start(n, cap), choices, s);
    assert s.procs != [] by { assert SpoolerOk(s); }
    hide Inv, Runs, Enabled, SharedPrinters.Serial, Pacing.WithinPace, Pacing.Bucket, OpsOf, RunTasks, AckOrder.Acks, Progress.Work;
    whole, partial := SharedPrinters.SendsAreAtomic(s, key);
    SharedPrinters.PacedExactly(s, key);
    SharedPrinters.SpoolerTranscript(s);
    SharedPrinters.AcksInOrder(s);
    if Progress.Work(s) > 0 {
      Progress.NoDeadlock(s);
    }
  }

  lemma {:induction false} CapStays(s: System, choices: seq<Choice>, s': System)
    requires Runs(s, choices, s')
    ensures s'.cap == s.cap
    decreases |choices|
  {
    if choices != [] {
      CapStays(Next(s, choices[0]), choices[1..], s');
    }
  }

  lemma Reached(n: nat, cap: nat, choices: seq<Choice>, s: System)
    requires n > 0 && cap > 0 && Runs(Start(n, cap), choices, s)
    ensures Inv(s)
  {
    hide Inv, Runs;
    StartOk(n, cap);
    RunOk(Start(n, cap), choices, s);
  }

  /**
   * From wherever a run has got to, without new arrivals only so many more steps are possible, and once none is, every
   * submitted job has been handled as in a sequential run and no mutex is held.
   */
  lemma EveryRunEnds(n: nat, cap: nat, choices: seq<Choice>, s: System, more: seq<Choice>, s': System)
    requires n > 0 && cap > 0 && Runs(Start(n, cap), choices, s)
    requires Runs(s, more, s') && Progress.WithoutArrivals(more)
    ensures |more| <= Progress.Work(s)
    ensures s'.procs != []
    ensures (forall c: Choice :: Enabled(s', c) ==> c.Arrive?) ==>
      s'.owner == map[] && s'.taken == s'.submitted && s'.procs[0].past == OpsOf(RunTasks(map[], s'.submitted))
  {
    hide Runs, Enabled, Progress.Work, OpsOf, RunTasks;
    Reached(n, cap, choices, s);
    RunOk(s, more, s');
    assert s'.procs != [] by { assert SpoolerOk(s'); }
    hide Inv;
    Progress.RunsEnd(s, more, s');
    if forall c: Choice :: Enabled(s', c) ==> c.Arrive? {
      Progress.StuckMeansDone(s');
    }
  }
}
