/**
 * The update hand-off: the bridge leaves a request in update-requested.json, the root updater picks it up and leaves a
 * result in update-result.json, the watchdog gives up on requests nobody picked up. Each sequence of file operations
 * is one step, one updater runs at a time, and the runtime directory may be wiped between steps.
 */
module UpdateMailbox {
  import opened Basics
  import opened UpdateRequests

  const DEFAULT_TIMEOUT := 900
  const FAILED := "failed"
  const TOO_LATE := "updater_did_not_complete_in_time"

  datatype Trigger = Trigger(ticket: nat, request: Request, modified: int)

  /** The result file; one whose writing broke off is there but does not parse. */
  datatype Report = Report(ticket: nat, status: string, target: string, error: Option<string>, intact: bool)

  /** How far the writing of a result gets. */
  datatype Written = All | Part | Nothing

  /**
   * The two files and the updater's private copy of the request, with a ledger: requests are numbered as they are
   * accepted, `finished` lists the tickets results were written for, `read` those whose results the bridge read.
   */
  datatype Mail = Mail(
    dir: bool,
    trigger: Option<Trigger>,
    inFlight: Option<Trigger>,
    result: Option<Report>,
    accepted: nat,
    superseded: set<nat>,
    lost: set<nat>,
    finished: seq<nat>,
    read: seq<nat>,
    discarded: nat)

  const NO_MAIL: Mail := Mail(false, None, None, None, 0, {}, {}, [], [], 0)

  datatype Action =
    | MakeDir
    | Accept(request: Request, now: int)                         // HandleUpdateAction, writes succeeding
    | PickUp                                                     // updater: copy the trigger, remove it
    | Finish(status: string, error: string, written: Written)    // updater: write_result
    | Abort                                                      // updater: exit without a result
    | Watchdog(now: int, timeoutSec: int, written: Written)      // CheckWatchdog
    | Consume                                                    // ConsumePendingUpdateResult
    | Wipe                                                       // the runtime directory goes away

  function Timeout(timeoutSec: int): int { if timeoutSec <= 0 then DEFAULT_TIMEOUT else timeoutSec }

  function TicketOf(t: Option<Trigger>): Option<nat> { if t.Some? then Some(t.value.ticket) else None }

  function OneOf(t: Option<Trigger>): set<nat> { if t.Some? then {t.value.ticket} else {} }

  predicate Overdue(m: Mail, now: int, timeoutSec: int) {
    m.trigger.Some? && m.result.None? && now - m.trigger.value.modified >= Timeout(timeoutSec)
  }

  function Unread(m: Mail): nat { if m.result.Some? then 1 else 0 }

  function ReportFor(t: Trigger, status: string, error: string, written: Written): Report {
    Report(t.ticket, status, t.request.target, if error == "" then None else Some(error), written.All?)
  }

  function LateReport(t: Trigger, written: Written): Report {
    Report(t.ticket, FAILED, "", Some(TOO_LATE), written.All?)
  }

  function Put(m: Mail, report: Report): Mail {
    m.(result := Some(report), finished := m.finished + [report.ticket], discarded := m.discarded + Unread(m))
  }

  predicate Enabled(m: Mail, a: Action) {
    match a
    case PickUp => m.trigger.Some? && m.inFlight.None?
    case Finish(_, _, _) => m.inFlight.Some?
    case Abort => m.inFlight.Some?
    case _ => true
  }

  function Next(m: Mail, a: Action): Mail
    requires Enabled(m, a)
  {
    match a
    case MakeDir => m.(dir := true)
    case Accept(request, now) =>
      m.(dir := true, trigger := Some(Trigger(m.accepted, request, now)), superseded := m.superseded + OneOf(m.trigger),
         accepted := m.accepted + 1)
    case PickUp =>
      m.(inFlight := m.trigger, trigger := None)
    case Finish(status, error, written) =>
      if m.dir && !written.Nothing? then Put(m, ReportFor(m.inFlight.value, status, error, written)).(inFlight := None)
      else m.(inFlight := None, lost := m.lost + OneOf(m.inFlight))
    case Abort =>
      m.(inFlight := None, lost := m.lost + OneOf(m.inFlight))
    case Watchdog(now, timeoutSec, written) =>
      if !Overdue(m, now, timeoutSec) then m
      else if !written.Nothing? then Put(m, LateReport(m.trigger.value, written)).(trigger := None)
      else m.(trigger := None, lost := m.lost + OneOf(m.trigger))
    case Consume =>
      if m.result.None? then m
      else if m.result.value.intact then m.(result := None, read := m.read + [m.result.value.ticket])
      else m.(result := None, discarded := m.discarded + 1)
    case Wipe =>
      m.(dir := false, trigger := None, result := None, lost := m.lost + OneOf(m.trigger), discarded := m.discarded + Unread(m))
  }

  // ----- what every run keeps -----

  /** In how many of the five conditions a request is. */
  function Fates(m: Mail, t: nat): nat {
    (if TicketOf(m.trigger) == Some(t) then 1 else 0)
    + (if TicketOf(m.inFlight) == Some(t) then 1 else 0)
    + (if t in m.superseded then 1 else 0)
    + (if t in m.finished then 1 else 0)
    + (if t in m.lost then 1 else 0)
  }

  predicate Distinct(s: seq<nat>) {
    forall i, j :: 0 <= i < j < |s| ==> s[i] != s[j]
  }

  /** The elements of a in the order they have in b. */
  predicate Subsequence(a: seq<nat>, b: seq<nat>)
    decreases |b|
  {
    a == [] ||
    (b != [] &&
     if a[|a| - 1] == b[|b| - 1] then Subsequence(a[..|a| - 1], b[..|b| - 1]) else Subsequence(a, b[..|b| - 1]))
  }

  /** Each accepted request is in exactly one condition, and nothing else is in any. */
  ghost predicate OneFateEach(m: Mail) {
    forall t: nat :: Fates(m, t) == if t < m.accepted then 1 else 0
  }

  /** The unread result is the one written last. */
  ghost predicate ReadInOrder(m: Mail) {
    && Subsequence(m.read, m.finished)
    && (m.result.Some? ==>
          && m.finished != [] && m.result.value.ticket == m.finished[|m.finished| - 1]
          && m.result.value.ticket !in m.read)
    && |m.finished| == |m.read| + m.discarded + Unread(m)
  }

  ghost predicate Inv(m: Mail) {
    && (!m.dir ==> m.trigger.None? && m.result.None?)
    && OneFateEach(m)
    && Distinct(m.finished)
    && ReadInOrder(m)
  }

  lemma {:induction false} SubsequenceIn(a: seq<nat>, b: seq<nat>, x: nat)
    requires Subsequence(a, b) && x in a
    ensures x in b
    decreases |b|
  {
    if a[|a| - 1] != b[|b| - 1] {
      SubsequenceIn(a, b[..|b| - 1], x);
    } else if x != a[|a| - 1] {
      SubsequenceIn(a[..|a| - 1], b[..|b| - 1], x);
    }
  }

  lemma StepMovesOne(m: Mail, a: Action, t: nat)
    requires Inv(m) && Enabled(m, a)
    ensures Fates(Next(m, a), t) == if t < Next(m, a).accepted then 1 else 0
  {
    hide Distinct, ReadInOrder;
    assert Fates(m, t) == if t < m.accepted then 1 else 0;
  }

  lemma NotFinishedYet(m: Mail, t: nat)
    requires Inv(m) && (TicketOf(m.inFlight) == Some(t) || TicketOf(m.trigger) == Some(t))
    ensures t !in m.finished
  {
    hide Distinct, ReadInOrder;
    assert Fates(m, t) <= 1;
  }

  lemma PutKeeps(m: Mail, report: Report)
    requires ReadInOrder(m) && Distinct(m.finished) && report.ticket !in m.finished
    ensures ReadInOrder(Put(m, report)) && Distinct(Put(m, report).finished)
  {
    hide Subsequence;
    var t := report.ticket;
    if t in m.read {
      SubsequenceIn(m.read, m.finished, t);
    }
    SubsequenceGrows(m.read, m.finished, t);
  }

  lemma SubsequenceGrows(a: seq<nat>, b: seq<nat>, t: nat)
    requires Subsequence(a, b) && t !in a
    ensures Subsequence(a, b + [t])
  {
    assert (b + [t])[..|b|] == b;
  }

  lemma ConsumeKeeps(m: Mail)
    requires ReadInOrder(m)
    ensures ReadInOrder(Next(m, Consume))
  {
    if m.result.Some? && m.result.value.intact {
      var a := m.read + [m.result.value.ticket];
      assert a[..|m.read|] == m.read;
      assert m.read != [] ==> m.read[|m.read| - 1] in m.read;
    }
  }

  lemma StepOk(m: Mail, a: Action)
    requires Inv(m) && Enabled(m, a)
    ensures Inv(Next(m, a))
  {
    hide Fates, Subsequence, Distinct;
    forall t: nat
      ensures Fates(Next(m, a), t) == if t < Next(m, a).accepted then 1 else 0
    {
      StepMovesOne(m, a, t);
    }
    ReadStep(m, a);
  }

  lemma ReadStep(m: Mail, a: Action)
    requires Inv(m) && Enabled(m, a)
    ensures ReadInOrder(Next(m, a)) && Distinct(Next(m, a).finished)
  {
    hide OneFateEach, Subsequence, Distinct;
    ConsumeKeeps(m);
    if a.Finish? {
      NotFinishedYet(m, m.inFlight.value.ticket);
      PutKeeps(m, ReportFor(m.inFlight.value, a.status, a.error, a.written));
    }
    if a.Watchdog? && m.trigger.Some? {
      NotFinishedYet(m, m.trigger.value.ticket);
      PutKeeps(m, LateReport(m.trigger.value, a.written));
    }
  }

  lemma StartOk()
    ensures Inv(NO_MAIL)
  {
  }

  ghost predicate Runs(m: Mail, actions: seq<Action>, m': Mail)
    decreases |actions|
  {
    if actions == [] then m' == m else Enabled(m, actions[0]) && Runs(Next(m, actions[0]), actions[1..], m')
  }

  lemma {:induction false} RunOk(m: Mail, actions: seq<Action>, m': Mail)
    requires Inv(m) && Runs(m, actions, m')
    ensures Inv(m')
    decreases |actions|
  {
    hide Inv;
    if actions != [] {
      StepOk(m, actions[0]);
      RunOk(Next(m, actions[0]), actions[1..], m');
    }
  }

  lemma {:induction false} DistinctBelow(s: seq<nat>, n: nat)
    requires Distinct(s) && forall i :: 0 <= i < |s| ==> s[i] < n
    ensures |s| <= n
    decreases n
  {
    if s != [] {
      assert s[0] < n;
      if exists k :: 0 <= k < |s| && s[k] == n - 1 {
        var k :| 0 <= k < |s| && s[k] == n - 1;
        DistinctBelow(s[..k] + s[k + 1..], n - 1);
      } else {
        DistinctBelow(s, n - 1);
      }
    }
  }

  lemma FinishedBounded(m: Mail)
    requires Inv(m)
    ensures |m.finished| <= m.accepted
  {
    hide Fates, ReadInOrder;
    forall i | 0 <= i < |m.finished|
      ensures m.finished[i] < m.accepted
    {
      FinishedIsAFate(m, m.finished[i]);
    }
    DistinctBelow(m.finished, m.accepted);
  }

  lemma FinishedIsAFate(m: Mail, t: nat)
    requires t in m.finished
    ensures Fates(m, t) >= 1
  {
  }

  /**
   * After every run: each accepted request is in exactly one of waiting, in flight, superseded, finished and lost;
   * none has two results; results are read in the order they were written, and
   * results read <= results written <= requests accepted.
   */
  lemma HandOff(actions: seq<Action>, m: Mail)
    requires Runs(NO_MAIL, actions, m)
    ensures OneFateEach(m) && Distinct(m.finished)
    ensures Subsequence(m.read, m.finished)
    ensures |m.read| + m.discarded + Unread(m) == |m.finished| <= m.accepted
  {
    hide Runs, OneFateEach, Distinct, Subsequence;
    StartOk();
    RunOk(NO_MAIL, actions, m);
    FinishedBounded(m);
  }

  /**
   * The watchdog acts exactly on a request that has waited its time while no result is unread; the result it writes is
   * that request's own first one, and it neither touches the request in flight nor throws a result away.
   */
  lemma WatchdogIsSafe(m: Mail, now: int, timeoutSec: int, written: Written)
    requires Inv(m)
    ensures var m' := Next(m, Watchdog(now, timeoutSec, written));
      && (m' != m <==> Overdue(m, now, timeoutSec))
      && m'.inFlight == m.inFlight && m'.discarded == m.discarded
      && (m.result.Some? ==> m' == m)
      && (m'.finished != m.finished ==>
            m'.finished == m.finished + [m.trigger.value.ticket] && m.trigger.value.ticket !in m.finished
            && TicketOf(m.inFlight) != Some(m.trigger.value.ticket))
  {
    if m.trigger.Some? {
      assert Fates(m, m.trigger.value.ticket) <= 1;
    }
  }

  /**
   * A waiting request with no unread result beside it is left alone exactly while it is younger than the time given, or
   * than 900 s when none is; in every other state the watchdog does nothing.
   */
  lemma WatchdogWaits(m: Mail, now: int, timeoutSec: int, written: Written)
    ensures var m' := Next(m, Watchdog(now, timeoutSec, written));
      m' == m <==>
        || m.trigger.None? || m.result.Some?
        || now < m.trigger.value.modified + if timeoutSec <= 0 then 900 else timeoutSec
  {
  }

  /** Nothing here replaces, takes or wipes a waiting request, and the watchdog never looks when it is that old. */
  predicate LeavesAlone(a: Action, since: int) {
    match a
    case Accept(_, _) => false
    case PickUp => false
    case Wipe => false
    case Watchdog(now, timeoutSec, _) => now < since + if timeoutSec <= 0 then 900 else timeoutSec
    case _ => true
  }

  lemma {:induction false} StillWaiting(m: Mail, actions: seq<Action>, m': Mail, t: Trigger)
    requires Runs(m, actions, m') && m.trigger == Some(t)
    requires forall i :: 0 <= i < |actions| ==> LeavesAlone(actions[i], t.modified)
    ensures m'.trigger == Some(t)
    decreases |actions|
  {
    if actions != [] {
      assert LeavesAlone(actions[0], t.modified);
      StillWaiting(Next(m, actions[0]), actions[1..], m', t);
    }
  }

  /** A request accepted at a time waits, as accepted, through every run that does not take it away before its time. */
  lemma YoungRequestWaits(m: Mail, request: Request, at: int, actions: seq<Action>, m': Mail)
    requires Runs(Next(m, Accept(request, at)), actions, m')
    requires forall i :: 0 <= i < |actions| ==> LeavesAlone(actions[i], at)
    ensures m'.trigger == Some(Trigger(m.accepted, request, at)) && m.accepted < m'.accepted
  {
    hide Runs, LeavesAlone;
    var m1 := Next(m, Accept(request, at));
    assert m1.trigger == Some(Trigger(m.accepted, request, at));
    StillWaiting(m1, actions, m', m1.trigger.value) by { assert m1.trigger.value.modified == at; }
    AcceptedGrows(m1, actions, m');
  }

  lemma {:induction false} AcceptedGrows(m: Mail, actions: seq<Action>, m': Mail)
    requires Runs(m, actions, m')
    ensures m.accepted <= m'.accepted
    decreases |actions|
  {
    if actions != [] {
      AcceptedGrows(Next(m, actions[0]), actions[1..], m');
    }
  }

  /**
   * How requests end otherwise than with a result: superseded by the next one while waiting; lost when the updater
   * gives up or its result cannot be written, when the watchdog's result cannot, or when the directory goes.
   */
  lemma WhoIsLost(m: Mail, a: Action, t: nat)
    requires Inv(m) && Enabled(m, a)
    ensures t in Next(m, a).superseded <==> t in m.superseded || (a.Accept? && TicketOf(m.trigger) == Some(t))
    ensures t in Next(m, a).lost <==>
      || t in m.lost
      || (TicketOf(m.inFlight) == Some(t) && (a.Abort? || (a.Finish? && (!m.dir || a.written.Nothing?))))
      || (TicketOf(m.trigger) == Some(t) && (a.Wipe? || (a.Watchdog? && a.written.Nothing? && Next(m, a) != m)))
    ensures TicketOf(Next(m, a).inFlight) == Some(t) <==>
      if a.PickUp? then TicketOf(m.trigger) == Some(t) else TicketOf(m.inFlight) == Some(t) && !a.Finish? && !a.Abort?
  {
    hide Fates, Subsequence;
  }

  /** Whether the directory is there, and what the two files hold, after each action. */
  lemma FilesAfter(m: Mail, a: Action)
    requires Enabled(m, a)
    ensures var m', late := Next(m, a), a.Watchdog? && m.trigger.Some? && m.result.None?
        && m.trigger.value.modified + (if a.timeoutSec <= 0 then 900 else a.timeoutSec) <= a.now;
      && (m'.dir <==> a.MakeDir? || a.Accept? || (m.dir && !a.Wipe?))
      && m'.trigger == (
           if a.Accept? then Some(Trigger(m.accepted, a.request, a.now)) else if a.PickUp? || a.Wipe? || late then None else m.trigger)
      && m'.result == (
           if a.Wipe? || a.Consume? then None
           else if a.Finish? && m.dir && !a.written.Nothing? then
             var t := m.inFlight.value;
             Some(Report(t.ticket, a.status, t.request.target, if a.error == "" then None else Some(a.error), a.written == All))
           else if late && !a.written.Nothing? then
             Some(Report(m.trigger.value.ticket, "failed", "", Some("updater_did_not_complete_in_time"), a.written == All))
           else m.result)
  {
  }

  // ----- which results are read -----

  /** The action removes or replaces an unread result. */
  predicate Destroys(a: Action) {
    a.Wipe? || (a.Finish? && !a.written.Nothing?)
  }

  /** The first action that reads or destroys reads. */
  predicate ReadFirst(actions: seq<Action>) {
    actions != [] && (actions[0].Consume? || (!Destroys(actions[0]) && ReadFirst(actions[1..])))
  }

  /** A result that is gone unread stays unread. */
  lemma {:induction false} GoneForGood(m: Mail, actions: seq<Action>, m': Mail, t: nat)
    requires Inv(m) && Runs(m, actions, m')
    requires t in m.finished && (m.result.Some? ==> m.result.value.ticket != t)
    ensures t in m'.read <==> t in m.read
    decreases |actions|
  {
    hide OneFateEach, Distinct, Subsequence;
    if actions != [] {
      var a := actions[0];
      StepOk(m, a);
      if a.Finish? {
        NotFinishedYet(m, m.inFlight.value.ticket);
      }
      if m.trigger.Some? {
        NotFinishedYet(m, m.trigger.value.ticket);
      }
      GoneForGood(Next(m, a), actions[1..], m', t);
    }
  }

  lemma {:induction false} UnreadFrom(m: Mail, actions: seq<Action>, m': Mail)
    requires Inv(m) && Runs(m, actions, m') && m.result.Some?
    ensures m.result.value.ticket in m'.read <==> m.result.value.intact && ReadFirst(actions)
    decreases |actions|
  {
    hide OneFateEach, Distinct, Subsequence;
    if actions != [] {
      var a, m1 := actions[0], Next(m, actions[0]);
      StepOk(m, a);
      if a.Finish? {
        NotFinishedYet(m, m.inFlight.value.ticket);
      }
      if a.Consume? || Destroys(a) {
        GoneForGood(m1, actions[1..], m', m.result.value.ticket);
      } else {
        UnreadFrom(m1, actions[1..], m');
      }
    }
  }

  /**
   * In every run, a result that some action writes is read later if and only if it was written whole and, of the
   * actions that follow, the first that reads a result, replaces it or wipes the directory is one that reads.
   */
  lemma ResultRead(before: seq<Action>, m: Mail, a: Action, after: seq<Action>, m': Mail)
    requires Runs(NO_MAIL, before, m) && Enabled(m, a) && Runs(Next(m, a), after, m')
    requires Next(m, a).finished != m.finished
    ensures Next(m, a).result.Some?
    ensures Next(m, a).result.value.ticket in m'.read <==> Next(m, a).result.value.intact && ReadFirst(after)
  {
    hide Inv, Runs, ReadFirst;
    StartOk();
    RunOk(NO_MAIL, before, m);
    StepOk(m, a);
    UnreadFrom(Next(m, a), after, m');
  }

  /** It does happen: an update that succeeds within the 30 s between two readings hides the failure before it. */
  lemma ResultCanBeHidden(request: Request, error: string) returns (actions: seq<Action>, m: Mail)
    ensures Runs(NO_MAIL, actions, m) && m.finished == [0, 1] && m.read == [1]
  {
    hide Runs, Inv;
    var failure, success := Finish(FAILED, error, All), Finish("success", "", All);
    var m1 := Next(NO_MAIL, Accept(request, 0));
    var m2 := Next(m1, PickUp);
    var m3 := Next(m2, failure);
    var m4 := Next(m3, Accept(request, 1));
    var m5 := Next(m4, PickUp);
    var m6 := Next(m5, success);
    m := Next(m6, Consume);
    actions := RunsNot(m);
    actions := RunsMore(m6, Consume, actions, m);
    actions := RunsMore(m5, success, actions, m);
    actions := RunsMore(m4, PickUp, actions, m);
    actions := RunsMore(m3, Accept(request, 1), actions, m);
    actions := RunsMore(m2, failure, actions, m);
    actions := RunsMore(m1, PickUp, actions, m);
    actions := RunsMore(NO_MAIL, Accept(request, 0), actions, m);
  }

  lemma RunsNot(m: Mail) returns (none: seq<Action>)
    ensures Runs(m, none, m)
  {
    none := [];
  }

  lemma RunsMore(m: Mail, a: Action, later: seq<Action>, end: Mail) returns (all: seq<Action>)
    requires Enabled(m, a) && Runs(Next(m, a), later, end)
    ensures Runs(m, all, end)
  {
    hide Enabled, Next;
    all := [a] + later;
    assert all[1..] == later;
  }

  // ----- the files and the functions that work on them -----

  class Runtime {
    var dir: bool
    var trigger: Option<Trigger>
    var result: Option<Report>
    /** The rest of the ledger; `mail` always agrees with the files. */
    ghost var mail: Mail

    ghost predicate Valid()
      reads this
    {
      Inv(mail) && mail.dir == dir && mail.trigger == trigger && mail.result == result
    }

    constructor ()
      ensures Valid() && mail == NO_MAIL
    {
      hide Inv;
      StartOk();
      dir, trigger, result, mail := false, None, None, NO_MAIL;
    }

    /** `id` numbers the request; `mkdirs`, `writes` and `renames` are the outcomes of the file operations. */
    method HandleUpdateAction(id: nat, payload: Payload, now: int, mkdirs: bool, writes: bool, renames: bool)
      returns (accepted: bool, reason: string)
      requires Valid() && id == mail.accepted
      modifies this
      ensures Valid()
      ensures reason ==
        if !IsVersion(payload.target) then "invalid target_version"
        else if !LinksOk(payload) then "url_or_sha_invalid"
        else if !mkdirs then "trigger_dir_unavailable"
        else if !writes || !renames then "trigger_write_failed"
        else ""
      ensures accepted == (reason == "")
      ensures accepted ==>
        && dir && result == old(result)
        && trigger == Some(Trigger(id, Request(payload.target, payload.tarball, payload.minisig, payload.sha,
             payload.requestedAt, if payload.requestedBy.None? then "cloud" else payload.requestedBy.value), now))
      ensures !accepted ==> trigger == old(trigger) && result == old(result)
      ensures mail ==
        if accepted then Next(old(mail), Accept(Stored(payload), now))
        else if IsVersion(payload.target) && LinksOk(payload) && mkdirs then Next(old(mail), MakeDir)
        else old(mail)
    {
      hide Inv, IsVersion, IsAllowedUrl, IsSha;
      var request := Stored(payload);
      StepOk(mail, Accept(request, now));
      StepOk(mail, MakeDir);
      accepted := false;
      if !IsVersion(payload.target) {
        reason := "invalid target_version";
        return;
      }
      if !IsAllowedUrl(payload.tarball) || !IsAllowedUrl(payload.minisig) || !IsSha(payload.sha) {
        reason := "url_or_sha_invalid";
        return;
      }
      if !mkdirs {
        reason := "trigger_dir_unavailable";
        return;
      }
      dir := true;
      if !writes || !renames {
        mail := Next(mail, MakeDir);
        reason := "trigger_write_failed";
        return;
      }
      mail := Next(mail, Accept(request, now));
      trigger := Some(Trigger(id, request, now));
      accepted, reason := true, "";
    }

    /** A result that does not parse is removed all the same, and nothing is returned. */
    method ConsumePendingUpdateResult() returns (r: Option<Report>)
      requires Valid()
      modifies this
      ensures Valid() && mail == Next(old(mail), Consume)
      ensures r == if old(result).Some? && old(result).value.intact then old(result) else None
      ensures result.None?
    {
      hide Inv;
      StepOk(mail, Consume);
      mail := Next(mail, Consume);
      r := None;
      if result.Some? {
        if result.value.intact {
          r := result;
        }
        result := None;
      }
    }

    method CheckWatchdog(timeoutSec: int, now: int, written: Written) returns (fired: bool)
      requires Valid()
      modifies this
      ensures Valid() && mail == Next(old(mail), Watchdog(now, timeoutSec, written))
      ensures fired <==>
        && old(trigger).Some? && old(result).None?
        && now >= old(trigger).value.modified + (if timeoutSec <= 0 then 900 else timeoutSec)
      ensures !fired ==> trigger == old(trigger) && result == old(result)
      ensures fired ==> trigger.None?
      ensures fired && !written.Nothing? ==>
        result == Some(Report(old(trigger).value.ticket, "failed", "", Some("updater_did_not_complete_in_time"), written.All?))
    {
      hide Inv;
      StepOk(mail, Watchdog(now, timeoutSec, written));
      mail := Next(mail, Watchdog(now, timeoutSec, written));
      var timeout := timeoutSec;
      if timeout <= 0 {
        timeout := DEFAULT_TIMEOUT;
      }
      fired := false;
      if trigger.None? {
        return;
      }
      if result.Some? {
        return;
      }
      if now - trigger.value.modified < timeout {
        return;
      }
      if !written.Nothing? {
        result := Some(Report(trigger.value.ticket, FAILED, "", Some(TOO_LATE), written.All?));
      }
      trigger := None;
      fired := true;
    }

    /** The updater's start: copy the trigger into a private file, then remove it. */
    method PickUpTrigger() returns (copy: Option<Trigger>)
      requires Valid() && mail.inFlight.None?
      modifies this
      ensures Valid() && dir && trigger.None? && copy == old(trigger)
      ensures mail == if copy.None? then Next(old(mail), MakeDir) else Next(old(mail), PickUp)
    {
      hide Inv;
      copy := trigger;
      if trigger.None? {
        StepOk(mail, MakeDir);
        dir, mail := true, Next(mail, MakeDir);
        return;
      }
      StepOk(mail, PickUp);
      DirWithTrigger(mail);
      mail := Next(mail, PickUp);
      trigger := None;
    }

    /** write_result; it fails when the directory is gone. */
    method WriteUpdateResult(copy: Trigger, status: string, error: string, written: Written) returns (ok: bool)
      requires Valid() && mail.inFlight == Some(copy)
      modifies this
      ensures Valid() && mail == Next(old(mail), Finish(status, error, written))
      ensures ok == (old(dir) && written.All?)
      ensures ok ==> result == Some(Report(copy.ticket, status, copy.request.target, if error == "" then None else Some(error), true))
    {
      hide Inv;
      StepOk(mail, Finish(status, error, written));
      mail := Next(mail, Finish(status, error, written));
      ok := dir && written.All?;
      if dir && !written.Nothing? {
        result := Some(ReportFor(copy, status, error, written));
      }
    }
  }

  lemma DirWithTrigger(m: Mail)
    requires Inv(m) && m.trigger.Some?
    ensures m.dir
  {
  }
}
