/**
 * The pairing rendezvous: /api/pair handlers (internal/pairing/serve.go) put requests on a bounded channel and wait on
 * a reply channel of their own; the session (internal/cloud/client.go) forwards codes and keeps one pending reply channel.
 */
module Pairing {
  import opened Basics

  const CHANNEL_CAPACITY := 4
  const REPLY_CAPACITY := 1

  datatype Result = Result(ok: bool, reason: string)

  /**
   * Requests are numbered as they enter the channel. `replies[r]` is everything ever sent on r's reply channel,
   * `waiting` the handlers that have not answered their client yet, `busy` the clients turned away.
   * `outstanding` are the codes sent on this connection that the cloud has not answered; `handed` pairs each request
   * that was given an answer of the cloud with the request that answer was about.
   */
  datatype World = World(
    replies: seq<seq<Result>>,
    channel: seq<nat>,
    pending: Option<nat>,
    waiting: set<nat>,
    busy: nat,
    taken: nat,
    failed: set<nat>,
    answered: set<nat>,
    overwritten: set<nat>,
    dropped: set<nat>,
    outstanding: seq<nat>,
    handed: seq<(nat, Option<nat>)>)

  const START: World := World([], [], None, {}, 0, 0, {}, {}, {}, {}, [], [])

  datatype Action =
    | Ask                                          // a client posts a well-formed code
    | Hear(request: nat)                           // its handler reads the reply channel
    | GiveUp(request: nat)                         // or its 15 s timer fires
    | Forward(sent: bool)                          // the session takes a request; did the websocket write succeed
    | Answer(about: Option<nat>, result: Result)   // a pairing_result arrives, about outstanding[about] or out of the blue
    | EndSession                                   // the connection ends and the next one starts

  predicate Enabled(w: World, a: Action) {
    match a
    case Ask => true
    case Hear(r) => r in w.waiting && r < |w.replies| && w.replies[r] != []
    case GiveUp(r) => r in w.waiting
    case Forward(_) => w.channel != []
    case Answer(about, _) => about.None? || about.value < |w.outstanding|
    case EndSession => true
  }

  /** Send on r's reply channel. */
  function Reply(w: World, r: nat, result: Result): World
    requires r < |w.replies|
  {
    w.(replies := w.replies[r := w.replies[r] + [result]])
  }

  function Overwrite(w: World): set<nat> {
    if w.pending.Some? then w.overwritten + {w.pending.value} else w.overwritten
  }

  predicate Numbered(w: World) {
    && (forall i :: 0 <= i < |w.channel| ==> w.channel[i] < |w.replies|)
    && (w.pending.Some? ==> w.pending.value < |w.replies|)
  }

  function Next(w: World, a: Action): World
    requires Numbered(w) && Enabled(w, a)
  {
    match a
    case Ask =>
      if |w.channel| < CHANNEL_CAPACITY then
        var r := |w.replies|;
        w.(replies := w.replies + [[]], channel := w.channel + [r], waiting := w.waiting + {r})
      else
        w.(busy := w.busy + 1)
    case Hear(r) => w.(waiting := w.waiting - {r})
    case GiveUp(r) => w.(waiting := w.waiting - {r})
    case Forward(sent) =>
      var r := w.channel[0];
      var v := w.(channel := w.channel[1..], taken := w.taken + 1);
      if sent then v.(pending := Some(r), overwritten := Overwrite(w), outstanding := w.outstanding + [r])
      else Reply(v, r, Result(false, "send_failed")).(failed := w.failed + {r})
    case Answer(about, result) =>
      var v := if about.None? then w else
        w.(outstanding := w.outstanding[..about.value] + w.outstanding[about.value + 1..]);
      if w.pending.None? then v
      else
        var subject := if about.None? then None else Some(w.outstanding[about.value]);
        Reply(v, w.pending.value, result).(
          pending := None,
          answered := w.answered + {w.pending.value},
          handed := w.handed + [(w.pending.value, subject)])
    case EndSession =>
      w.(pending := None,
         dropped := if w.pending.Some? then w.dropped + {w.pending.value} else w.dropped,
         outstanding := [])
  }

  // ----- what every step keeps -----

  function One(b: bool): nat { if b then 1 else 0 }

  /** In how many of the possible places request r is. */
  function Places(w: World, r: nat): nat {
    One(r in w.channel) + One(w.pending == Some(r)) + One(r in w.failed) + One(r in w.answered)
    + One(r in w.overwritten) + One(r in w.dropped)
  }

  ghost predicate InOrder(w: World) {
    && |w.channel| <= CHANNEL_CAPACITY
    && w.taken + |w.channel| == |w.replies|
    && forall i :: 0 <= i < |w.channel| ==> w.channel[i] == w.taken + i
  }

  ghost predicate Below(s: set<nat>, n: nat) { forall r :: r in s ==> r < n }

  ghost predicate Placed(w: World) {
    && (forall r :: 0 <= r < |w.replies| ==> Places(w, r) == 1)
    && Below(w.failed, w.taken) && Below(w.answered, w.taken) && Below(w.overwritten, w.taken) && Below(w.dropped, w.taken)
    && (w.pending.Some? ==> w.pending.value < w.taken)
    && Below(w.waiting, |w.replies|)
  }

  /** A request has a result exactly when its code could not be sent or an answer was handed to it, and then one only. */
  ghost predicate Answered(w: World) {
    forall r :: 0 <= r < |w.replies| ==> |w.replies[r]| == One(r in w.failed || r in w.answered)
  }

  ghost predicate Counted(w: World) {
    w.taken == |w.failed| + |w.answered| + |w.overwritten| + |w.dropped| + One(w.pending.Some?)
  }

  /** The pending request was the last one sent, and no answer has come since. */
  ghost predicate Asked(w: World) {
    && (w.pending.Some? ==> w.outstanding != [] && w.outstanding[|w.outstanding| - 1] == w.pending.value)
    && (forall i :: 0 <= i < |w.outstanding| ==> w.outstanding[i] < w.taken)
    && (forall i, j :: 0 <= i < j < |w.outstanding| ==> w.outstanding[i] < w.outstanding[j])
  }

  ghost predicate Inv(w: World) {
    Numbered(w) && InOrder(w) && Placed(w) && Answered(w) && Counted(w) && Asked(w)
  }

  /** The session's send on a reply channel does not block: nothing was ever sent on it. */
  lemma NeverBlocks(w: World)
    requires Inv(w)
    ensures w.channel != [] ==> |w.replies[w.channel[0]]| < REPLY_CAPACITY
    ensures w.pending.Some? ==> |w.replies[w.pending.value]| < REPLY_CAPACITY
  {
    if w.channel != [] {
      assert Places(w, w.channel[0]) == 1 && w.channel[0] in w.channel;
    }
    if w.pending.Some? {
      assert Places(w, w.pending.value) == 1;
    }
  }

  lemma Shape(w: World)
    requires Inv(w)
    ensures Numbered(w)
    ensures w.channel != [] ==> w.channel[0] < |w.replies| && w.replies[w.channel[0]] == []
    ensures w.pending.Some? ==> w.pending.value < |w.replies| && w.replies[w.pending.value] == []
  {
    NeverBlocks(w);
  }

  /** A reply that is there is the only one there will ever be. */
  lemma OneReply(w: World, r: nat)
    requires Inv(w) && r < |w.replies| && w.replies[r] != []
    ensures |w.replies[r]| == 1
  {
  }

  lemma AskKeeps(w: World)
    requires Inv(w)
    ensures Inv(Next(w, Ask))
  {
    var z := Next(w, Ask);
    if |w.channel| < CHANNEL_CAPACITY {
      forall r | 0 <= r < |z.replies|
        ensures Places(z, r) == 1
      {
        assert r in z.channel <==> r in w.channel || r == |w.replies|;
        if r < |w.replies| {
          assert Places(w, r) == 1;
        }
      }
    } else {
      assert forall r :: 0 <= r < |w.replies| ==> Places(z, r) == Places(w, r);
    }
  }

  /** The request at the head of the channel moves to the pending slot or to the failed ones, the others stay or are displaced. */
  lemma ForwardPlaces(w: World, sent: bool, r: nat)
    requires Inv(w) && w.channel != [] && r < |w.replies|
    ensures Places(Next(w, Forward(sent)), r) == 1
  {
    hide Counted, Asked, Answered, Below;
    var z := Next(w, Forward(sent));
    assert w.channel == [w.channel[0]] + z.channel;
    assert r in w.channel <==> r == w.channel[0] || r in z.channel;
    assert w.channel[0] !in z.channel;
    assert Places(w, r) == 1;
  }

  lemma AddOne(s: set<nat>, x: nat)
    requires x !in s
    ensures |s + {x}| == |s| + 1
  {
  }

  /** The request at the head of the channel is nowhere else. */
  lemma HeadFacts(w: World)
    requires Inv(w) && w.channel != []
    ensures var f := w.channel[0];
      && f == w.taken < |w.replies| && w.replies[f] == []
      && f !in w.failed && f !in w.answered && f !in w.overwritten && f !in w.dropped
  {
    hide Counted, Asked;
    assert Places(w, w.channel[0]) == 1 && w.channel[0] in w.channel;
  }

  /** Neither is the pending one. */
  lemma PendingFacts(w: World)
    requires Inv(w) && w.pending.Some?
    ensures var r := w.pending.value;
      && r < w.taken && r < |w.replies| && w.replies[r] == []
      && r !in w.failed && r !in w.answered && r !in w.overwritten && r !in w.dropped
  {
    hide Counted, Asked;
    assert Places(w, w.pending.value) == 1;
  }

  lemma ForwardPlaced(w: World, sent: bool)
    requires Inv(w) && w.channel != []
    ensures Placed(Next(w, Forward(sent)))
  {
    var z := Next(w, Forward(sent));
    HeadFacts(w);
    forall r | 0 <= r < |z.replies|
      ensures Places(z, r) == 1
    {
      ForwardPlaces(w, sent, r);
    }
    ForwardBelow(w, sent);
    hide Places, Answered, Counted, Asked, InOrder, Numbered, Below;
  }

  lemma ForwardBelow(w: World, sent: bool)
    requires Inv(w) && w.channel != []
    ensures var z := Next(w, Forward(sent));
      && Below(z.failed, z.taken) && Below(z.answered, z.taken) && Below(z.overwritten, z.taken) && Below(z.dropped, z.taken)
      && (z.pending.Some? ==> z.pending.value < z.taken)
      && Below(z.waiting, |z.replies|)
  {
    HeadFacts(w);
    hide Places, Answered, Counted, Asked, Numbered;
  }

  lemma ForwardAnswered(w: World, sent: bool)
    requires Inv(w) && w.channel != []
    ensures Answered(Next(w, Forward(sent)))
  {
    hide Placed, InOrder, Counted, Asked;
    HeadFacts(w);
  }

  lemma SendFailedCounted(w: World)
    requires Numbered(w) && w.channel != [] && Counted(w) && w.channel[0] !in w.failed
    ensures Counted(Next(w, Forward(false)))
  {
    var z := Next(w, Forward(false));
    assert z.failed == w.failed + {w.channel[0]} && z.taken == w.taken + 1 && z.pending == w.pending;
    assert z.answered == w.answered && z.overwritten == w.overwritten && z.dropped == w.dropped;
    hide Next, Numbered;
    AddOne(w.failed, w.channel[0]);
  }

  lemma SentCounted(w: World)
    requires Numbered(w) && w.channel != [] && Counted(w)
    requires w.pending.Some? ==> w.pending.value !in w.overwritten
    ensures Counted(Next(w, Forward(true)))
  {
    var z := Next(w, Forward(true));
    assert z.overwritten == Overwrite(w) && z.taken == w.taken + 1 && z.pending.Some?;
    assert z.failed == w.failed && z.answered == w.answered && z.dropped == w.dropped;
    hide Next, Numbered;
    if w.pending.Some? {
      AddOne(w.overwritten, w.pending.value);
    }
  }

  lemma ForwardCounted(w: World, sent: bool)
    requires Inv(w) && w.channel != []
    ensures Counted(Next(w, Forward(sent)))
  {
    hide Placed, InOrder, Answered, Asked, Counted, Next;
    if sent {
      if w.pending.Some? {
        PendingFacts(w);
      }
      SentCounted(w);
    } else {
      HeadFacts(w);
      SendFailedCounted(w);
    }
  }

  lemma ForwardAsked(w: World, sent: bool)
    requires Inv(w) && w.channel != []
    ensures Asked(Next(w, Forward(sent)))
  {
    hide Placed, InOrder, Answered, Counted;
    HeadFacts(w);
  }

  lemma ForwardOrder(w: World, sent: bool)
    requires Inv(w) && w.channel != []
    ensures Numbered(Next(w, Forward(sent))) && InOrder(Next(w, Forward(sent)))
  {
    hide Placed, Answered, Counted, Asked;
  }

  lemma ForwardKeeps(w: World, sent: bool)
    requires Inv(w) && w.channel != []
    ensures Inv(Next(w, Forward(sent)))
  {
    ForwardOrder(w, sent);
    ForwardPlaced(w, sent);
    ForwardAnswered(w, sent);
    ForwardCounted(w, sent);
    ForwardAsked(w, sent);
    hide InOrder, Placed, Answered, Counted, Asked, Next;
  }

  lemma AnswerPlaced(w: World, about: Option<nat>, result: Result)
    requires Inv(w) && Enabled(w, Answer(about, result))
    ensures Placed(Next(w, Answer(about, result)))
  {
    hide Answered, Counted, Asked, InOrder;
    var z := Next(w, Answer(about, result));
    forall r | 0 <= r < |z.replies|
      ensures Places(z, r) == 1
    {
      assert Places(w, r) == 1;
    }
  }

  lemma AnswerAnswered(w: World, about: Option<nat>, result: Result)
    requires Inv(w) && Enabled(w, Answer(about, result))
    ensures Answered(Next(w, Answer(about, result)))
  {
    hide Placed, Counted, Asked, InOrder;
    if w.pending.Some? {
      PendingFacts(w);
    }
  }

  lemma AnswerCounted(w: World, about: Option<nat>, result: Result)
    requires Inv(w) && Enabled(w, Answer(about, result))
    ensures Counted(Next(w, Answer(about, result)))
  {
    hide Placed, Answered, Asked, InOrder, Numbered;
    if w.pending.Some? {
      PendingFacts(w);
      AddOne(w.answered, w.pending.value);
    }
  }

  lemma AnswerAsked(w: World, about: Option<nat>, result: Result)
    requires Inv(w) && Enabled(w, Answer(about, result))
    ensures Asked(Next(w, Answer(about, result)))
  {
    hide Placed, Answered, Counted, InOrder;
  }

  lemma AnswerOrder(w: World, about: Option<nat>, result: Result)
    requires Inv(w) && Enabled(w, Answer(about, result))
    ensures Numbered(Next(w, Answer(about, result))) && InOrder(Next(w, Answer(about, result)))
  {
    hide Placed, Answered, Counted, Asked;
  }

  lemma AnswerKeeps(w: World, about: Option<nat>, result: Result)
    requires Inv(w) && Enabled(w, Answer(about, result))
    ensures Inv(Next(w, Answer(about, result)))
  {
    AnswerOrder(w, about, result);
    AnswerPlaced(w, about, result);
    AnswerAnswered(w, about, result);
    AnswerCounted(w, about, result);
    AnswerAsked(w, about, result);
    hide InOrder, Placed, Answered, Counted, Asked, Next;
  }

  lemma EndKeeps(w: World)
    requires Inv(w)
    ensures Inv(Next(w, EndSession))
  {
    var z := Next(w, EndSession);
    forall r | 0 <= r < |z.replies|
      ensures Places(z, r) == 1
    {
      assert Places(w, r) == 1;
    }
    if w.pending.Some? {
      assert Places(w, w.pending.value) == 1;
    }
  }

  lemma StepKeeps(w: World, a: Action)
    requires Inv(w) && Enabled(w, a)
    ensures Inv(Next(w, a))
  {
    match a
    case Ask => AskKeeps(w);
    case Forward(sent) => ForwardKeeps(w, sent);
    case Answer(about, result) => AnswerKeeps(w, about, result);
    case EndSession => EndKeeps(w);
    case Hear(r) =>
      assert forall q :: 0 <= q < |w.replies| ==> Places(Next(w, a), q) == Places(w, q);
    case GiveUp(r) =>
      assert forall q :: 0 <= q < |w.replies| ==> Places(Next(w, a), q) == Places(w, q);
  }

  // ----- runs -----

  ghost predicate Run(w: World, actions: seq<Action>)
    requires Inv(w)
    decreases |actions|
  {
    actions == [] ||
    (Enabled(w, actions[0]) && (StepKeeps(w, actions[0]); Run(Next(w, actions[0]), actions[1..])))
  }

  ghost function End(w: World, actions: seq<Action>): (z: World)
    requires Inv(w) && Run(w, actions)
    ensures Inv(z)
    decreases |actions|
  {
    if actions == [] then w
    else StepKeeps(w, actions[0]); End(Next(w, actions[0]), actions[1..])
  }

  /**
   * Over every run and reconnect: each request is in exactly one place, has at most one result, and the requests taken
   * by the session are conserved.
   */
  lemma Rendezvous(actions: seq<Action>)
    requires Run(START, actions)
    ensures var w := End(START, actions);
      && (forall r :: 0 <= r < |w.replies| ==> Places(w, r) == 1 && |w.replies[r]| <= REPLY_CAPACITY)
      && (forall r :: 0 <= r < |w.replies| ==> (w.replies[r] != [] <==> r in w.failed + w.answered))
      && w.taken == |w.failed| + |w.answered| + |w.overwritten| + |w.dropped| + One(w.pending.Some?)
  {
  }

  // ----- what is answered -----

  /** A result that was sent stays the only one. */
  lemma {:induction false} SentForGood(w: World, actions: seq<Action>, r: nat)
    requires Inv(w) && Run(w, actions) && r < |w.replies| && w.replies[r] != []
    ensures r < |End(w, actions).replies| && End(w, actions).replies[r] == w.replies[r]
    decreases |actions|
  {
    hide Inv, Run, End, Placed, Counted, Asked, InOrder, Answered;
    if actions == [] {
      EndOfNothing(w, actions);
    } else {
      var a := actions[0];
      RunSplits(w, actions);
      StepKeeps(w, a);
      SentOnce(w, a, r);
      SentForGood(Next(w, a), actions[1..], r);
    }
  }

  lemma EndOfNothing(w: World, actions: seq<Action>)
    requires Inv(w) && actions == []
    ensures Run(w, actions) && End(w, actions) == w
  {
  }

  lemma RunSplits(w: World, actions: seq<Action>)
    requires Inv(w) && Run(w, actions) && actions != []
    ensures Numbered(w) && Enabled(w, actions[0]) && Inv(Next(w, actions[0])) && Run(Next(w, actions[0]), actions[1..])
    ensures End(w, actions) == End(Next(w, actions[0]), actions[1..])
  {
    Shape(w);
    hide Inv, Next, Enabled;
    StepKeeps(w, actions[0]);
  }

  lemma SentOnce(w: World, a: Action, r: nat)
    requires Inv(w) && Enabled(w, a) && r < |w.replies| && w.replies[r] != []
    ensures r < |Next(w, a).replies| && Next(w, a).replies[r] == w.replies[r]
  {
    Shape(w);
    hide Inv;
  }

  /** Whoever is pending when an answer arrives is told exactly that answer, whatever happens later. */
  lemma ToldTheAnswer(w: World, about: Option<nat>, result: Result, later: seq<Action>)
    requires Inv(w) && w.pending.Some? && Enabled(w, Answer(about, result))
    requires Inv(Next(w, Answer(about, result))) && Run(Next(w, Answer(about, result)), later)
    ensures var z := End(Next(w, Answer(about, result)), later);
      w.pending.value < |z.replies| && z.replies[w.pending.value] == [result]
  {
    Shape(w);
    hide Inv, Run, End;
    SentForGood(Next(w, Answer(about, result)), later, w.pending.value);
  }

  /** A request whose code cannot be sent is told send_failed, whatever happens later. */
  lemma ToldSendFailed(w: World, later: seq<Action>)
    requires Inv(w) && w.channel != []
    requires Inv(Next(w, Forward(false))) && Run(Next(w, Forward(false)), later)
    ensures var z := End(Next(w, Forward(false)), later);
      w.channel[0] < |z.replies| && z.replies[w.channel[0]] == [Result(false, "send_failed")]
  {
    Shape(w);
    hide Inv, Run, End;
    SentForGood(Next(w, Forward(false)), later, w.channel[0]);
  }

  /** In no other way is anybody told anything. */
  lemma ToldOnlyThen(w: World, a: Action, r: nat)
    requires Numbered(w) && Inv(w) && Enabled(w, a) && r < |w.replies| && w.replies[r] == []
    ensures r < |Next(w, a).replies|
    ensures Next(w, a).replies[r] != [] <==>
      (a.Answer? && w.pending == Some(r)) || (a.Forward? && !a.sent && w.channel[0] == r)
  {
    hide Placed, Counted, Asked, Answered;
  }

  /** A request the session took, and that is neither pending nor answered, is never told anything. */
  lemma {:induction false} NeverTold(w: World, later: seq<Action>, r: nat)
    requires Inv(w) && Run(w, later) && r < w.taken && r < |w.replies| && w.replies[r] == [] && w.pending != Some(r)
    ensures r < |End(w, later).replies| && End(w, later).replies[r] == []
    decreases |later|
  {
    hide Inv, Run, End, Placed, Counted, Asked, InOrder, Answered;
    if later == [] {
      EndOfNothing(w, later);
    } else {
      var a := later[0];
      RunSplits(w, later);
      StepKeeps(w, a);
      StaysUntold(w, a, r);
      NeverTold(Next(w, a), later[1..], r);
    }
  }

  lemma StaysUntold(w: World, a: Action, r: nat)
    requires Inv(w) && Enabled(w, a) && r < w.taken && r < |w.replies| && w.replies[r] == [] && w.pending != Some(r)
    ensures var z := Next(w, a); r < z.taken && r < |z.replies| && z.replies[r] == [] && z.pending != Some(r)
  {
    hide Placed, Counted, Asked, Answered;
  }

  /** The request pending when a connection ends is never told anything, nor is one displaced by the next code sent. */
  lemma ToldNothing(w: World, a: Action, later: seq<Action>)
    requires Inv(w) && w.pending.Some? && Enabled(w, a) && (a.EndSession? || a == Forward(true))
    requires Inv(Next(w, a)) && Run(Next(w, a), later)
    ensures var z := End(Next(w, a), later); w.pending.value < |z.replies| && z.replies[w.pending.value] == []
  {
    assert Next(w, a).pending != w.pending && w.pending.value < w.taken <= |w.replies|;
    NeverBlocks(w);
    hide Inv, Run, End, Placed, Counted, Asked, InOrder, Answered;
    NeverTold(Next(w, a), later, w.pending.value);
  }

  // ----- whose answer -----

  /** The cloud answers codes in the order it received them. */
  predicate InTurn(a: Action) {
    a.Answer? ==> a.about == Some(0)
  }

  /** The waiting request is given its own answer if and only if no earlier code was still unanswered. */
  lemma OwnAnswer(w: World, result: Result)
    requires Inv(w) && w.pending.Some?
    ensures Enabled(w, Answer(Some(0), result))
    ensures var z := Next(w, Answer(Some(0), result));
      z.handed == w.handed + [(w.pending.value, Some(w.pending.value))] <==> |w.outstanding| == 1
  {
    var z := Next(w, Answer(Some(0), result));
    assert z.handed[|w.handed|] == (w.pending.value, Some(w.outstanding[0]));
  }

  ghost predicate AllOwn(w: World) {
    forall i :: 0 <= i < |w.handed| ==> w.handed[i].1 == Some(w.handed[i].0)
  }

  /** No code is sent while an earlier one is unanswered. */
  ghost predicate Polite(w: World, actions: seq<Action>)
    requires Inv(w) && Run(w, actions)
    decreases |actions|
  {
    actions == [] ||
    (&& InTurn(actions[0])
     && (actions[0].Forward? && actions[0].sent ==> w.outstanding == [])
     && (StepKeeps(w, actions[0]); Polite(Next(w, actions[0]), actions[1..])))
  }

  lemma {:induction false} PoliteRuns(w: World, actions: seq<Action>)
    requires Inv(w) && Run(w, actions) && Polite(w, actions)
    requires |w.outstanding| <= 1 && AllOwn(w) && (w.pending.None? <==> w.outstanding == [])
    ensures AllOwn(End(w, actions)) && End(w, actions).overwritten == w.overwritten
    decreases |actions|
  {
    hide Placed, Answered, Counted, InOrder, Places;
    if actions != [] {
      StepKeeps(w, actions[0]);
      PoliteRuns(Next(w, actions[0]), actions[1..]);
    }
  }

  /** Then every answer reaches the request it is about, and no request is displaced by a later one. */
  lemma ResultsMatchRequests(actions: seq<Action>)
    requires Run(START, actions) && Polite(START, actions)
    ensures AllOwn(End(START, actions)) && End(START, actions).overwritten == {}
  {
    PoliteRuns(START, actions);
  }

  /** Without it, a client that gave up leaves its answer to the next client. */
  lemma CrossedAnswer(yes: Result) returns (actions: seq<Action>)
    ensures Run(START, actions)
    ensures forall i :: 0 <= i < |actions| ==> InTurn(actions[i])
    ensures End(START, actions).handed == [(1, Some(0))]
  {
    hide *;
    var w1, w2 := GivenUp();
    var w3, w4, w5 := Displaced(w2);
    var w6 := LateAnswer(w5, yes);
    actions := RunOne(w5, Answer(Some(0), yes));
    actions := RunMore(w4, Forward(true), actions);
    actions := RunMore(w3, Ask, actions);
    actions := RunMore(w2, GiveUp(0), actions);
    actions := RunMore(w1, Forward(true), actions);
    actions := RunMore(START, Ask, actions);
    assert actions == [Ask, Forward(true), GiveUp(0), Ask, Forward(true), Answer(Some(0), yes)];
    InTurnAll(actions, yes);
  }

  lemma InTurnAll(actions: seq<Action>, yes: Result)
    requires actions == [Ask, Forward(true), GiveUp(0), Ask, Forward(true), Answer(Some(0), yes)]
    ensures forall i :: 0 <= i < |actions| ==> InTurn(actions[i])
  {
  }

  /** The first client's code is sent. */
  lemma GivenUp() returns (w1: World, w2: World)
    ensures Inv(START) && Enabled(START, Ask) && w1 == Next(START, Ask)
    ensures Inv(w1) && Enabled(w1, Forward(true)) && w2 == Next(w1, Forward(true))
    ensures Inv(w2) && w2 == START.(replies := [[]], pending := Some(0), waiting := {0}, taken := 1, outstanding := [0])
  {
    assert Inv(START);
    hide Inv;
    StepKeeps(START, Ask);
    w1 := Next(START, Ask);
    StepKeeps(w1, Forward(true));
    w2 := Next(w1, Forward(true));
  }

  /** It gives up, and a second client's code takes the pending slot. */
  lemma Displaced(w2: World) returns (w3: World, w4: World, w5: World)
    requires w2 == START.(replies := [[]], pending := Some(0), waiting := {0}, taken := 1, outstanding := [0]) && Inv(w2)
    ensures Enabled(w2, GiveUp(0)) && w3 == Next(w2, GiveUp(0)) && Inv(w3) && Enabled(w3, Ask) && w4 == Next(w3, Ask)
    ensures Inv(w4) && Enabled(w4, Forward(true)) && w5 == Next(w4, Forward(true))
    ensures Inv(w5) && w5.pending == Some(1) && w5.outstanding == [0, 1] && w5.handed == []
  {
    assert Numbered(w2);
    hide Inv;
    StepKeeps(w2, GiveUp(0));
    w3 := Next(w2, GiveUp(0));
    StepKeeps(w3, Ask);
    w4 := Next(w3, Ask);
    assert w4.channel == [1];
    StepKeeps(w4, Forward(true));
    w5 := Next(w4, Forward(true));
  }

  /** The answer to the first code is handed to the second client. */
  lemma LateAnswer(w5: World, yes: Result) returns (w6: World)
    requires Inv(w5) && w5.pending == Some(1) && w5.outstanding == [0, 1] && w5.handed == []
    ensures Enabled(w5, Answer(Some(0), yes)) && w6 == Next(w5, Answer(Some(0), yes)) && Inv(w6)
    ensures w6.handed == [(1, Some(0))]
  {
    StepKeeps(w5, Answer(Some(0), yes));
    w6 := Next(w5, Answer(Some(0), yes));
  }

  lemma RunOne(w: World, a: Action) returns (all: seq<Action>)
    requires Inv(w) && Enabled(w, a)
    ensures all == [a] && Run(w, all) && End(w, all) == Next(w, a)
  {
    hide Enabled, Next, Inv;
    StepKeeps(w, a);
    all := [a];
    assert all[1..] == [];
  }

  lemma RunMore(w: World, a: Action, later: seq<Action>) returns (all: seq<Action>)
    requires Inv(w) && Enabled(w, a) && Inv(Next(w, a)) && Run(Next(w, a), later)
    ensures all == [a] + later && Run(w, all) && End(w, all) == End(Next(w, a), later)
  {
    hide Enabled, Next, Inv;
    all := [a] + later;
    assert all[1..] == later;
  }

  // ----- the code -----

  /** The channel, the reply channels and the session's local variable; the rest of the world is bookkeeping. */
  class Bridge {
    var channel: seq<nat>
    var replies: seq<seq<Result>>
    var pending: Option<nat>
    ghost var rest: World

    ghost function Value(): World
      reads this
    {
      rest.(channel := channel, replies := replies, pending := pending)
    }

    ghost predicate Valid()
      reads this
    {
      Inv(Value())
    }

    constructor ()
      ensures Valid() && Value() == START
    {
      channel, replies, pending, rest := [], [], None, START;
    }

    /** The first select of the /api/pair handler: queued under a fresh number, or busy. */
    method HandlePair() returns (request: Option<nat>)
      requires Valid()
      modifies this
      ensures Valid() && Value() == Next(old(Value()), Ask)
      ensures request == if |old(channel)| < 4 then Some(|old(replies)|) else None
    {
      AskKeeps(Value());
      if |channel| < CHANNEL_CAPACITY {
        rest := rest.(waiting := rest.waiting + {|replies|});
        request := Some(|replies|);
        channel := channel + [|replies|];
        replies := replies + [[]];
      } else {
        rest := rest.(busy := rest.busy + 1);
        request := None;
      }
    }

    /** A blocking send on a reply channel, where it provably does not block. */
    method Resolve(r: nat, result: Result)
      requires r < |replies| && |replies[r]| < REPLY_CAPACITY
      modifies this`replies
      ensures replies == old(replies)[r := old(replies[r]) + [result]] == old(replies)[r := [result]]
    {
      assert replies[r] + [result] == [result];
      replies := replies[r := replies[r] + [result]];
    }

    /** The session's arm for a pairing request. */
    method ForwardRequest(sent: bool)
      requires Valid() && channel != []
      modifies this
      ensures Valid() && Value() == Next(old(Value()), Forward(sent))
      ensures channel == old(channel)[1..]
      ensures if sent then pending == Some(old(channel)[0]) && replies == old(replies)
        else pending == old(pending) && replies == old(replies)[old(channel)[0] := [Result(false, "send_failed")]]
    {
      hide Inv, Numbered;
      ForwardKeeps(Value(), sent);
      NeverBlocks(Value());
      Shape(Value());
      var r := channel[0];
      channel := channel[1..];
      rest := rest.(taken := rest.taken + 1);
      if !sent {
        rest := rest.(failed := rest.failed + {r});
        Resolve(r, Result(false, "send_failed"));
        return;
      }
      rest := rest.(overwritten := Overwrite(old(Value())), outstanding := rest.outstanding + [r]);
      pending := Some(r);
    }

    /** The session's arm for a pairing_result message. */
    method HandlePairingResult(ghost about: Option<nat>, result: Result)
      requires Valid() && Enabled(Value(), Answer(about, result))
      modifies this
      ensures Valid() && Value() == Next(old(Value()), Answer(about, result))
      ensures pending == None && channel == old(channel)
      ensures replies == if old(pending).Some? then old(replies)[old(pending).value := [result]] else old(replies)
    {
      hide Inv, Numbered;
      AnswerKeeps(Value(), about, result);
      NeverBlocks(Value());
      Shape(Value());
      ghost var z := Next(Value(), Answer(about, result));
      if pending.Some? {
        Resolve(pending.value, result);
        pending := None;
      }
      rest := z;
    }

    /** The local variable goes away with the session. */
    method EndSession()
      requires Valid()
      modifies this
      ensures Valid() && Value() == Next(old(Value()), Action.EndSession)
      ensures pending == None && channel == old(channel) && replies == old(replies)
    {
      EndKeeps(Value());
      rest := Next(Value(), Action.EndSession);
      pending := None;
    }

    /** The second select of the /api/pair handler: the reply, if there is one, or the 15 s timer. */
    method AwaitReply(r: nat, timedOut: bool) returns (reply: Option<Result>)
      requires Valid() && r in Value().waiting
      requires r < |replies| && (timedOut || replies[r] != [])
      modifies this
      ensures reply.Some? ==> old(replies)[r] == [reply.value]
      ensures reply.None? ==> timedOut
      ensures pending == old(pending) && channel == old(channel) && replies == old(replies)
      ensures Valid() && Value() == Next(old(Value()), if reply.Some? then Hear(r) else GiveUp(r))
    {
      StepKeeps(Value(), GiveUp(r));
      rest := rest.(waiting := rest.waiting - {r});
      if timedOut {
        return None;
      }
      OneReply(Value(), r);
      reply := Some(replies[r][0]);
    }
  }
}
