/**
 * `createBrowserAlarmProjector` of `src/browser/alarm-coordinator.ts`, the Worker half of the
 * alarm protocol. Projections form one chain of promises, and every `await` in it is a step.
 */
module ProjectorModel {
  import opened Prelude

  datatype Projection = Projection(generation: nat, when: Option<int>)

  datatype Outcome = Fulfilled(projection: Projection) | Rejected(reason: nat)

  /** How far the chained promise of one `projectWake` call has come. */
  datatype Phase =
    | Chained
    | Drawing                            // awaiting `nextGeneration()`
    | Projecting                         // awaiting `project()`
    | Settled(outcome: Outcome)

  /** `projection` is what the call handed to `project()`, once it got that far. */
  datatype Sent = Sent(when: Option<int>, activeDeliveries: nat, phase: Phase, projection: Option<Projection>)

  datatype Waiter = Waiter(id: nat, after: int)

  /** One promise of `acknowledge` settled, while `of` was the latest call's index. */
  datatype Answer = Answer(waiter: Waiter, outcome: Outcome)

  datatype State = State(
    sent: seq<Sent>,             // the calls of `projectWake`, oldest first; the last is `latest`
    waiters: seq<Waiter>,
    answers: seq<Answer>,
    acknowledged: nat,           // calls of `acknowledge` so far
    projected: seq<Projection>,  // what was handed to `project()`, in order
    rising: bool)                // every generation drawn so far exceeds the one drawn before

  const INITIAL := State([], [], [], 0, [], true)

  datatype Event =
    | ProjectWake(when: Option<int>, activeDeliveries: nat)
    | Acknowledge(after: int)
    | Begin(call: nat)
    | Drawn(call: nat, generation: nat)
    | DrawFailed(call: nat, reason: nat)
    | Accepted(call: nat)
    | Refused(call: nat, reason: nat)

  /** A projection that leaves a waiter asking about `after` waiting. */
  predicate Holds(projection: Projection, after: int) {
    projection.when.Some? && projection.when.value <= after
  }

  function Kept(waiters: seq<Waiter>, projection: Projection): seq<Waiter> {
    if waiters == [] then []
    else
      var first := if Holds(projection, waiters[0].after) then [waiters[0]] else [];
      first + Kept(waiters[1..], projection)
  }

  function Resolved(waiters: seq<Waiter>, projection: Projection): seq<Answer> {
    if waiters == [] then []
    else
      var first := if Holds(projection, waiters[0].after) then [] else [Answer(waiters[0], Fulfilled(projection))];
      first + Resolved(waiters[1..], projection)
  }

  function RejectedAll(waiters: seq<Waiter>, reason: nat): seq<Answer> {
    if waiters == [] then [] else [Answer(waiters[0], Rejected(reason))] + RejectedAll(waiters[1..], reason)
  }

  function Settle(s: State): State {
    if s.sent == [] || !s.sent[|s.sent| - 1].phase.Settled? then s
    else
      var latest := s.sent[|s.sent| - 1];
      match latest.phase.outcome
      case Rejected(reason) => s.(waiters := [], answers := s.answers + RejectedAll(s.waiters, reason))
      case Fulfilled(projection) =>
        if latest.activeDeliveries != 0 then s
        else s.(waiters := Kept(s.waiters, projection), answers := s.answers + Resolved(s.waiters, projection))
  }

  function Send(s: State, when: Option<int>, activeDeliveries: nat): State {
    s.(sent := s.sent + [Sent(when, activeDeliveries, Chained, None)])
  }

  function SetPhase(s: State, call: nat, phase: Phase): State
    requires call < |s.sent|
  {
    s.(sent := s.sent[call := s.sent[call].(phase := phase)])
  }

  predicate LatestFailed(s: State) {
    && s.sent != []
    && s.sent[|s.sent| - 1].phase.Settled?
    && s.sent[|s.sent| - 1].phase.outcome.Rejected?
  }

  predicate Enabled(s: State, event: Event) {
    match event
    case ProjectWake(_, _) => true
    case Acknowledge(_) => true
    case Begin(call) =>
      // The chained promise before this one has settled, whichever way.
      && call < |s.sent| && s.sent[call].phase.Chained?
      && (call == 0 || s.sent[call - 1].phase.Settled?)
    case Drawn(call, _) => call < |s.sent| && s.sent[call].phase.Drawing?
    case DrawFailed(call, _) => call < |s.sent| && s.sent[call].phase.Drawing?
    case Accepted(call) => call < |s.sent| && s.sent[call].phase.Projecting? && s.sent[call].projection.Some?
    case Refused(call, _) => call < |s.sent| && s.sent[call].phase.Projecting?
  }

  predicate Above(projected: seq<Projection>, generation: nat) {
    projected == [] || projected[|projected| - 1].generation < generation
  }

  function Step(s: State, event: Event): State
    requires Enabled(s, event)
  {
    match event
    case ProjectWake(when, activeDeliveries) => Send(s, when, activeDeliveries)
    case Acknowledge(after) =>
      var waiting := s.(waiters := s.waiters + [Waiter(s.acknowledged, after)], acknowledged := s.acknowledged + 1);
      if LatestFailed(s) then
        var latest := s.sent[|s.sent| - 1];
        Send(waiting, latest.when, latest.activeDeliveries)
      else Settle(waiting)
    case Begin(call) => SetPhase(s, call, Drawing)
    case Drawn(call, generation) =>
      var projection := Projection(generation, s.sent[call].when);
      s.(sent := s.sent[call := s.sent[call].(phase := Projecting, projection := Some(projection))],
         projected := s.projected + [projection],
         rising := s.rising && Above(s.projected, generation))
    case DrawFailed(call, reason) => Settle(SetPhase(s, call, Settled(Rejected(reason))))
    case Accepted(call) => Settle(SetPhase(s, call, Settled(Fulfilled(s.sent[call].projection.value))))
    case Refused(call, reason) => Settle(SetPhase(s, call, Settled(Rejected(reason))))
  }

  /** What can happen: any finite sequence of enabled events from the initial state. */
  predicate Possible(s: State, events: seq<Event>)
    decreases |events|
  {
    events == [] || (Enabled(s, events[0]) && Possible(Step(s, events[0]), events[1..]))
  }

  function Run(s: State, events: seq<Event>): State
    requires Possible(s, events)
    decreases |events|
  {
    if events == [] then s else Run(Step(s, events[0]), events[1..])
  }
}

module ProjectorTheorems {
  import opened Prelude
  import opened ProjectorModel

  /** Calls settle in order, one at a time: settled ones, then at most one in progress, then chained ones. */
  ghost predicate OneAtATime(s: State) {
    forall i, j :: 0 <= i < j < |s.sent| ==> s.sent[i].phase.Settled? || s.sent[j].phase.Chained?
  }

  /** A projection carries the wake of the call that sent it. */
  ghost predicate CarriesOwnWake(s: State) {
    forall i :: 0 <= i < |s.sent| ==> OwnWake(s.sent[i])
  }

  predicate OwnWake(sent: Sent) {
    && (sent.phase.Chained? || sent.phase.Drawing? ==> sent.projection.None?)
    && (sent.phase.Projecting? ==> sent.projection.Some?)
    && (sent.projection.Some? ==> sent.projection.value.when == sent.when)
    && (sent.phase.Settled? && sent.phase.outcome.Fulfilled? ==>
          sent.projection == Some(sent.phase.outcome.projection))
  }

  /** The projections the calls handed to `project()`, in the order of the calls. */
  function InCallOrder(sent: seq<Sent>): seq<Projection> {
    if sent == [] then []
    else
      var last := sent[|sent| - 1].projection;
      InCallOrder(sent[..|sent| - 1]) + (if last.Some? then [last.value] else [])
  }

  ghost predicate Increasing(projected: seq<Projection>) {
    forall i, j :: 0 <= i < j < |projected| ==> projected[i].generation < projected[j].generation
  }

  /** No waiter remains that the latest call's result could settle. */
  ghost predicate NoneLeftBehind(s: State) {
    s.sent != [] && s.sent[|s.sent| - 1].phase.Settled? ==>
      var latest := s.sent[|s.sent| - 1];
      && (latest.phase.outcome.Rejected? ==> s.waiters == [])
      && (latest.phase.outcome.Fulfilled? && latest.activeDeliveries == 0 ==>
            forall w :: w in s.waiters ==> Holds(latest.phase.outcome.projection, w.after))
  }

  /** Calls of `acknowledge` with this number that wait, or were answered. */
  function Waiting(waiters: seq<Waiter>, id: nat): nat {
    if waiters == [] then 0 else (if waiters[0].id == id then 1 else 0) + Waiting(waiters[1..], id)
  }

  function Answered(answers: seq<Answer>, id: nat): nat {
    if answers == [] then 0 else (if answers[0].waiter.id == id then 1 else 0) + Answered(answers[1..], id)
  }

  ghost predicate EachOnce(s: State) {
    forall id: nat :: Waiting(s.waiters, id) + Answered(s.answers, id) == (if id < s.acknowledged then 1 else 0)
  }

  /** `settle()` may answer a waiter this way while the state's last call is the latest. */
  ghost predicate Justified(s: State, answer: Answer) {
    && s.sent != []
    && var latest := s.sent[|s.sent| - 1];
    && latest.phase == Settled(answer.outcome)
    && (answer.outcome.Fulfilled? ==>
          && latest.activeDeliveries == 0
          && answer.outcome.projection.when == latest.when
          && (latest.when.None? || latest.when.value > answer.waiter.after))
  }

  lemma {:induction false} KeptHold(waiters: seq<Waiter>, projection: Projection)
    ensures forall w :: w in Kept(waiters, projection) ==> w in waiters && Holds(projection, w.after)
  {
    if waiters == [] {
    } else {
      KeptHold(waiters[1..], projection);
    }
  }

  lemma {:induction false} ResolvedAreFree(waiters: seq<Waiter>, projection: Projection)
    ensures forall a :: a in Resolved(waiters, projection) ==>
      a.outcome == Fulfilled(projection) && !Holds(projection, a.waiter.after)
  {
    if waiters == [] {
    } else {
      ResolvedAreFree(waiters[1..], projection);
    }
  }

  lemma {:induction false} RejectedAreRejected(waiters: seq<Waiter>, reason: nat)
    ensures forall a :: a in RejectedAll(waiters, reason) ==> a.outcome == Rejected(reason)
  {
    if waiters == [] {
    } else {
      RejectedAreRejected(waiters[1..], reason);
    }
  }

  lemma {:induction false} AnsweredAppend(a: seq<Answer>, b: seq<Answer>, id: nat)
    ensures Answered(a + b, id) == Answered(a, id) + Answered(b, id)
  {
    if a == [] {
      assert a + b == b;
    } else {
      AnsweredAppend(a[1..], b, id);
      assert (a + b)[1..] == a[1..] + b;
    }
  }

  lemma {:induction false} WaitingAppend(a: seq<Waiter>, b: seq<Waiter>, id: nat)
    ensures Waiting(a + b, id) == Waiting(a, id) + Waiting(b, id)
  {
    if a == [] {
      assert a + b == b;
    } else {
      WaitingAppend(a[1..], b, id);
      assert (a + b)[1..] == a[1..] + b;
    }
  }

  lemma {:induction false} SplitKeepsCount(waiters: seq<Waiter>, projection: Projection, id: nat)
    ensures Waiting(Kept(waiters, projection), id) + Answered(Resolved(waiters, projection), id)
         == Waiting(waiters, id)
  {
    if waiters == [] {
    } else {
      SplitKeepsCount(waiters[1..], projection, id);
      var kept := if Holds(projection, waiters[0].after) then [waiters[0]] else [];
      var answered := if Holds(projection, waiters[0].after) then [] else [Answer(waiters[0], Fulfilled(projection))];
      WaitingAppend(kept, Kept(waiters[1..], projection), id);
      AnsweredAppend(answered, Resolved(waiters[1..], projection), id);
    }
  }

  lemma {:induction false} RejectingKeepsCount(waiters: seq<Waiter>, reason: nat, id: nat)
    ensures Answered(RejectedAll(waiters, reason), id) == Waiting(waiters, id)
  {
    if waiters == [] {
    } else {
      RejectingKeepsCount(waiters[1..], reason, id);
      AnsweredAppend([Answer(waiters[0], Rejected(reason))], RejectedAll(waiters[1..], reason), id);
    }
  }

  lemma SettleKeepsEachOnce(s: State)
    requires EachOnce(s)
    ensures EachOnce(Settle(s))
  {
    var t := Settle(s);
    forall id: nat
      ensures Waiting(t.waiters, id) + Answered(t.answers, id) == if id < t.acknowledged then 1 else 0
    {
      assert Waiting(s.waiters, id) + Answered(s.answers, id) == (if id < s.acknowledged then 1 else 0);
      if t != s {
        var outcome := s.sent[|s.sent| - 1].phase.outcome;
        if outcome.Rejected? {
          RejectingKeepsCount(s.waiters, outcome.reason, id);
          AnsweredAppend(s.answers, RejectedAll(s.waiters, outcome.reason), id);
        } else {
          SplitKeepsCount(s.waiters, outcome.projection, id);
          AnsweredAppend(s.answers, Resolved(s.waiters, outcome.projection), id);
        }
      }
    }
  }

  lemma SettleLeavesNone(s: State)
    ensures NoneLeftBehind(Settle(s))
  {
    if s.sent != [] && s.sent[|s.sent| - 1].phase.Settled? && s.sent[|s.sent| - 1].phase.outcome.Fulfilled? {
      KeptHold(s.waiters, s.sent[|s.sent| - 1].phase.outcome.projection);
    }
  }

  lemma SettleIsJustified(s: State)
    requires CarriesOwnWake(s)
    ensures s.answers <= Settle(s).answers
    ensures forall a :: a in Settle(s).answers[|s.answers|..] ==> Justified(Settle(s), a)
  {
    var t := Settle(s);
    if t != s {
      var latest := s.sent[|s.sent| - 1];
      var added := t.answers[|s.answers|..];
      if latest.phase.outcome.Rejected? {
        RejectedAreRejected(s.waiters, latest.phase.outcome.reason);
        assert added == RejectedAll(s.waiters, latest.phase.outcome.reason);
      } else {
        ResolvedAreFree(s.waiters, latest.phase.outcome.projection);
        assert added == Resolved(s.waiters, latest.phase.outcome.projection);
      }
    }
  }

  /** What a step does before any settling; `acknowledge` adds its waiter here. */
  function Before(s: State, event: Event): State
    requires Enabled(s, event)
  {
    match event
    case Acknowledge(after) =>
      s.(waiters := s.waiters + [Waiter(s.acknowledged, after)], acknowledged := s.acknowledged + 1)
    case DrawFailed(call, reason) => SetPhase(s, call, Settled(Rejected(reason)))
    case Accepted(call) => SetPhase(s, call, Settled(Fulfilled(s.sent[call].projection.value)))
    case Refused(call, reason) => SetPhase(s, call, Settled(Rejected(reason)))
    case _ => Step(s, event)
  }

  predicate Settles(s: State, event: Event) {
    event.DrawFailed? || event.Accepted? || event.Refused? || (event.Acknowledge? && !LatestFailed(s))
  }

  lemma StepSent(s: State, event: Event)
    requires Enabled(s, event)
    ensures Settles(s, event) ==> Step(s, event) == Settle(Before(s, event))
    ensures !event.Acknowledge? ==> Step(s, event).sent == Before(s, event).sent
    ensures event.Acknowledge? ==>
      Step(s, event).sent == s.sent
      || (s.sent != [] && Step(s, event).sent == Send(s, s.sent[|s.sent| - 1].when, s.sent[|s.sent| - 1].activeDeliveries).sent)
  {
  }

  lemma ChangeKeepsOneAtATime(s: State, event: Event)
    requires Enabled(s, event) && OneAtATime(s) && !event.Acknowledge?
    ensures OneAtATime(Before(s, event))
  {
    var t := Before(s, event);
    forall i, j | 0 <= i < j < |t.sent|
      ensures t.sent[i].phase.Settled? || t.sent[j].phase.Chained?
    {
      if j < |s.sent| {
        assert s.sent[i].phase.Settled? || s.sent[j].phase.Chained?;
      }
    }
  }

  lemma StepKeepsOneAtATime(s: State, event: Event)
    requires Enabled(s, event) && OneAtATime(s)
    ensures OneAtATime(Step(s, event))
  {
    StepSent(s, event);
    if !event.Acknowledge? {
      ChangeKeepsOneAtATime(s, event);
    }
  }

  lemma StepCarriesOwnWake(s: State, event: Event)
    requires Enabled(s, event) && CarriesOwnWake(s)
    ensures CarriesOwnWake(Before(s, event)) && CarriesOwnWake(Step(s, event))
  {
    StepSent(s, event);
  }

  lemma StepKeepsEachOnce(s: State, event: Event)
    requires Enabled(s, event) && EachOnce(s)
    ensures EachOnce(Step(s, event))
  {
    if event.Acknowledge? {
      var t := Before(s, event);
      forall id: nat
        ensures Waiting(t.waiters, id) + Answered(t.answers, id) == if id < t.acknowledged then 1 else 0
      {
        assert Waiting(s.waiters, id) + Answered(s.answers, id) == (if id < s.acknowledged then 1 else 0);
        WaitingAppend(s.waiters, [Waiter(s.acknowledged, event.after)], id);
      }
      assert EachOnce(t);
      SettleKeepsEachOnce(t);
    } else if Settles(s, event) {
      var t := Before(s, event);
      assert EachOnce(t) by {
        forall id: nat
          ensures Waiting(t.waiters, id) + Answered(t.answers, id) == if id < t.acknowledged then 1 else 0
        {
          assert Waiting(s.waiters, id) + Answered(s.answers, id) == (if id < s.acknowledged then 1 else 0);
        }
      }
      SettleKeepsEachOnce(t);
    } else {
      var t := Step(s, event);
      forall id: nat
        ensures Waiting(t.waiters, id) + Answered(t.answers, id) == if id < t.acknowledged then 1 else 0
      {
        assert Waiting(s.waiters, id) + Answered(s.answers, id) == (if id < s.acknowledged then 1 else 0);
      }
    }
  }

  lemma StepLeavesNone(s: State, event: Event)
    requires Enabled(s, event) && NoneLeftBehind(s) && OneAtATime(s)
    ensures NoneLeftBehind(Step(s, event))
  {
    if Settles(s, event) {
      SettleLeavesNone(Before(s, event));
    }
  }

  lemma StepIsJustified(s: State, event: Event)
    requires Enabled(s, event) && CarriesOwnWake(s)
    ensures s.answers <= Step(s, event).answers
    ensures forall a :: a in Step(s, event).answers[|s.answers|..] ==> Justified(Step(s, event), a)
  {
    if Settles(s, event) {
      StepCarriesOwnWake(s, event);
      StepSent(s, event);
      SettleIsJustified(Before(s, event));
    }
  }

  // ---------- Projections leave in call order

  ghost predicate SentInOrder(s: State) {
    && s.projected == InCallOrder(s.sent)
    && (s.rising <==> Increasing(s.projected))
  }

  lemma {:induction false} ChainedSendNothing(sent: seq<Sent>, from: nat)
    requires from <= |sent|
    requires forall j :: from <= j < |sent| ==> sent[j].projection.None?
    ensures InCallOrder(sent) == InCallOrder(sent[..from])
  {
    if from == |sent| {
      assert sent[..from] == sent;
    } else {
      ChainedSendNothing(sent[..|sent| - 1], from);
      assert sent[..|sent| - 1][..from] == sent[..from];
    }
  }

  lemma {:induction false} SameProjections(a: seq<Sent>, b: seq<Sent>)
    requires |a| == |b|
    requires forall i :: 0 <= i < |a| ==> a[i].projection == b[i].projection
    ensures InCallOrder(a) == InCallOrder(b)
  {
    if a == [] {
    } else {
      SameProjections(a[..|a| - 1], b[..|b| - 1]);
    }
  }

  lemma DrawingSendsLast(s: State, event: Event)
    requires Enabled(s, event) && event.Drawn? && OneAtATime(s) && CarriesOwnWake(s)
    ensures InCallOrder(Step(s, event).sent)
         == InCallOrder(s.sent) + [Projection(event.generation, s.sent[event.call].when)]
  {
    var c := event.call;
    var t := Step(s, event);
    forall j | c < j < |s.sent| ensures s.sent[j].projection.None? {
      assert s.sent[c].phase.Settled? || s.sent[j].phase.Chained?;
      assert OwnWake(s.sent[j]);
    }
    assert OwnWake(s.sent[c]);
    ChainedSendNothing(s.sent, c);
    ChainedSendNothing(t.sent, c + 1);
    assert t.sent[..c + 1][..c] == s.sent[..c];
  }

  lemma RisingIsIncreasing(projected: seq<Projection>, projection: Projection)
    ensures Increasing(projected) && Above(projected, projection.generation)
      <==> Increasing(projected + [projection])
  {
    var all := projected + [projection];
    if Increasing(projected) && Above(projected, projection.generation) {
      forall i, j | 0 <= i < j < |all| ensures all[i].generation < all[j].generation {
      }
    }
    if Increasing(all) {
      forall i, j | 0 <= i < j < |projected| ensures projected[i].generation < projected[j].generation {
        assert all[i].generation < all[j].generation;
      }
      if projected != [] {
        assert all[|projected| - 1].generation < all[|projected|].generation;
      }
    }
  }

  lemma SendKeepsOrder(sent: seq<Sent>, last: Sent)
    requires last.projection.None?
    ensures InCallOrder(sent + [last]) == InCallOrder(sent)
  {
    assert (sent + [last])[..|sent|] == sent;
  }

  lemma StepSendsInOrder(s: State, event: Event)
    requires Enabled(s, event) && OneAtATime(s) && CarriesOwnWake(s) && SentInOrder(s)
    ensures SentInOrder(Step(s, event))
  {
    var t := Step(s, event);
    match event
    case Drawn(call, generation) =>
      DrawingSendsLast(s, event);
      RisingIsIncreasing(s.projected, Projection(generation, s.sent[call].when));
    case ProjectWake(when, activeDeliveries) =>
      SendKeepsOrder(s.sent, Sent(when, activeDeliveries, Chained, None));
    case Acknowledge(_) =>
      if LatestFailed(s) {
        var latest := s.sent[|s.sent| - 1];
        SendKeepsOrder(s.sent, Sent(latest.when, latest.activeDeliveries, Chained, None));
      }
    case _ => OtherSendsNothing(s, event);
  }

  lemma OtherSendsNothing(s: State, event: Event)
    requires Enabled(s, event) && SentInOrder(s)
    requires !event.Drawn? && !event.ProjectWake? && !event.Acknowledge?
    ensures SentInOrder(Step(s, event))
  {
    SameProjections(s.sent, Step(s, event).sent);
  }

  // ---------- Runs

  ghost predicate Inv(s: State) {
    OneAtATime(s) && CarriesOwnWake(s) && SentInOrder(s) && NoneLeftBehind(s) && EachOnce(s)
  }

  lemma {:induction false} RunKeepsInv(s: State, events: seq<Event>)
    requires Inv(s) && Possible(s, events)
    ensures Inv(Run(s, events))
    decreases |events|
  {
    if events == [] {
    } else {
      var t := Step(s, events[0]);
      assert Inv(t) by {
        StepKeepsOneAtATime(s, events[0]);
        StepCarriesOwnWake(s, events[0]);
        StepSendsInOrder(s, events[0]);
        StepLeavesNone(s, events[0]);
        StepKeepsEachOnce(s, events[0]);
      }
      RunKeepsInv(t, events[1..]);
    }
  }

  /** After every event, no remaining waiter could be settled by the latest call's result. */
  lemma NoWaiterIsLeftBehind(events: seq<Event>)
    requires Possible(INITIAL, events)
    ensures NoneLeftBehind(Run(INITIAL, events))
  {
    RunKeepsInv(INITIAL, events);
  }

  /** Every promise of `acknowledge` is pending or settled once, whatever happened. */
  lemma EveryWaiterSettlesAtMostOnce(events: seq<Event>, id: nat)
    requires Possible(INITIAL, events)
    ensures var s := Run(INITIAL, events);
      Waiting(s.waiters, id) + Answered(s.answers, id) == (if id < s.acknowledged then 1 else 0)
  {
    RunKeepsInv(INITIAL, events);
  }

  /**
   * What one more event settles is settled by the latest call: rejected only with its failure, and
   * resolved only with its projection, when it counted no active delivery and owes no wake up to the
   * time asked about.
   */
  lemma OnlyTheLatestAnswers(events: seq<Event>, event: Event)
    requires Possible(INITIAL, events) && Enabled(Run(INITIAL, events), event)
    ensures var s := Run(INITIAL, events);
      && s.answers <= Step(s, event).answers
      && forall a :: a in Step(s, event).answers[|s.answers|..] ==> Justified(Step(s, event), a)
  {
    RunKeepsInv(INITIAL, events);
    StepIsJustified(Run(INITIAL, events), event);
  }

  /**
   * `project` calls follow each other in call order, and their generations strictly increase
   * exactly when every `nextGeneration()` answered above the one before it.
   */
  lemma GenerationsRiseInCallOrder(events: seq<Event>)
    requires Possible(INITIAL, events)
    ensures var s := Run(INITIAL, events);
      && s.projected == InCallOrder(s.sent)
      && (s.rising <==> Increasing(s.projected))
      && OneAtATime(s)
  {
    RunKeepsInv(INITIAL, events);
  }
}

/** The projector's closure variables and the functions that change them. */
module AlarmProjector {
  import opened Prelude
  import opened ProjectorModel

  class BrowserAlarmProjector {
    var sent: seq<Sent>
    var waiters: seq<Waiter>
    var acknowledged: nat
    ghost var answers: seq<Answer>
    ghost var projected: seq<Projection>
    ghost var rising: bool

    ghost function Model(): State
      reads this
    {
      State(sent, waiters, answers, acknowledged, projected, rising)
    }

    constructor ()
      ensures Model() == INITIAL
    {
      sent, waiters, acknowledged, answers, projected, rising := [], [], 0, [], [], true;
    }

    method Settle()
      modifies this`waiters, this`answers
      ensures Model() == ProjectorModel.Settle(old(Model()))
    {
      if sent == [] || !sent[|sent| - 1].phase.Settled? {
        return;
      }
      var latest := sent[|sent| - 1];
      match latest.phase.outcome
      case Rejected(reason) =>
        answers := answers + RejectedAll(waiters, reason);
        waiters := [];
      case Fulfilled(projection) =>
        if latest.activeDeliveries != 0 {
          return;
        }
        var all, kept := waiters, [];
        for i := 0 to |all|
          invariant Kept(old(waiters), projection) == kept + Kept(all[i..], projection)
          invariant old(answers) + Resolved(old(waiters), projection) == answers + Resolved(all[i..], projection)
        {
          assert all[i..][1..] == all[i + 1..];
          if Holds(projection, all[i].after) {
            kept := kept + [all[i]];
          } else {
            answers := answers + [Answer(all[i], Fulfilled(projection))];
          }
        }
        waiters := kept;
    }

    method ProjectWake(when: Option<int>, activeDeliveries: nat) returns (call: nat)
      modifies this`sent
      ensures Model() == Step(old(Model()), Event.ProjectWake(when, activeDeliveries))
      ensures call == |old(sent)|
    {
      call := |sent|;
      sent := sent + [Sent(when, activeDeliveries, Chained, None)];
    }

    method Acknowledge(after: int)
      modifies this
      ensures Model() == Step(old(Model()), Event.Acknowledge(after))
    {
      waiters := waiters + [Waiter(acknowledged, after)];
      acknowledged := acknowledged + 1;
      if sent != [] && sent[|sent| - 1].phase.Settled? && sent[|sent| - 1].phase.outcome.Rejected? {
        var latest := sent[|sent| - 1];
        var _ := ProjectWake(latest.when, latest.activeDeliveries);
      } else {
        Settle();
      }
    }

    /** The previous promise of the chain settled: this call draws its generation. */
    method Begin(call: nat)
      requires Enabled(Model(), Event.Begin(call))
      modifies this`sent
      ensures Model() == Step(old(Model()), Event.Begin(call))
    {
      sent := sent[call := sent[call].(phase := Drawing)];
    }

    /** `nextGeneration()` answered: the projection goes to `project()`. */
    method Drawn(call: nat, generation: nat) returns (projection: Projection)
      requires Enabled(Model(), Event.Drawn(call, generation))
      modifies this
      ensures Model() == Step(old(Model()), Event.Drawn(call, generation))
      ensures projected == old(projected) + [projection]
    {
      projection := Projection(generation, sent[call].when);
      rising := rising && Above(projected, generation);
      projected := projected + [projection];
      sent := sent[call := sent[call].(phase := Projecting, projection := Some(projection))];
    }

    method Record(call: nat, outcome: Outcome)
      requires call < |sent|
      modifies this
      ensures Model() == ProjectorModel.Settle(SetPhase(old(Model()), call, Settled(outcome)))
    {
      sent := sent[call := sent[call].(phase := Settled(outcome))];
      Settle();
    }

    method DrawFailed(call: nat, reason: nat)
      requires Enabled(Model(), Event.DrawFailed(call, reason))
      modifies this
      ensures Model() == Step(old(Model()), Event.DrawFailed(call, reason))
    {
      Record(call, Rejected(reason));
    }

    method Accepted(call: nat)
      requires Enabled(Model(), Event.Accepted(call))
      modifies this
      ensures Model() == Step(old(Model()), Event.Accepted(call))
    {
      Record(call, Fulfilled(sent[call].projection.value));
    }

    method Refused(call: nat, reason: nat)
      requires Enabled(Model(), Event.Refused(call, reason))
      modifies this
      ensures Model() == Step(old(Model()), Event.Refused(call, reason))
    {
      Record(call, Rejected(reason));
    }
  }
}
