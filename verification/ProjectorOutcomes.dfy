/** What a projection and an acknowledgement of the Worker's half of the alarm protocol come to. */
module ProjectorOutcomes {
  import opened Prelude
  import opened ProjectorModel
  import opened ProjectorTheorems

  lemma {:induction false} RunMore(s: State, events: seq<Event>, event: Event)
    requires Possible(s, events) && Enabled(Run(s, events), event)
    ensures Possible(s, events + [event]) && Run(s, events + [event]) == Step(Run(s, events), event)
    decreases |events|
  {
    hide Step, Enabled;
    if events == [] {
      assert [event][1..] == [];
      assert events + [event] == [event];
    } else {
      assert (events + [event])[1..] == events[1..] + [event];
      RunMore(Step(s, events[0]), events[1..], event);
    }
  }

  /** A projection waits for the one before it, and goes on whichever way that one settled. */
  lemma WakeIsChained(events: seq<Event>, when: Option<int>, activeDeliveries: nat)
    requires Possible(INITIAL, events)
    ensures var s := Run(INITIAL, events); var t := Step(s, ProjectWake(when, activeDeliveries));
      && t == s.(sent := s.sent + [Sent(when, activeDeliveries, Chained, None)])
      && (Enabled(t, Begin(|s.sent|)) <==> s.sent == [] || s.sent[|s.sent| - 1].phase.Settled?)
  {
    hide Run;
  }

  /** Whether this waiter need not wait for the projection's wake. */
  predicate Free(projection: Projection, after: int) {
    projection.when.None? || projection.when.value > after
  }

  lemma {:induction false} ResolvedAnswersAll(waiters: seq<Waiter>, projection: Projection)
    ensures forall w :: w in waiters && Free(projection, w.after) ==>
      Answer(w, Fulfilled(projection)) in Resolved(waiters, projection)
    ensures forall w :: w in waiters && !Free(projection, w.after) ==> w in Kept(waiters, projection)
  {
    if waiters != [] { ResolvedAnswersAll(waiters[1..], projection); }
  }

  lemma {:induction false} RejectedAnswersAll(waiters: seq<Waiter>, reason: nat)
    ensures forall w :: w in waiters ==> Answer(w, Rejected(reason)) in RejectedAll(waiters, reason)
  {
    if waiters != [] { RejectedAnswersAll(waiters[1..], reason); }
  }

  /** Every waiter is answered that the projection leaves nothing to wait for, and the others wait on. */
  ghost predicate AnswersWaiters(s: State, t: State, projection: Projection) {
    && (forall w :: w in s.waiters && Free(projection, w.after) ==> Answer(w, Fulfilled(projection)) in t.answers)
    && (forall w :: w in s.waiters && !Free(projection, w.after) ==> w in t.waiters)
  }

  /**
   * A projection whose turn it is goes out with a new generation and its own wake, and settles with it;
   * the latest one, if it counted no active delivery, then answers the waiters.
   */
  lemma ProjectionGoesOut(events: seq<Event>, call: nat, generation: nat)
    requires Possible(INITIAL, events) && Enabled(Run(INITIAL, events), Begin(call))
    ensures var s := Run(INITIAL, events); var whole := events + [Begin(call)] + [Drawn(call, generation)] + [Accepted(call)];
      && Possible(INITIAL, whole)
      && var t := Run(INITIAL, whole); var sent := s.sent[call]; var projection := Projection(generation, sent.when);
      && t.projected == s.projected + [projection]
      && t.sent == s.sent[call := Sent(sent.when, sent.activeDeliveries, Settled(Fulfilled(projection)), Some(projection))]
      && (call == |s.sent| - 1 && sent.activeDeliveries == 0 ==> AnswersWaiters(s, t, projection))
  {
    var s := Run(INITIAL, events);
    hide Run, Possible;
    RunMore(INITIAL, events, Begin(call));
    var begun := events + [Begin(call)];
    RunMore(INITIAL, begun, Drawn(call, generation));
    var drawn := begun + [Drawn(call, generation)];
    RunMore(INITIAL, drawn, Accepted(call));
    ResolvedAnswersAll(s.waiters, Projection(generation, s.sent[call].when));
    hide Resolved, Kept;
  }

  /** When the latest projection fails, every waiter is told so. */
  lemma LatestFailureRejectsAll(events: seq<Event>, event: Event)
    requires Possible(INITIAL, events) && Enabled(Run(INITIAL, events), event)
    requires (event.DrawFailed? || event.Refused?) && event.call == |Run(INITIAL, events).sent| - 1
    ensures var s := Run(INITIAL, events); var t := Step(s, event);
      && t.waiters == [] && t.sent[event.call].phase == Settled(Rejected(event.reason))
      && forall w :: w in s.waiters ==> Answer(w, Rejected(event.reason)) in t.answers
  {
    var s := Run(INITIAL, events);
    hide Run, RejectedAll;
    RejectedAnswersAll(s.waiters, event.reason);
  }

  /** Whether the latest call's result settles an acknowledgement asked for now. */
  predicate SettledFor(s: State, after: int) {
    s.sent != [] &&
    var latest := s.sent[|s.sent| - 1];
    latest.phase.Settled? && latest.phase.outcome.Fulfilled? && latest.activeDeliveries == 0
    && Free(latest.phase.outcome.projection, after)
  }

  /**
   * An acknowledgement is answered at once when the latest projection already settles it, is projected
   * again when the latest one failed, and waits otherwise.
   */
  lemma AcknowledgementIsHeard(events: seq<Event>, after: int)
    requires Possible(INITIAL, events)
    ensures var s := Run(INITIAL, events); var t := Step(s, Acknowledge(after)); var own := Waiter(s.acknowledged, after);
      && (SettledFor(s, after) ==>
            Answer(own, s.sent[|s.sent| - 1].phase.outcome) in t.answers && own !in t.waiters && t.sent == s.sent)
      && (!SettledFor(s, after) ==> own in t.waiters)
      && (LatestFailed(s) ==> var latest := s.sent[|s.sent| - 1];
            t.sent == s.sent + [Sent(latest.when, latest.activeDeliveries, Chained, None)])
      && (!LatestFailed(s) ==> t.sent == s.sent)
  {
    var s := Run(INITIAL, events);
    hide Run;
    var own := Waiter(s.acknowledged, after);
    if s.sent != [] && s.sent[|s.sent| - 1].phase.Settled? && s.sent[|s.sent| - 1].phase.outcome.Fulfilled? {
      var projection := s.sent[|s.sent| - 1].phase.outcome.projection;
      ResolvedAnswersAll(s.waiters + [own], projection);
      KeptHold(s.waiters + [own], projection);
    }
    hide Resolved, Kept, RejectedAll;
    assert own in s.waiters + [own];
  }
}
