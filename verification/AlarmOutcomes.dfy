/** What the operations of the alarm protocol achieve when nothing stops them. */
module AlarmOutcomes {
  import opened Prelude
  import opened AlarmModel
  import opened AlarmTheorems

  /** Only the operation under way goes on. */
  predicate GoesOn(steps: seq<Event>) {
    forall e :: e in steps ==> e.Acts? || e.Finishes?
  }

  function Completed(st: State): State
    decreases if st.running.Some? then |st.running.value.effects| else 0
  {
    if st.running.None? || st.running.value.effects == [] then Finish(st) else Completed(Act(st))
  }

  lemma {:induction false} IdleRests(st: State, steps: seq<Event>)
    requires st.running.None? && GoesOn(steps)
    ensures Run(st, steps) == st
    decreases |steps|
  {
    if steps != [] {
      assert steps[0] in steps;
      IdleRests(st, steps[1..]);
    }
  }

  /** However often it is asked to act or finish, an operation that ended ended in one way. */
  lemma {:induction false} EndsOneWay(st: State, steps: seq<Event>)
    requires st.running.Some? && GoesOn(steps) && Run(st, steps).running.None?
    ensures Run(st, steps) == Completed(st)
    decreases |steps|
  {
    if steps != [] {
      assert steps[0] in steps;
      var next := Step(st, steps[0]);
      if next.running.None? {
        IdleRests(next, steps[1..]);
      } else {
        EndsOneWay(next, steps[1..]);
      }
    }
  }

  /** The queue's first operation starts with nothing running, and `steps` take it to its end. */
  ghost predicate RunsFirst(before: seq<Event>, steps: seq<Event>) {
    var st := Run(INITIAL, before);
    && st.running.None? && st.queue != [] && GoesOn(steps)
    && Run(st, [Loads] + steps).running.None?
  }

  lemma FirstCompletes(before: seq<Event>, steps: seq<Event>)
    requires RunsFirst(before, steps)
    ensures var st := Run(INITIAL, before); Run(st, [Loads] + steps) == Completed(Step(st, Loads))
  {
    var st := Run(INITIAL, before);
    assert ([Loads] + steps)[1..] == steps;
    EndsOneWay(Step(st, Loads), steps);
  }

  lemma RunOne(st: State, a: Event)
    ensures Run(st, [a]) == Step(st, a)
  {
    hide Step;
    assert [a][1..] == [];
  }

  lemma RunFour(st: State, a: Event, b: Event, c: Event, d: Event)
    ensures Run(st, [a, b, c, d]) == Step(Step(Step(Step(st, a), b), c), d)
  {
    hide Step;
    var s1 := Step(st, a);
    var s2 := Step(s1, b);
    assert [a, b, c, d][1..] == [b, c, d] && [b, c, d][1..] == [c, d] && [c, d][1..] == [d];
    RunOne(Step(s2, c), d);
    assert Run(s2, [c, d]) == Run(Step(s2, c), [d]);
    assert Run(s1, [b, c, d]) == Run(s2, [c, d]);
    assert Run(st, [a, b, c, d]) == Run(s1, [b, c, d]);
  }

  /** Every operation ends within two awaited effects. */
  lemma FirstEnds(before: seq<Event>)
    requires Run(INITIAL, before).running.None? && Run(INITIAL, before).queue != []
    ensures RunsFirst(before, [Acts, Acts, Finishes])
  {
    hide Run;
    var st := Run(INITIAL, before);
    assert [Loads] + [Acts, Acts, Finishes] == [Loads, Acts, Acts, Finishes];
    RunFour(st, Loads, Acts, Acts, Finishes);
    TwoEffectsEnd(st);
  }

  lemma TwoEffectsEnd(st: State)
    requires st.running.None? && st.queue != []
    ensures Step(Step(Step(Step(st, Loads), Acts), Acts), Finishes).running.None?
  {
    PlanIsShort(st.queue[0], st.journal, st.now);
    hide Plan;
  }

  lemma PlanIsShort(op: Op, stored: Option<Journal>, now: int)
    ensures |Plan(op, stored, now).effects| <= 2
  {
  }

  lemma CompletedIs(st: State)
    requires st.running.Some? && |st.running.value.effects| <= 2
    ensures Completed(st) ==
      var effects := st.running.value.effects;
      if |effects| == 0 then Finish(st)
      else if |effects| == 1 then Finish(Act(st))
      else Finish(Act(Act(st)))
  {
    if st.running.value.effects != [] {
      var s1 := Act(st);
      assert Completed(st) == Completed(s1);
      if s1.running.value.effects != [] {
        assert Completed(s1) == Completed(Act(s1));
      }
    }
  }

  /** Whether the stored projection is newer than this one. */
  predicate Outranked(st: State, projection: Projection) {
    st.journal.Some? && projection.generation < st.journal.value.projection.generation
  }

  /**
   * `project()` takes a projection at least as new as the stored one: it is journaled, and the alarm
   * armed for it or cleared, unless a delivery is under way, which stays with its recovery wake. An
   * older one changes nothing.
   */
  lemma ProjectionIsTaken(before: seq<Event>, p: Projection, steps: seq<Event>)
    requires RunsFirst(before, steps) && Run(INITIAL, before).queue[0] == Project(p)
    ensures var st := Run(INITIAL, before); var st' := Run(st, [Loads] + steps);
      && st'.queue == st.queue[1..] && st'.active == st.active && st'.calls == st.calls
      && (Outranked(st, p) ==> st'.journal == st.journal && st'.physical == st.physical)
      && (!Outranked(st, p) ==>
          && st'.journal.Some? && st'.journal.value.projection == p
          && if st.journal.Some? && st.journal.value.delivery.Some?
             then st'.journal.value.delivery == st.journal.value.delivery && st'.physical == st.physical
             else st'.journal.value.delivery.None? && st'.physical == p.when)
  {
    var st := Run(INITIAL, before);
    FirstCompletes(before, steps);
    CompletedIs(Step(st, Loads));
  }

  /**
   * The acknowledgement of a delivery takes its projection and ends the delivery: the journal holds no
   * delivery, and the alarm is armed for the projection or cleared. An older one only ends the delivery.
   */
  lemma AcknowledgementIsTaken(before: seq<Event>, g: nat, p: Projection, steps: seq<Event>)
    requires RunsFirst(before, steps) && Run(INITIAL, before).queue[0] == Acknowledge(g, p)
    ensures var st := Run(INITIAL, before); var st' := Run(st, [Loads] + steps);
      && st'.queue == st.queue[1..] && st'.active == st.active - {g} && st'.calls == st.calls
      && (Outranked(st, p) ==> st'.journal == st.journal && st'.physical == st.physical)
      && (!Outranked(st, p) ==> st'.journal == Some(Journal(None, p)) && st'.physical == p.when)
  {
    var st := Run(INITIAL, before);
    FirstCompletes(before, steps);
    CompletedIs(Step(st, Loads));
  }

  /** The wake a fire at time `t` is measured against: the stored one, or its own where nothing is stored. */
  function WakeFor(st: State, t: int): Option<int> {
    if st.journal.None? then Some(t)
    else if st.journal.value.delivery.Some? then Some(st.journal.value.delivery.value.wake)
    else st.journal.value.projection.when
  }

  /** The projection a fire delivers. */
  function Projected(st: State, t: int): Projection {
    if st.journal.Some? then st.journal.value.projection else Projection(0, Some(t))
  }

  /**
   * A fire that is due journals a delivery of the stored generation, arms its recovery wake in the
   * future and, unless that generation is already being delivered in this process, delivers it. An
   * early one arms the stored wake again, and one with no wake to meet does nothing.
   */
  lemma FireDelivers(before: seq<Event>, t: int, steps: seq<Event>)
    requires RunsFirst(before, steps) && Run(INITIAL, before).queue[0] == Fire(t)
    ensures var st := Run(INITIAL, before); var st' := Run(st, [Loads] + steps);
      var wake, g := WakeFor(st, t), Projected(st, t).generation;
      && st'.queue == st.queue[1..]
      && (wake.None? || t < wake.value ==>
          && st'.journal == st.journal && st'.active == st.active && st'.calls == st.calls
          && st'.physical == if wake.None? then st.physical else wake)
      && (wake.Some? && t >= wake.value ==>
          && st'.journal.Some? && st'.journal.value.projection == Projected(st, t)
          && st'.journal.value.delivery.Some? && st'.journal.value.delivery.value.generation == g
          && st'.journal.value.delivery.value.wake > st.now
          && st'.physical == Some(st'.journal.value.delivery.value.wake)
          && g in st'.active && st'.active == st.active + {g}
          && st'.calls == if g in st.active then st.calls else st.calls + [g])
  {
    var st := Run(INITIAL, before);
    FirstCompletes(before, steps);
    CompletedIs(Step(st, Loads));
  }

  /**
   * One alarm from end to end. In a process at rest, with a due alarm and no delivery of the stored
   * generation in flight, the browser's alarm is delivered; and when that `deliver()` returns a
   * projection at least as new, it is journaled without a delivery and the alarm is its own.
   */
  lemma DueAlarmIsDelivered(before: seq<Event>, p: Projection)
    requires var st := Run(INITIAL, before);
      && st.running.None? && st.queue == [] && st.calls == [] && st.journal.Some? && st.physical.Some?
      && Owed(st.journal.value).Some? && Owed(st.journal.value).value <= st.physical.value <= st.now
      && st.journal.value.projection.generation !in st.active
      && p.generation >= st.journal.value.projection.generation
    ensures var st := Run(INITIAL, before); var g := st.journal.value.projection.generation;
      var fired := Run(INITIAL, before + [BrowserFires, Loads, Acts, Acts, Finishes]);
      var ended := Run(INITIAL, before + [BrowserFires, Loads, Acts, Acts, Finishes]
                                       + [Delivered(0, Some(p)), Loads, Acts, Acts, Finishes]);
      && fired.calls == [g]
      && ended.journal == Some(Journal(None, p)) && ended.physical == p.when
      && ended.calls == [] && g !in ended.active && ended.queue == [] && ended.running.None?
  {
    hide Run, Step;
    var st := Run(INITIAL, before);
    var t := st.physical.value;
    var fire, back := [BrowserFires, Loads, Acts, Acts, Finishes], [Delivered(0, Some(p)), Loads, Acts, Acts, Finishes];
    Fires(before, t);
    Returns(before + fire, 0, p);
  }

  /** `project()` from the host's call to its end, with nothing else under way. */
  lemma ProjectTakesEffect(before: seq<Event>, p: Projection)
    requires Run(INITIAL, before).running.None? && Run(INITIAL, before).queue == []
    ensures var st := Run(INITIAL, before);
      var st' := Run(INITIAL, before + [HostProjects(p), Loads, Acts, Acts, Finishes]);
      && st'.queue == [] && st'.running.None?
      && (!Outranked(st, p) ==>
          && st'.journal.Some? && st'.journal.value.projection == p
          && (st.journal.None? || st.journal.value.delivery.None? ==> st'.physical == p.when))
  {
    var steps, first := [Acts, Acts, Finishes], before + [HostProjects(p)];
    RunsOn(INITIAL, before, [HostProjects(p)]);
    RunOne(Run(INITIAL, before), HostProjects(p));
    hide Run;
    assert Run(INITIAL, first).queue == [Project(p)];
    FirstEnds(first);
    ProjectionIsTaken(first, p, steps);
    RunsOn(INITIAL, first, [Loads] + steps);
    assert first + ([Loads] + steps) == before + [HostProjects(p), Loads, Acts, Acts, Finishes];
  }

  /** A due alarm's fire, from the browser's call to its end. */
  lemma Fires(before: seq<Event>, t: int)
    requires var st := Run(INITIAL, before);
      st.running.None? && st.queue == [] && st.physical == Some(t) && t <= st.now
    ensures var st := Run(INITIAL, before);
      var st' := Run(INITIAL, before + [BrowserFires, Loads, Acts, Acts, Finishes]);
      var wake, g := WakeFor(st, t), Projected(st, t).generation;
      && st'.queue == [] && st'.running.None?
      && (wake.Some? && t >= wake.value ==>
          && st'.journal.Some? && st'.journal.value.projection == Projected(st, t)
          && st'.active == st.active + {g} && st'.calls == if g in st.active then st.calls else st.calls + [g])
  {
    var steps, first := [Acts, Acts, Finishes], before + [BrowserFires];
    RunsOn(INITIAL, before, [BrowserFires]);
    RunOne(Run(INITIAL, before), BrowserFires);
    hide Run;
    assert Run(INITIAL, first).queue == [Fire(t)];
    FirstEnds(first);
    FireDelivers(first, t, steps);
    RunsOn(INITIAL, first, [Loads] + steps);
    assert first + ([Loads] + steps) == before + [BrowserFires, Loads, Acts, Acts, Finishes];
  }

  /** A delivery's return, to the end of its acknowledgement. */
  lemma Returns(before: seq<Event>, i: nat, p: Projection)
    requires var st := Run(INITIAL, before);
      st.running.None? && st.queue == [] && i < |st.calls| && !Outranked(st, p)
    ensures var st := Run(INITIAL, before);
      var st' := Run(INITIAL, before + [Delivered(i, Some(p)), Loads, Acts, Acts, Finishes]);
      && st'.queue == [] && st'.running.None?
      && st'.journal == Some(Journal(None, p)) && st'.physical == p.when
      && st'.active == st.active - {st.calls[i]} && st'.calls == st.calls[..i] + st.calls[i + 1..]
  {
    var steps, first := [Acts, Acts, Finishes], before + [Delivered(i, Some(p))];
    RunsOn(INITIAL, before, [Delivered(i, Some(p))]);
    RunOne(Run(INITIAL, before), Delivered(i, Some(p)));
    hide Run;
    var g := Run(INITIAL, before).calls[i];
    assert Run(INITIAL, first).queue == [Acknowledge(g, p)];
    FirstEnds(first);
    AcknowledgementIsTaken(first, g, p, steps);
    RunsOn(INITIAL, first, [Loads] + steps);
    assert first + ([Loads] + steps) == before + [Delivered(i, Some(p)), Loads, Acts, Acts, Finishes];
  }

  lemma {:induction false} RunsOn(st: State, first: seq<Event>, second: seq<Event>)
    ensures Run(st, first + second) == Run(Run(st, first), second)
    decreases |first|
  {
    if first == [] {
      assert first + second == second;
    } else {
      assert (first + second)[1..] == first[1..] + second;
      RunsOn(Step(st, first[0]), first[1..], second);
    }
  }

  /** A stopped worker forgets its queue, its operation and its deliveries, and keeps what was stored. */
  lemma StoppedWorkerForgets(before: seq<Event>)
    ensures var st := Run(INITIAL, before); var st' := Step(st, Crashes);
      && st'.queue == [] && st'.running.None? && st'.calls == [] && st'.active == {} && !st'.repaired
      && st'.journal == st.journal && st'.physical == st.physical && st'.now == st.now
  {
    hide Run;
  }

  /** An operation that fails ends, whether its store or alarm call took effect or not, and the queue goes on. */
  lemma FailedOperationEnds(before: seq<Event>, took: bool)
    requires Run(INITIAL, before).running.Some? && Run(INITIAL, before).running.value.effects != []
    ensures var st := Run(INITIAL, before); var st' := Step(st, Faults(took));
      && st'.running.None? && st'.queue == st.queue && st'.calls == st.calls
      && (if took then st'.journal == Step(st, Acts).journal && st'.physical == Step(st, Acts).physical
          else st'.journal == st.journal && st'.physical == st.physical)
  {
    hide Run;
  }

  /** Only the clock moves while time passes, and an alarm due by then can fire. */
  lemma TimePasses(before: seq<Event>, elapsed: nat)
    ensures var st := Run(INITIAL, before); var st' := Step(st, Ticks(elapsed));
      && st' == st.(now := st.now + elapsed)
      && (st.physical.Some? && st.physical.value <= st.now + elapsed ==> Step(st', BrowserFires).physical.None?)
  {
    hide Run;
  }
}
