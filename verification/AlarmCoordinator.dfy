/**
 * The physical alarm protocol of `src/browser/alarm-coordinator.ts`. One step is one awaited store
 * or alarm operation, so a crash may fall between any two. The journal and the one-shot alarm
 * survive a crash; the operation queue and the deliveries in flight do not.
 */
module AlarmModel {
  import opened Prelude

  datatype Projection = Projection(generation: nat, when: Option<int>)

  datatype Delivery = Delivery(generation: nat, retryCount: nat, wake: int)

  datatype Journal = Journal(delivery: Option<Delivery>, projection: Projection)

  datatype Effect = Save(journal: Journal) | Arm(when: int) | ClearAlarm

  /** A body handed to `#mutate`; `Acknowledge` is the second one of `fire()`. */
  datatype Op =
    | Project(projection: Projection)
    | Reconcile
    | Fire(scheduledTime: int)
    | Acknowledge(generation: nat, projection: Projection)

  /** What follows the last awaited effect of an operation. */
  datatype Ending = Return | StartDelivery(generation: nat) | EndDelivery(generation: nat)

  datatype Running = Running(op: Op, effects: seq<Effect>, ending: Ending)

  datatype State = State(
    journal: Option<Journal>, physical: Option<int>, now: int,
    queue: seq<Op>, running: Option<Running>,
    active: set<nat>,
    calls: seq<nat>,   // generations of the `deliver()` calls in flight
    repaired: bool)    // a `reconcile()` completed in this process, and no store or alarm operation failed since

  const INITIAL := State(None, None, 0, [], None, {}, [], false)

  const ALARM_RETRY_MAX_TRIES := 6

  function Pow2(n: nat): (r: nat)
    ensures r > 0
  {
    if n == 0 then 1 else 2 * Pow2(n - 1)
  }

  function AlarmRetryDelayMs(backoff: nat): (delay: int)
    ensures delay > 0
  {
    2 * Pow2(backoff) * 1000
  }

  function Min(a: int, b: int): int { if a < b then a else b }
  function Max(a: int, b: int): int { if a < b then b else a }

  /** The wake the journal owes: the delivery's recovery wake, else the projected one. */
  function Owed(journal: Journal): Option<int> {
    if journal.delivery.Some? then Some(journal.delivery.value.wake) else journal.projection.when
  }

  function Apply(when: Option<int>): Effect {
    match when case None => ClearAlarm case Some(t) => Arm(t)
  }

  /** A delivery of the journaled generation, begun or begun again at `now`. */
  function NextDelivery(journal: Journal, now: int): Delivery {
    var retryCount :=
      if journal.delivery.Some? && journal.delivery.value.generation == journal.projection.generation
      then journal.delivery.value.retryCount else 0;
    Delivery(
      journal.projection.generation,
      Min(retryCount + 1, ALARM_RETRY_MAX_TRIES),
      now + AlarmRetryDelayMs(Min(retryCount, ALARM_RETRY_MAX_TRIES - 1)))
  }

  /** The awaited effects of an operation that loaded `stored` at `now`. */
  function Plan(op: Op, stored: Option<Journal>, now: int): Running {
    match op
    case Project(p) =>
      if stored.Some? && p.generation < stored.value.projection.generation then Running(op, [], Return)
      else if stored.Some? && stored.value.delivery.Some? then
        if p != stored.value.projection then Running(op, [Save(stored.value.(projection := p))], Return)
        else Running(op, [], Return)
      else Running(op, [Save(Journal(None, p)), Apply(p.when)], Return)
    case Reconcile =>
      if stored.None? then Running(op, [], Return)
      else if stored.value.delivery.Some? then Running(op, [Arm(Max(stored.value.delivery.value.wake, now))], Return)
      else Running(op, [Apply(stored.value.projection.when)], Return)
    case Fire(t) =>
      var current := if stored.Some? then stored.value else Journal(None, Projection(0, Some(t)));
      var expected := Owed(current);
      if expected.None? then Running(op, [], Return)
      else if t < expected.value then Running(op, [Arm(expected.value)], Return)
      else
        var delivery := NextDelivery(current, now);
        Running(op, [Arm(delivery.wake), Save(current.(delivery := Some(delivery)))], StartDelivery(delivery.generation))
    case Acknowledge(g, p) =>
      if stored.Some? && p.generation < stored.value.projection.generation then Running(op, [], EndDelivery(g))
      else Running(op, [Save(Journal(None, p)), Apply(p.when)], EndDelivery(g))
  }

  // ---- Steps ----

  function Submit(st: State, op: Op): State {
    st.(queue := st.queue + [op])
  }

  /** The queue's next operation starts and its `load()` completes. */
  function Load(st: State): State {
    if st.running.Some? || st.queue == [] then st
    else st.(queue := st.queue[1..], running := Some(Plan(st.queue[0], st.journal, st.now)))
  }

  function Effected(st: State, effect: Effect): State {
    match effect
    case Save(journal) => st.(journal := Some(journal))
    case Arm(when) => st.(physical := Some(when))
    case ClearAlarm => st.(physical := None)
  }

  function Act(st: State): State {
    if st.running.None? || st.running.value.effects == [] then st
    else
      var running := st.running.value;
      Effected(st, running.effects[0]).(running := Some(running.(effects := running.effects[1..])))
  }

  function Ended(st: State, ending: Ending): State {
    match ending
    case Return => st
    case StartDelivery(g) =>
      if g in st.active then st else st.(active := st.active + {g}, calls := st.calls + [g])
    case EndDelivery(g) => st.(active := st.active - {g})
  }

  function Finish(st: State): State {
    if st.running.None? || st.running.value.effects != [] then st
    else
      var running := st.running.value;
      Ended(st.(running := None, repaired := st.repaired || running.op.Reconcile?), running.ending)
  }

  /** The awaited operation rejects, with or without having taken effect; only a delivery's `finally` still runs. */
  function Fault(st: State, took: bool): State {
    if st.running.None? then st
    else
      var running := st.running.value;
      var after := if took && running.effects != [] then Effected(st, running.effects[0]) else st;
      var idle := after.(running := None, repaired := false);
      if running.ending.EndDelivery? then Ended(idle, running.ending) else idle
  }

  /** The browser fires the alarm, which consumes it, and calls `fire()` with its time. */
  function AlarmFires(st: State): State {
    if st.physical.None? || st.physical.value > st.now then st
    else Submit(st.(physical := None), Fire(st.physical.value))
  }

  /** The `i`th `deliver()` call in flight returns a projection, or fails. */
  function DeliverReturns(st: State, i: nat, result: Option<Projection>): State {
    if i >= |st.calls| then st
    else
      var g := st.calls[i];
      var rest := st.(calls := st.calls[..i] + st.calls[i + 1..]);
      if result.Some? then Submit(rest, Acknowledge(g, result.value)) else rest.(active := rest.active - {g})
  }

  /** The background worker is stopped: what was not stored is gone. */
  function Crash(st: State): State {
    st.(queue := [], running := None, active := {}, calls := [], repaired := false)
  }

  datatype Event =
    | HostProjects(projection: Projection) | HostReconciles | HostFires(scheduledTime: int)
    | Loads | Acts | Finishes | Faults(took: bool)
    | Ticks(elapsed: nat) | BrowserFires | Delivered(call: nat, result: Option<Projection>) | Crashes

  function Step(st: State, e: Event): State {
    match e
    case HostProjects(p) => Submit(st, Project(p))
    case HostReconciles => Submit(st, Reconcile)
    case HostFires(t) => Submit(st, Fire(t))
    case Loads => Load(st)
    case Acts => Act(st)
    case Finishes => Finish(st)
    case Faults(took) => Fault(st, took)
    case Ticks(elapsed) => st.(now := st.now + elapsed)
    case BrowserFires => AlarmFires(st)
    case Delivered(i, result) => DeliverReturns(st, i, result)
    case Crashes => Crash(st)
  }

  function Run(st: State, events: seq<Event>): State
    decreases |events|
  {
    if events == [] then st else Run(Step(st, events[0]), events[1..])
  }
}

/** What holds of the alarm protocol in every run. */
module AlarmTheorems {
  import opened Prelude
  import opened AlarmModel

  // ---- The journal ----

  /** What `op` may save over `stored`. Only a delivery changes the delivery, only a projection the projection. */
  predicate MaySave(stored: Option<Journal>, journal: Journal, op: Op) {
    match op
    case Reconcile => false
    case Project(p) =>
      && journal.projection == p
      && (stored.Some? ==> p.generation >= stored.value.projection.generation && journal.delivery == stored.value.delivery)
      && (stored.None? ==> journal.delivery.None?)
    case Acknowledge(_, p) =>
      journal == Journal(None, p) && (stored.Some? ==> p.generation >= stored.value.projection.generation)
    case Fire(t) =>
      var current := if stored.Some? then stored.value else Journal(None, Projection(0, Some(t)));
      && journal.projection == current.projection && journal.delivery.Some?
      && Owed(current).Some? && t >= Owed(current).value
      && Counts(current, journal.delivery.value)
  }

  /** Each delivery of a generation that was already under way counts one more try, up to the cap. */
  predicate Counts(before: Journal, after: Delivery) {
    && after.generation == before.projection.generation
    && after.retryCount ==
        (if before.delivery.Some? && before.delivery.value.generation == before.projection.generation
         then Min(before.delivery.value.retryCount + 1, ALARM_RETRY_MAX_TRIES) else 1)
  }

  predicate NoSave(effects: seq<Effect>) {
    effects == [] || (!effects[0].Save? && NoSave(effects[1..]))
  }

  /** At most one save remains, and it may go over the journal as it is. */
  predicate SaveFits(stored: Option<Journal>, effects: seq<Effect>, op: Op) {
    if effects == [] then true
    else if effects[0].Save? then MaySave(stored, effects[0].journal, op) && NoSave(effects[1..])
    else SaveFits(stored, effects[1..], op)
  }

  predicate SavesOk(st: State) {
    st.running.Some? ==> SaveFits(st.journal, st.running.value.effects, st.running.value.op)
  }

  // ---- The alarm ----

  /** The journal and alarm once the remaining effects have happened. */
  function After(st: State, effects: seq<Effect>): State
    decreases |effects|
  {
    if effects == [] then st else After(Effected(st, effects[0]), effects[1..])
  }

  function Outcome(st: State): State {
    After(st, if st.running.Some? then st.running.value.effects else [])
  }

  predicate FirePending(queue: seq<Op>) {
    exists i :: 0 <= i < |queue| && queue[i].Fire?
  }

  /** Armed for the wake owed; only a recovery wake that had passed when it was armed again may be later, and is then due. */
  predicate InTime(journal: Journal, armed: int, now: int) {
    Owed(journal) == Some(armed) || (journal.delivery.Some? && journal.delivery.value.wake < armed <= now)
  }

  /** A wake owed is armed in time, or about to be handled by a `fire()` already called; none is armed that is not owed. */
  predicate Kept(journal: Option<Journal>, physical: Option<int>, queue: seq<Op>, now: int) {
    journal.Some? ==>
      if Owed(journal.value).None? then physical.None?
      else if physical.Some? then InTime(journal.value, physical.value, now)
      else FirePending(queue)
  }

  predicate AlarmOk(st: State) {
    st.repaired || (st.running.Some? && st.running.value.op.Reconcile?) ==>
      Kept(Outcome(st).journal, Outcome(st).physical, st.queue, st.now)
  }

  // ---- Deliveries ----

  function Calls(calls: seq<nat>, g: nat): nat {
    if calls == [] then 0 else (if calls[0] == g then 1 else 0) + Calls(calls[1..], g)
  }

  function Acks(queue: seq<Op>, g: nat): nat {
    if queue == [] then 0
    else (if queue[0].Acknowledge? && queue[0].generation == g then 1 else 0) + Acks(queue[1..], g)
  }

  function Owned(ending: Ending, g: nat): nat {
    if ending == EndDelivery(g) then 1 else 0
  }

  /** The deliveries of generation `g` from their `deliver()` call to the end of their acknowledgement. */
  function UnderWay(st: State, g: nat): nat {
    Calls(st.calls, g) + Acks(st.queue, g) + (if st.running.Some? then Owned(st.running.value.ending, g) else 0)
  }

  /** The generations under way are exactly the active ones, each once. */
  ghost predicate Once(st: State) {
    forall g :: UnderWay(st, g) == if g in st.active then 1 else 0
  }

  ghost predicate Inv(st: State) {
    SavesOk(st) && AlarmOk(st) && Once(st)
  }

  // ---- Steps keep it ----

  lemma {:induction false} AcksOfConcat(a: seq<Op>, op: Op, g: nat)
    ensures Acks(a + [op], g) == Acks(a, g) + if op.Acknowledge? && op.generation == g then 1 else 0
  {
    if a == [] {
      assert a + [op] == [op] && [op][1..] == [];
    } else {
      assert (a + [op])[1..] == a[1..] + [op];
      AcksOfConcat(a[1..], op, g);
    }
  }

  lemma {:induction false} CallsOfConcat(a: seq<nat>, b: seq<nat>, g: nat)
    ensures Calls(a + b, g) == Calls(a, g) + Calls(b, g)
  {
    if a == [] {
      assert a + b == b;
    } else {
      assert (a + b)[1..] == a[1..] + b;
      CallsOfConcat(a[1..], b, g);
    }
  }

  lemma CallsWithout(calls: seq<nat>, i: nat, g: nat)
    requires i < |calls|
    ensures Calls(calls, g) == Calls(calls[..i] + calls[i + 1..], g) + if calls[i] == g then 1 else 0
  {
    assert calls == calls[..i] + calls[i..];
    CallsOfConcat(calls[..i], calls[i..], g);
    CallsOfConcat(calls[..i], calls[i + 1..], g);
    assert calls[i..][1..] == calls[i + 1..];
  }

  /** The remaining effects do not look at the rest of the state. */
  lemma {:induction false} AfterFrame(a: State, b: State, effects: seq<Effect>)
    requires a.journal == b.journal
    requires a.physical == b.physical
    ensures After(a, effects).journal == After(b, effects).journal
    ensures After(a, effects).physical == After(b, effects).physical
    decreases |effects|
  {
    if effects != [] { AfterFrame(Effected(a, effects[0]), Effected(b, effects[0]), effects[1..]); }
  }

  /** A consumed alarm is missing afterwards only if no remaining effect touches the alarm. */
  lemma {:induction false} AfterConsumed(a: State, b: State, effects: seq<Effect>)
    requires a.journal == b.journal && b.physical.None?
    ensures After(a, effects).journal == After(b, effects).journal
    ensures After(b, effects).physical == After(a, effects).physical || After(b, effects).physical.None?
    decreases |effects|
  {
    if effects != [] {
      if effects[0].Save? {
        AfterConsumed(Effected(a, effects[0]), Effected(b, effects[0]), effects[1..]);
      } else {
        AfterFrame(Effected(a, effects[0]), Effected(b, effects[0]), effects[1..]);
      }
    }
  }

  lemma KeptByMore(journal: Option<Journal>, physical: Option<int>, queue: seq<Op>, now: int, op: Op)
    requires Kept(journal, physical, queue, now)
    ensures Kept(journal, physical, queue + [op], now)
  {
    if FirePending(queue) {
      var i :| 0 <= i < |queue| && queue[i].Fire?;
      assert (queue + [op])[i].Fire?;
    }
  }

  /** An operation that starts from a kept wake, or repairs, ends with a kept wake. */
  lemma PlanKeeps(st: State, op: Op, rest: seq<Op>)
    requires Kept(st.journal, st.physical, [op] + rest, st.now) || op.Reconcile?
    ensures var end := After(st, Plan(op, st.journal, st.now).effects); Kept(end.journal, end.physical, rest, st.now)
  {
    var effects := Plan(op, st.journal, st.now).effects;
    if |effects| >= 1 {
      var first := Effected(st, effects[0]);
      assert After(st, effects) == After(first, effects[1..]);
      if |effects| == 2 {
        assert After(first, effects[1..]) == After(Effected(first, effects[1]), effects[2..]);
      }
    }
    if !op.Fire? && FirePending([op] + rest) {
      var i :| 0 <= i < |[op] + rest| && ([op] + rest)[i].Fire?;
      assert rest[i - 1].Fire?;
    }
  }

  lemma {:induction false} NoSaveFits(stored: Option<Journal>, effects: seq<Effect>, op: Op)
    requires NoSave(effects)
    ensures SaveFits(stored, effects, op)
  {
    if effects != [] { NoSaveFits(stored, effects[1..], op); }
  }

  lemma PlanFits(op: Op, stored: Option<Journal>, now: int)
    ensures SaveFits(stored, Plan(op, stored, now).effects, op)
  {
    var effects := Plan(op, stored, now).effects;
    if |effects| == 2 { assert effects[1..] == [effects[1]] && effects[1..][1..] == []; }
    if |effects| == 1 { assert effects[1..] == []; }
  }

  lemma StepSaves(st: State, e: Event)
    requires SavesOk(st)
    ensures SavesOk(Step(st, e))
  {
    if e.Loads? && st.running.None? && st.queue != [] { PlanFits(st.queue[0], st.journal, st.now); }
    if e.Acts? && st.running.Some? && st.running.value.effects != [] {
      var running := st.running.value;
      if running.effects[0].Save? { NoSaveFits(Act(st).journal, running.effects[1..], running.op); }
    }
  }

  lemma LoadAlarm(st: State)
    requires AlarmOk(st) && st.running.None? && st.queue != []
    ensures AlarmOk(Load(st))
  {
    var op, rest, st' := st.queue[0], st.queue[1..], Load(st);
    assert st.queue == [op] + rest;
    if st'.repaired || op.Reconcile? {
      assert Outcome(st) == st;
      PlanKeeps(st, op, rest);
      AfterFrame(st, st', st'.running.value.effects);
    }
  }

  function Remaining(st: State): seq<Effect> {
    if st.running.Some? then st.running.value.effects else []
  }

  lemma MoreQueued(st: State, st': State, op: Op)
    requires AlarmOk(st) && st' == st.(queue := st.queue + [op], calls := st'.calls)
    ensures AlarmOk(st')
  {
    AfterFrame(st, st', Remaining(st));
    if st.repaired || (st.running.Some? && st.running.value.op.Reconcile?) {
      KeptByMore(Outcome(st).journal, Outcome(st).physical, st.queue, st.now, op);
    }
  }

  lemma FiresAlarm(st: State)
    requires AlarmOk(st)
    ensures AlarmOk(AlarmFires(st))
  {
    if st.physical.Some? && st.physical.value <= st.now {
      var st' := AlarmFires(st);
      AfterConsumed(st, st', Remaining(st));
      assert st'.queue[|st.queue|].Fire?;
    }
  }

  lemma StepAlarm(st: State, e: Event)
    requires AlarmOk(st)
    ensures AlarmOk(Step(st, e))
  {
    match e
    case HostProjects(p) => MoreQueued(st, Step(st, e), Project(p));
    case HostReconciles => MoreQueued(st, Step(st, e), Reconcile);
    case HostFires(t) => MoreQueued(st, Step(st, e), Fire(t));
    case Loads => if st.running.None? && st.queue != [] { LoadAlarm(st); }
    case Acts =>
      if st.running.Some? && st.running.value.effects != [] {
        AfterFrame(Effected(st, st.running.value.effects[0]), Act(st), Remaining(Act(st)));
      }
    case Ticks(elapsed) => AfterFrame(st, Step(st, e), Remaining(st));
    case BrowserFires => FiresAlarm(st);
    case Delivered(i, result) =>
      if i < |st.calls| {
        if result.Some? { MoreQueued(st, Step(st, e), Acknowledge(st.calls[i], result.value)); }
        else { AfterFrame(st, Step(st, e), Remaining(st)); }
      }
    case _ =>
  }

  lemma EndedOnce(st: State, ending: Ending)
    requires forall g :: UnderWay(st, g) + Owned(ending, g) == if g in st.active then 1 else 0
    requires st.running.None?
    ensures Once(Ended(st, ending))
  {
    var st' := Ended(st, ending);
    forall g ensures UnderWay(st', g) == if g in st'.active then 1 else 0 {
      if ending.StartDelivery? {
        CallsOfConcat(st.calls, [ending.generation], g);
        assert [ending.generation][1..] == [];
      }
    }
  }

  lemma FinishOnce(st: State)
    requires Once(st)
    ensures Once(Finish(st))
  {
    if st.running.Some? && st.running.value.effects == [] {
      var running := st.running.value;
      var idle := st.(running := None, repaired := st.repaired || running.op.Reconcile?);
      forall g ensures UnderWay(idle, g) + Owned(running.ending, g) == if g in idle.active then 1 else 0 {
        assert UnderWay(st, g) == if g in st.active then 1 else 0;
      }
      EndedOnce(idle, running.ending);
    }
  }

  lemma FaultOnce(st: State, took: bool)
    requires Once(st)
    ensures Once(Fault(st, took))
  {
    if st.running.Some? {
      var running := st.running.value;
      var after := if took && running.effects != [] then Effected(st, running.effects[0]) else st;
      var idle := after.(running := None, repaired := false);
      forall g ensures UnderWay(idle, g) + Owned(running.ending, g) == if g in idle.active then 1 else 0 {
        assert UnderWay(st, g) == if g in st.active then 1 else 0;
      }
      if running.ending.EndDelivery? { EndedOnce(idle, running.ending); }
    }
  }

  lemma ReturnOnce(st: State, i: nat, result: Option<Projection>)
    requires Once(st)
    ensures Once(DeliverReturns(st, i, result))
  {
    if i < |st.calls| {
      var st' := DeliverReturns(st, i, result);
      forall g ensures UnderWay(st', g) == if g in st'.active then 1 else 0 {
        assert UnderWay(st, g) == if g in st.active then 1 else 0;
        CallsWithout(st.calls, i, g);
        if result.Some? { AcksOfConcat(st.queue, Acknowledge(st.calls[i], result.value), g); }
      }
    }
  }

  lemma QueuedOnce(st: State, op: Op)
    requires Once(st) && !op.Acknowledge?
    ensures Once(Submit(st, op))
  {
    forall g ensures UnderWay(Submit(st, op), g) == UnderWay(st, g) { AcksOfConcat(st.queue, op, g); }
  }

  lemma PlanOwns(op: Op, stored: Option<Journal>, now: int, g: nat)
    ensures Owned(Plan(op, stored, now).ending, g) == if op.Acknowledge? && op.generation == g then 1 else 0
  {
  }

  lemma LoadOnce(st: State)
    requires Once(st)
    ensures Once(Load(st))
  {
    if st.running.None? && st.queue != [] {
      forall g ensures UnderWay(Load(st), g) == UnderWay(st, g) { PlanOwns(st.queue[0], st.journal, st.now, g); }
    }
  }

  lemma SameOnce(st: State, st': State)
    requires Once(st)
    requires st'.calls == st.calls && st'.queue == st.queue && st'.active == st.active
    requires st'.running.Some? <==> st.running.Some?
    requires st.running.Some? ==> st'.running.value.ending == st.running.value.ending
    ensures Once(st')
  {
    forall g ensures UnderWay(st', g) == UnderWay(st, g) {}
  }

  lemma StepOnce(st: State, e: Event)
    requires Once(st)
    ensures Once(Step(st, e))
  {
    match e
    case HostProjects(p) => QueuedOnce(st, Project(p));
    case HostReconciles => QueuedOnce(st, Reconcile);
    case HostFires(t) => QueuedOnce(st, Fire(t));
    case Loads => LoadOnce(st);
    case Acts => SameOnce(st, Act(st));
    case Finishes => FinishOnce(st);
    case Faults(took) => FaultOnce(st, took);
    case Ticks(elapsed) => SameOnce(st, Step(st, e));
    case BrowserFires =>
      if st.physical.Some? && st.physical.value <= st.now {
        SameOnce(st, st.(physical := None));
        QueuedOnce(st.(physical := None), Fire(st.physical.value));
      }
    case Delivered(i, result) => ReturnOnce(st, i, result);
    case Crashes => forall g ensures UnderWay(Crash(st), g) == 0 {}
  }

  lemma StepOk(st: State, e: Event)
    requires Inv(st)
    ensures Inv(Step(st, e))
  {
    StepSaves(st, e);
    StepAlarm(st, e);
    StepOnce(st, e);
  }

  lemma {:induction false} RunOk(st: State, events: seq<Event>)
    requires Inv(st)
    ensures Inv(Run(st, events))
    decreases |events|
  {
    if events != [] {
      StepOk(st, events[0]);
      RunOk(Step(st, events[0]), events[1..]);
    }
  }

  // ---- The promises ----

  /**
   * In a process that has reconciled and whose operations have not failed, whenever no operation
   * runs and no `fire()` waits, the physical alarm is armed exactly when the journal owes a wake, and
   * for exactly that wake, or is already due when the wake passed before it was armed again.
   */
  lemma NoWakeIsLost(events: seq<Event>)
    ensures var st := Run(INITIAL, events);
      st.repaired && st.running.None? && !FirePending(st.queue) && st.journal.Some? ==>
        && (st.physical.Some? <==> Owed(st.journal.value).Some?)
        && (st.physical.Some? ==> InTime(st.journal.value, st.physical.value, st.now))
  {
    RunOk(INITIAL, events);
  }

  /** The steps of one `reconcile()` nothing interrupts. */
  function ReconcileNow(st: State): State {
    var loaded := Load(Submit(st, Reconcile));
    Finish(if loaded.running.Some? && loaded.running.value.effects != [] then Act(loaded) else loaded)
  }

  /**
   * However the last process ended, and whatever alarm it left, `reconcile()` arms exactly the wake
   * the journal owes, or clears the alarm when it owes none. Without a journal it does nothing.
   */
  lemma ReconcileRepairs(before: seq<Event>)
    ensures var st := Crash(Run(INITIAL, before)); var st' := ReconcileNow(st);
      && st'.running.None? && st'.repaired && st'.journal == st.journal
      && st'.physical == match st.journal {
        case None => st.physical
        case Some(journal) =>
          if journal.delivery.Some? then Some(Max(journal.delivery.value.wake, st.now)) else journal.projection.when
      }
  {
    var st := Crash(Run(INITIAL, before));
    assert Submit(st, Reconcile).queue[1..] == [];
  }

  /** So the alarm is right after `reconcile()` exactly when there is a journal, or no alarm to begin with. */
  lemma ReconcileIsExact(before: seq<Event>)
    ensures var st := Crash(Run(INITIAL, before)); var st' := ReconcileNow(st);
      (st'.physical.Some? <==> st'.journal.Some? && Owed(st'.journal.value).Some?)
      <==> (st.journal.Some? || st.physical.None?)
  {
    ReconcileRepairs(before);
  }

  /** The other case happens: a first `fire()` arms before it journals, and is stopped in between. */
  lemma AlarmWithoutJournal()
    ensures var st := Crash(Run(INITIAL, [HostFires(0), Loads, Acts]));
      st.journal.None? && st.physical == Some(2000) && ReconcileNow(st).physical == Some(2000)
  {
    var s1 := Step(INITIAL, HostFires(0));
    assert s1.queue == [Fire(0)];
    var s2 := Step(s1, Loads);
    var s3 := Step(s2, Acts);
    assert Pow2(0) == 1;
    assert Run(INITIAL, [HostFires(0), Loads, Acts]) == s3 by {
      assert [HostFires(0), Loads, Acts][1..] == [Loads, Acts] && [Loads, Acts][1..] == [Acts] && [Acts][1..] == [];
      assert Run(s2, [Acts]) == Run(s3, []);
      assert Run(s1, [Loads, Acts]) == Run(s2, [Acts]);
    }
    assert Submit(Crash(s3), Reconcile).queue == [Reconcile];
  }

  /** The operation under way carries this projection. */
  predicate Carries(st: State, projection: Projection) {
    st.running.Some? && (st.running.value.op.Project? || st.running.value.op.Acknowledge?)
    && st.running.value.op.projection == projection
  }

  lemma OnlyEffectsSave(st: State, e: Event)
    requires !e.Acts? && !e.Faults?
    ensures Step(st, e).journal == st.journal
  {
  }

  lemma EffectSaves(st: State)
    requires Inv(st) && st.running.Some? && st.running.value.effects != [] && st.running.value.effects[0].Save?
    ensures MaySave(st.journal, st.running.value.effects[0].journal, st.running.value.op)
  {
  }

  /** One step keeps the journaled projection, or is the save of an operation that carries one at least as new. */
  lemma ProjectionStays(st: State, e: Event)
    requires Inv(st) && st.journal.Some?
    ensures var st' := Step(st, e);
      && st'.journal.Some?
      && (st'.journal.value.projection == st.journal.value.projection ||
          (Carries(st, st'.journal.value.projection)
           && st'.journal.value.projection.generation >= st.journal.value.projection.generation))
  {
    if !e.Acts? && !e.Faults? {
      OnlyEffectsSave(st, e);
    } else if st.running.Some? && st.running.value.effects != [] && st.running.value.effects[0].Save? {
      EffectSaves(st);
    }
  }

  /** The accepted projection was replaced on the way by `projection`, which an operation carried. */
  ghost predicate Replaced(st: State, events: seq<Event>, projection: Projection) {
    exists k :: 0 <= k < |events| && Carries(Run(st, events[..k]), projection)
  }

  /**
   * Over any run, crashes and failed operations included: an accepted projection is the one journaled, or
   * an operation carrying one at least as new replaced it. While it stands its wake is owed: the journal
   * owes its `when`, or the recovery wake of a delivery.
   */
  lemma {:induction false} WakeStaysOwed(st: State, events: seq<Event>)
    requires Inv(st) && st.journal.Some?
    ensures var st' := Run(st, events);
      && st'.journal.Some?
      && var was, stands := st.journal.value.projection, st'.journal.value.projection;
      && (stands == was || (Replaced(st, events, stands) && stands.generation >= was.generation))
      && (stands == was && was.when.Some? ==> Owed(st'.journal.value).Some?)
      && (stands == was && st'.journal.value.delivery.None? ==> Owed(st'.journal.value) == was.when)
    decreases |events|
  {
    if events != [] {
      var next, st' := Step(st, events[0]), Run(st, events);
      ProjectionStays(st, events[0]);
      StepOk(st, events[0]);
      WakeStaysOwed(next, events[1..]);
      var stands := st'.journal.value.projection;
      if stands != st.journal.value.projection {
        if stands == next.journal.value.projection {
          assert events[..0] == [] && Carries(Run(st, events[..0]), stands);
        } else {
          var k :| 0 <= k < |events[1..]| && Carries(Run(next, events[1..][..k]), stands);
          assert events[..k + 1][1..] == events[1..][..k] && events[..k + 1][0] == events[0];
          assert Carries(Run(st, events[..k + 1]), stands);
        }
      }
    }
  }

  /** The journaled generation never decreases, across crashes and failed operations. */
  lemma GenerationNeverFalls(before: seq<Event>, events: seq<Event>)
    requires Run(INITIAL, before).journal.Some?
    ensures var st := Run(INITIAL, before); var st' := Run(st, events);
      st'.journal.Some? && st'.journal.value.projection.generation >= st.journal.value.projection.generation
  {
    RunOk(INITIAL, before);
    WakeStaysOwed(Run(INITIAL, before), events);
  }

  /** Within one process, at most one `deliver()` of a generation is in flight. */
  lemma OneDeliveryPerGeneration(events: seq<Event>, i: nat, j: nat)
    ensures var st := Run(INITIAL, events); i < j < |st.calls| ==> st.calls[i] != st.calls[j]
  {
    RunOk(INITIAL, events);
    var st := Run(INITIAL, events);
    if i < j < |st.calls| {
      assert UnderWay(st, st.calls[i]) <= 1;
      AtMostOnce(st.calls, i, j);
    }
  }

  lemma AtMostOnce(calls: seq<nat>, i: nat, j: nat)
    requires i < j < |calls| && Calls(calls, calls[i]) <= 1
    ensures calls[i] != calls[j]
  {
    CallsWithout(calls, j, calls[i]);
    CallsWithout(calls[..j] + calls[j + 1..], i, calls[i]);
  }

  /** An acknowledgement older than the journal changes neither the journal nor the alarm. */
  lemma OldAcknowledgementChangesNothing(st: State, generation: nat, projection: Projection)
    requires st.running.None? && st.queue != [] && st.queue[0] == Acknowledge(generation, projection)
    requires st.journal.Some? && projection.generation < st.journal.value.projection.generation
    ensures Finish(Load(st)) == st.(queue := st.queue[1..], active := st.active - {generation})
  {
  }

  /** The operation under way carries a projection older than the journaled one. */
  predicate Outdated(st: State) {
    && st.running.Some? && (st.running.value.op.Project? || st.running.value.op.Acknowledge?)
    && st.journal.Some? && st.running.value.op.projection.generation < st.journal.value.projection.generation
  }

  lemma StepOutdated(st: State, e: Event)
    requires Inv(st) && (Outdated(st) ==> st.running.value.effects == [])
    ensures Outdated(Step(st, e)) ==> Step(st, e).running.value.effects == []
  {
    if e.Acts? && st.running.Some? && st.running.value.effects != [] && st.running.value.effects[0].Save? {
      EffectSaves(st);
    }
  }

  lemma {:induction false} RunOutdated(st: State, events: seq<Event>)
    requires Inv(st) && (Outdated(st) ==> st.running.value.effects == [])
    ensures Outdated(Run(st, events)) ==> Run(st, events).running.value.effects == []
    decreases |events|
  {
    if events != [] {
      StepOutdated(st, events[0]);
      StepOk(st, events[0]);
      RunOutdated(Step(st, events[0]), events[1..]);
    }
  }

  /**
   * In every run: whatever becomes of a `project()` or an acknowledgement with a projection older than
   * the journaled one, journal and alarm stay as they are until it has ended.
   */
  lemma OlderProjectionsChangeNothing(events: seq<Event>, e: Event)
    requires e.Acts? || e.Finishes? || e.Faults?
    ensures var st := Run(INITIAL, events);
      Outdated(st) ==> Step(st, e).journal == st.journal && Step(st, e).physical == st.physical
  {
    RunOutdated(INITIAL, events);
  }

  /** The step in which a `fire()` journals its delivery. */
  predicate JournalsDelivery(st: State, e: Event) {
    && (e.Acts? || (e.Faults? && e.took))
    && st.running.Some? && st.running.value.op.Fire?
    && st.running.value.effects != [] && st.running.value.effects[0].Save?
  }

  predicate Delivers(st: State, g: nat) {
    st.journal.Some? && st.journal.value.delivery.Some? && st.journal.value.delivery.value.generation == g
  }

  /** How often a delivery of `g` was journaled since none of `g` was. */
  function Fires(st: State, events: seq<Event>, g: nat, n: nat): nat
    decreases |events|
  {
    if events == [] then n
    else
      var next := Step(st, events[0]);
      Fires(next, events[1..], g,
        if !Delivers(next, g) then 0 else if JournalsDelivery(st, events[0]) then n + 1 else n)
  }

  /** The journaled delivery of `g`, if there is one, counts the `n` times it was journaled. */
  predicate Tried(st: State, g: nat, n: nat) {
    if Delivers(st, g) then st.journal.value.delivery.value.retryCount == Min(n, ALARM_RETRY_MAX_TRIES) else n == 0
  }

  lemma StepTried(st: State, e: Event, g: nat, n: nat)
    requires Inv(st) && Tried(st, g, n)
    ensures var next := Step(st, e);
      Tried(next, g, if !Delivers(next, g) then 0 else if JournalsDelivery(st, e) then n + 1 else n)
  {
    if !e.Acts? && !e.Faults? {
      OnlyEffectsSave(st, e);
    } else if st.running.Some? && st.running.value.effects != [] && st.running.value.effects[0].Save? {
      EffectSaves(st);
    }
  }

  lemma {:induction false} RunTried(st: State, events: seq<Event>, g: nat, n: nat)
    requires Inv(st) && Tried(st, g, n)
    ensures Tried(Run(st, events), g, Fires(st, events, g, n))
    decreases |events|
  {
    if events != [] {
      var next := Step(st, events[0]);
      StepTried(st, events[0], g, n);
      StepOk(st, events[0]);
      RunTried(next, events[1..], g,
        if !Delivers(next, g) then 0 else if JournalsDelivery(st, events[0]) then n + 1 else n);
    }
  }

  /** In every run the journaled `retryCount` of a generation is the number of its fires so far, up to the cap. */
  lemma RetriesCount(events: seq<Event>, g: nat)
    ensures Tried(Run(INITIAL, events), g, Fires(INITIAL, events, g, 0))
  {
    RunTried(INITIAL, events, g, 0);
  }
}

/** `BrowserAlarmCoordinator` itself, with the store and the physical alarm it is given. */
module AlarmCoordinator {
  import opened Prelude
  import opened AlarmModel
  import opened AlarmTheorems

  class BrowserAlarmCoordinator {
    var journal: Option<Journal>
    var physical: Option<int>
    var now: int
    var tail: seq<Op>
    var running: Option<Running>
    var activeDeliveries: set<nat>
    var calls: seq<nat>
    var repaired: bool

    ghost function Model(): State
      reads this
    {
      State(journal, physical, now, tail, running, activeDeliveries, calls, repaired)
    }

    ghost predicate Valid()
      reads this
    {
      Inv(Model())
    }

    constructor ()
      ensures Valid() && Model() == INITIAL
    {
      journal, physical, now, tail, running := None, None, 0, [], None;
      activeDeliveries, calls, repaired := {}, [], false;
    }

    /** `#mutate`: an operation joins the queue's end. */
    method Mutate(op: Op)
      requires Valid() && !op.Acknowledge?
      modifies this`tail
      ensures Model() == Submit(old(Model()), op) && Valid()
    {
      ghost var e := match op
        case Project(p) => HostProjects(p)
        case Reconcile => HostReconciles
        case Fire(t) => HostFires(t)
        case Acknowledge(_, _) => HostReconciles;
      StepOk(Model(), e);
      tail := tail + [op];
    }

    method ProjectBody(projection: Projection) returns (plan: Running)
      ensures plan == Plan(Project(projection), journal, now)
    {
      var op := Project(projection);
      if journal.Some? && projection.generation < journal.value.projection.generation {
        return Running(op, [], Return);
      }
      if journal.Some? && journal.value.delivery.Some? {
        // Only the acknowledgement drops the delivery, so its recovery wake stays armed.
        if projection.generation != journal.value.projection.generation
          || projection.when != journal.value.projection.when {
          return Running(op, [Save(Journal(journal.value.delivery, projection))], Return);
        }
        return Running(op, [], Return);
      }
      return Running(op, [Save(Journal(None, projection)), Apply(projection.when)], Return);
    }

    method ReconcileBody() returns (plan: Running)
      ensures plan == Plan(Reconcile, journal, now)
    {
      if journal.None? { return Running(Reconcile, [], Return); }
      if journal.value.delivery.Some? {
        var wake := journal.value.delivery.value.wake;
        return Running(Reconcile, [Arm(if wake < now then now else wake)], Return);
      }
      return Running(Reconcile, [Apply(journal.value.projection.when)], Return);
    }

    method FireBody(scheduledTime: int) returns (plan: Running)
      ensures plan == Plan(Fire(scheduledTime), journal, now)
    {
      var op := Fire(scheduledTime);
      var current := Journal(None, Projection(0, Some(scheduledTime)));
      if journal.Some? { current := journal.value; }
      var expectedWake := current.projection.when;
      if current.delivery.Some? { expectedWake := Some(current.delivery.value.wake); }
      if expectedWake.None? { return Running(op, [], Return); }
      if scheduledTime < expectedWake.value {
        // Fired before its time: the one-shot is gone, the wake is still owed.
        return Running(op, [Arm(expectedWake.value)], Return);
      }
      var retryCount := 0;
      if current.delivery.Some? && current.delivery.value.generation == current.projection.generation {
        retryCount := current.delivery.value.retryCount;
      }
      var tries := Min(retryCount, ALARM_RETRY_MAX_TRIES - 1);
      var wake := now + AlarmRetryDelayMs(tries);
      var delivery := Delivery(current.projection.generation, Min(retryCount + 1, ALARM_RETRY_MAX_TRIES), wake);
      // In this order, because a crash after the first effect still leaves a wake to come back for.
      return Running(op, [Arm(wake), Save(current.(delivery := Some(delivery)))], StartDelivery(delivery.generation));
    }

    method AcknowledgeBody(generation: nat, projection: Projection) returns (plan: Running)
      ensures plan == Plan(Acknowledge(generation, projection), journal, now)
    {
      var op := Acknowledge(generation, projection);
      if journal.Some? && projection.generation < journal.value.projection.generation {
        return Running(op, [], EndDelivery(generation));
      }
      return Running(op, [Save(Journal(None, projection)), Apply(projection.when)], EndDelivery(generation));
    }

    /** The next operation starts, and its `load()` returns. */
    method StartNext()
      requires Valid()
      modifies this`tail, this`running
      ensures Model() == Load(old(Model())) && Valid()
    {
      StepOk(Model(), Loads);
      if running.Some? || |tail| == 0 { return; }
      var op := tail[0];
      tail := tail[1..];
      var plan;
      match op {
        case Project(p) => plan := ProjectBody(p);
        case Reconcile => plan := ReconcileBody();
        case Fire(t) => plan := FireBody(t);
        case Acknowledge(g, p) => plan := AcknowledgeBody(g, p);
      }
      running := Some(plan);
    }

    method Perform(effect: Effect)
      modifies this`journal, this`physical
      ensures Model() == Effected(old(Model()), effect)
    {
      match effect
      case Save(saved) => journal := Some(saved);
      case Arm(when) => physical := Some(when);
      case ClearAlarm => physical := None;
    }

    /** The running operation's next awaited effect takes place. */
    method PerformNext()
      requires Valid()
      modifies this`journal, this`physical, this`running
      ensures Model() == Act(old(Model())) && Valid()
    {
      StepOk(Model(), Acts);
      if running.None? || |running.value.effects| == 0 { return; }
      var effects := running.value.effects;
      Perform(effects[0]);
      running := Some(running.value.(effects := effects[1..]));
    }

    method EndWith(ending: Ending)
      modifies this`activeDeliveries, this`calls
      ensures Model() == Ended(old(Model()), ending)
    {
      match ending
      case Return =>
      case StartDelivery(g) =>
        if g in activeDeliveries { return; }
        activeDeliveries := activeDeliveries + {g};
        calls := calls + [g];
      case EndDelivery(g) => activeDeliveries := activeDeliveries - {g};
    }

    method FinishOperation()
      requires Valid()
      modifies this`running, this`repaired, this`activeDeliveries, this`calls
      ensures Model() == Finish(old(Model())) && Valid()
    {
      StepOk(Model(), Finishes);
      if running.None? || |running.value.effects| != 0 { return; }
      var ended := running.value;
      running := None;
      if ended.op.Reconcile? { repaired := true; }
      EndWith(ended.ending);
    }

    method FailOperation(took: bool)
      requires Valid()
      modifies this
      ensures Model() == Fault(old(Model()), took) && Valid()
    {
      StepOk(Model(), Faults(took));
      if running.None? { return; }
      var failed := running.value;
      if took && |failed.effects| > 0 { Perform(failed.effects[0]); }
      running := None;
      repaired := false;
      if failed.ending.EndDelivery? { EndWith(failed.ending); }
    }

    method OnAlarm()
      requires Valid()
      modifies this`physical, this`tail
      ensures Model() == AlarmFires(old(Model())) && Valid()
    {
      StepOk(Model(), BrowserFires);
      if physical.None? || physical.value > now { return; }
      var scheduledTime := physical.value;
      physical := None;
      tail := tail + [Fire(scheduledTime)];
    }

    method OnDelivered(i: nat, result: Option<Projection>)
      requires Valid() && i < |calls|
      modifies this`calls, this`tail, this`activeDeliveries
      ensures Model() == DeliverReturns(old(Model()), i, result) && Valid()
    {
      StepOk(Model(), Delivered(i, result));
      var generation := calls[i];
      calls := calls[..i] + calls[i + 1..];
      if result.Some? {
        tail := tail + [Acknowledge(generation, result.value)];
      } else {
        activeDeliveries := activeDeliveries - {generation};
      }
    }

    /** The browser stops the worker and starts it again: only the store and the alarm remain. */
    method Restart()
      requires Valid()
      modifies this
      ensures Model() == Crash(old(Model())) && Valid()
    {
      StepOk(Model(), Crashes);
      tail, running, activeDeliveries, calls, repaired := [], None, {}, [], false;
    }

    method Tick(elapsed: nat)
      requires Valid()
      modifies this`now
      ensures Model() == old(Model()).(now := old(now) + elapsed) && Valid()
    {
      StepOk(Model(), Ticks(elapsed));
      now := now + elapsed;
    }
  }
}
