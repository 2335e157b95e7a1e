/** What becomes of a rewritten await: published, rejected or scheduled, and in which case which. */
module GateOutcomes {
  import opened Prelude
  import opened GateModel
  import opened GateTheorems

  /** The await's actor holds a lock of the section the await was made in. */
  predicate LockHeld(s: State, which: nat) {
    which < |s.awaits| && HasCurrent(s, s.awaits[which].context)
    && CurrentSection(s, s.awaits[which].context) == s.awaits[which].section
  }

  /** The outcome reaches its actor: under the lock that is still held, or in an admitted slice. */
  predicate ReachesActor(s: State, event: Event, which: nat) {
    Publishes(s, event, which) && which < |s.awaits| && (event.PromiseSettled? ==> LockHeld(s, which))
  }

  /** The await is over, and nothing more is scheduled for it. */
  predicate SettledNow(s: State, t: State, which: nat) {
    t.settled == s.settled + [which] && Scheduled(t.tasks, which) == 0 && which !in t.waiting
  }

  /** A published outcome waits to resume under the current publication; a step of a loop has resumed. */
  predicate PublishedNow(s: State, t: State, which: nat) {
    which < |s.awaits| &&
    var made := s.awaits[which];
    if made.steps then
      t.unresumed == s.unresumed && CurrentContinuation(t) == Some(made.context)
    else
      && which in t.unresumed && t.unresumed[which].context == made.context
      && t.publication == Some(t.unresumed[which])
      && t.unresumed == s.unresumed[which := t.unresumed[which]]
  }

  // ---------- A retained lock is one of the await's own section

  ghost predicate OwnSections(s: State) {
    && (forall t :: t in s.tasks ==> t.which < |s.awaits|)
    && (forall t :: t in s.tasks && t.Retained? ==> t.lock.section == s.awaits[t.which].section)
  }

  lemma SettleKeepsSections(s: State, which: nat)
    requires OwnSections(s) && which < |s.awaits|
    ensures OwnSections(Settle(s, which))
  {
  }

  lemma TaskKeepsSections(s: State, event: Event)
    requires Known(s) && Enabled(s, event) && event.RunTask? && OwnSections(s)
    ensures OwnSections(Step(s, event))
  {
    var task := s.tasks[event.index];
    assert task in s.tasks;
    var context := s.awaits[task.which].context;
    assert s.awaits[task.which] in s.awaits;
    var taken := s.(tasks := s.tasks[..event.index] + s.tasks[event.index + 1..]);
    assert OwnSections(taken);
    if event.admitted && context !in s.aborted && task.Retained? {
      SettleKeepsSections(EnterSlice(taken, context, task.lock), task.which);
    }
  }

  lemma StepKeepsSections(s: State, event: Event)
    requires Known(s) && Enabled(s, event) && OwnSections(s)
    ensures OwnSections(Step(s, event))
  {
    match event
    case RunTask(_, _) => TaskKeepsSections(s, event);
    case PromiseSettled(which) => SettleKeepsSections(s.(waiting := s.waiting - {which}), which);
    case CheckpointEnd => CallbacksOnlyClear(s.(pending := []), s.pending);
    case _ =>
  }

  lemma {:induction false} RunKeepsSections(s: State, events: seq<Event>)
    requires Known(s) && Possible(s, events) && OwnSections(s)
    ensures OwnSections(Run(s, events))
    decreases |events|
  {
    if events != [] {
      StepKeepsSections(s, events[0]);
      StepKeepsKnown(s, events[0]);
      RunKeepsSections(Step(s, events[0]), events[1..]);
    }
  }

  // ---------- One step

  /** A slice of the await's own actor takes nothing from the checkpoint's owner. */
  lemma EnteringIsNotRefused(s: State, context: nat, lock: Lock)
    requires context in s.locks && !Refused(s, context)
    ensures !Refused(EnterSlice(s, context, lock), context)
  {
  }

  lemma SettlePublishes(s: State, which: nat)
    requires LockHeld(s, which) && s.awaits[which].context !in s.aborted && !Refused(s, s.awaits[which].context)
    ensures var t := Settle(s, which);
      t.tasks == s.tasks && t.settled == s.settled + [which] && t.waiting == s.waiting && PublishedNow(s, t, which)
  {
  }

  lemma TryPublishes(s: State, which: nat)
    requires which < |s.awaits| && !Refused(s, s.awaits[which].context) && HasCurrent(s, s.awaits[which].context)
    ensures var t := TryPublish(s, which);
      t.tasks == s.tasks && t.settled == s.settled + [which] && t.waiting == s.waiting && PublishedNow(s, t, which)
  {
  }

  lemma AdmittedPublishes(s: State, task: Task)
    requires task.which < |s.awaits| && s.awaits[task.which].context in s.locks
    requires task.Retained? ==> task.lock.section == s.awaits[task.which].section
    requires s.awaits[task.which].context !in s.aborted && !Refused(s, s.awaits[task.which].context)
    ensures var t := RunAdmitted(s, task);
      && t.tasks == s.tasks && t.settled == s.settled + [task.which] && t.waiting == s.waiting
      && PublishedNow(s, t, task.which)
  {
    hide Settle, TryPublish;
    var made := s.awaits[task.which];
    match task
    case Publish(which) =>
      var entered := EnterSlice(s, made.context, NewLock(s, made.section)).(nextId := s.nextId + 1);
      EnteringIsNotRefused(s, made.context, NewLock(s, made.section));
      assert !Refused(entered, made.context);
      TryPublishes(entered, which);
    case Retained(which, lock) =>
      EnteringIsNotRefused(s, made.context, lock);
      SettlePublishes(EnterSlice(s, made.context, lock), which);
  }

  lemma TaskPublishes(s: State, event: Event, which: nat)
    requires Known(s) && OwnSections(s) && Enabled(s, event) && event.RunTask? && ReachesActor(s, event, which)
    requires s.awaits[which].context !in s.aborted && !Refused(s, s.awaits[which].context)
    ensures var t := Step(s, event);
      t.settled == s.settled + [which] && PublishedNow(s, t, which)
  {
    var task := s.tasks[event.index];
    assert task in s.tasks;
    assert s.awaits[task.which] in s.awaits;
    hide RunAdmitted;
    AdmittedPublishes(s.(tasks := s.tasks[..event.index] + s.tasks[event.index + 1..]), task);
  }

  lemma {:induction false} SettledIsCounted(settled: seq<nat>, which: nat)
    ensures Settlements(settled + [which], which) >= 1
  {
    SettlementsAppend(settled, [which], which);
    OneSettlement(which, which);
  }

  /** An await settled once is in no other place. */
  lemma SettledLeaves(s: State, t: State, which: nat)
    requires Places(t, which) == 1 && t.settled == s.settled + [which]
    ensures SettledNow(s, t, which)
  {
    SettledIsCounted(s.settled, which);
  }

  lemma PromisePublishes(s: State, which: nat)
    requires Known(s) && which in s.waiting && LockHeld(s, which)
    requires s.awaits[which].context !in s.aborted && !Refused(s, s.awaits[which].context)
    ensures var t := Step(s, PromiseSettled(which));
      t.settled == s.settled + [which] && PublishedNow(s, t, which)
  {
    var taken := s.(waiting := s.waiting - {which});
    assert LockHeld(taken, which) && !Refused(taken, s.awaits[which].context);
    SettlePublishes(taken, which);
    hide Settle;
  }

  // ---------- Theorems

  /**
   * An outcome that reaches its actor while no other actor owns the checkpoint is published: it is
   * settled then and there, nothing more is scheduled for it, and it waits to resume under the current
   * publication, or, as a step of a loop, has made its actor the current one.
   */
  lemma UnrefusedIsPublished(events: seq<Event>, event: Event, which: nat)
    requires Possible(INITIAL, events) && Enabled(Run(INITIAL, events), event)
    requires var s := Run(INITIAL, events);
      && ReachesActor(s, event, which)
      && s.awaits[which].context !in s.aborted && !Refused(s, s.awaits[which].context)
    ensures var s := Run(INITIAL, events); var t := Step(s, event);
      SettledNow(s, t, which) && PublishedNow(s, t, which)
  {
    var s := Run(INITIAL, events);
    RunKeepsSections(INITIAL, events);
    RunPlaces(INITIAL, events, which);
    StepPlaces(s, event, which);
    SameAwaits(s, event);
    if event.RunTask? {
      TaskPublishes(s, event, which);
    } else {
      PromisePublishes(s, which);
    }
    hide Step;
    SettledLeaves(s, Step(s, event), which);
  }

  lemma SameAwaits(s: State, event: Event)
    requires Known(s) && Enabled(s, event) && (event.RunTask? || event.PromiseSettled?)
    ensures Step(s, event).awaits == s.awaits
  {
    if event.RunTask? {
      RunTaskPlaces(s, event, 0);
    } else {
      SettlesOrSchedules(s.(waiting := s.waiting - {event.which}), event.which);
    }
  }

  /** The await's actor is gone: it aborted, or the slice a publication asked for was not admitted. */
  predicate Fails(s: State, event: Event, which: nat) {
    match event
    case PromiseSettled(of) => of == which && LockHeld(s, which) && s.awaits[which].context in s.aborted
    case RunTask(index, admitted) =>
      && index < |s.tasks| && s.tasks[index].which == which && which < |s.awaits|
      && (!admitted || s.awaits[which].context in s.aborted)
    case _ => false
  }

  /** An await whose actor is gone is rejected, and takes nothing from the checkpoint. */
  lemma GoneActorRejects(events: seq<Event>, event: Event, which: nat)
    requires Possible(INITIAL, events) && Enabled(Run(INITIAL, events), event)
    requires Fails(Run(INITIAL, events), event, which)
    ensures var s := Run(INITIAL, events); var t := Step(s, event);
      && SettledNow(s, t, which)
      && t.unresumed == s.unresumed && t.publication == s.publication && t.continuation == s.continuation
      && t.locks == s.locks
  {
    var s := Run(INITIAL, events);
    RunPlaces(INITIAL, events, which);
    StepPlaces(s, event, which);
    SameAwaits(s, event);
    SettledLeaves(s, Step(s, event), which);
  }

  /** Without a lock of its own section an outcome is scheduled, once, for a slice of its own. */
  lemma UnheldIsScheduled(events: seq<Event>, which: nat)
    requires Possible(INITIAL, events) && which in Run(INITIAL, events).waiting
    requires !LockHeld(Run(INITIAL, events), which)
    ensures var s := Run(INITIAL, events); var t := Step(s, PromiseSettled(which));
      && t == s.(waiting := s.waiting - {which}, tasks := s.tasks + [Publish(which)])
      && Scheduled(t.tasks, which) == 1
  {
    var s := Run(INITIAL, events);
    RunPlaces(INITIAL, events, which);
    StepPlaces(s, PromiseSettled(which), which);
    SameAwaits(s, PromiseSettled(which));
    UnheldSettles(s.(waiting := s.waiting - {which}), which);
    assert Settlements(s.settled, which) == 0;
  }

  lemma UnheldSettles(s: State, which: nat)
    requires which < |s.awaits| && !LockHeld(s, which)
    ensures Settle(s, which) == s.(tasks := s.tasks + [Publish(which)])
  {
  }

  /** A publication scheduled before a checkpoint's end is not refused when its slice is the next to run. */
  lemma NextAfterCheckpointPublishes(events: seq<Event>, index: nat)
    requires Possible(INITIAL, events) && Enabled(Run(INITIAL, events), CheckpointEnd)
    requires var s := Run(INITIAL, events);
      index < |s.tasks| && s.tasks[index].which < |s.awaits|
      && s.awaits[s.tasks[index].which].context !in s.aborted
    ensures var s := Run(INITIAL, events); var ended := Step(s, CheckpointEnd); var which := s.tasks[index].which;
      && Known(ended) && Enabled(ended, RunTask(index, true))
      && var t := Step(ended, RunTask(index, true));
      SettledNow(ended, t, which) && PublishedNow(ended, t, which)
  {
    var s := Run(INITIAL, events);
    var which := s.tasks[index].which;
    StepKeepsKnown(s, CheckpointEnd);
    RunMore(INITIAL, events, CheckpointEnd);
    var longer := events + [CheckpointEnd];
    var ended := Run(INITIAL, longer);
    CallbacksOnlyClear(s.(pending := []), s.pending);
    UnownedRefusesNobody(events, s.awaits[which].context);
    UnrefusedIsPublished(longer, RunTask(index, true), which);
  }

  lemma UnownedRefusesNobody(events: seq<Event>, context: nat)
    requires Possible(INITIAL, events) && Enabled(Run(INITIAL, events), CheckpointEnd)
    ensures !Refused(Step(Run(INITIAL, events), CheckpointEnd), context)
  {
    RunMore(INITIAL, events, CheckpointEnd);
    hide Refused, Owns;
    forall other ensures !Owns(Step(Run(INITIAL, events), CheckpointEnd), other) {
      CheckpointEndsUnowned(events, other);
    }
    RefusedOnlyByTheOwner(events + [CheckpointEnd], context);
  }

  lemma {:induction false} RunMore(s: State, events: seq<Event>, event: Event)
    requires Known(s) && Possible(s, events) && Enabled(Run(s, events), event)
    ensures Possible(s, events + [event]) && Run(s, events + [event]) == Step(Run(s, events), event)
    decreases |events|
  {
    hide Step, Enabled;
    if events == [] {
      StepKeepsKnown(s, event);
      assert [event][1..] == [];
      assert events + [event] == [event];
    } else {
      StepKeepsKnown(s, events[0]);
      assert (events + [event])[1..] == events[1..] + [event];
      RunMore(Step(s, events[0]), events[1..], event);
    }
  }

  /**
   * The whole way of an await whose promise settles under the lock: made by the current actor, settled
   * while no other actor owns the checkpoint, and resumed as that actor.
   */
  lemma AwaitComesBack(events: seq<Event>, context: nat)
    requires Possible(INITIAL, events) && HasCurrent(Run(INITIAL, events), context)
    requires context !in Run(INITIAL, events).aborted && !Refused(Run(INITIAL, events), context)
    ensures var which := |Run(INITIAL, events).awaits|;
      var whole := events + [GateAwait(context, false)] + [PromiseSettled(which)] + [Resume(which)];
      && Possible(INITIAL, whole)
      && var t := Run(INITIAL, whole);
      && CurrentContinuation(t) == Some(context)
      && t.settled == Run(INITIAL, events).settled + [which] && which !in t.unresumed && which !in t.waiting
  {
    hide Run, Possible, Step;
    var which := |Run(INITIAL, events).awaits|;
    AwaitIsMade(events, context, false);
    var made := events + [GateAwait(context, false)];
    UnrefusedIsPublished(made, PromiseSettled(which), which);
    RunMore(INITIAL, made, PromiseSettled(which));
    var settled := made + [PromiseSettled(which)];
    SameAwaits(Run(INITIAL, made), PromiseSettled(which));
    ResumesAsItsActor(settled, which);
    RunMore(INITIAL, settled, Resume(which));
    ResumeTakes(Run(INITIAL, settled), which);
  }

  /** Awaiting inside an actor makes an await of its current section that waits for its promise. */
  lemma AwaitIsMade(events: seq<Event>, context: nat, steps: bool)
    requires Possible(INITIAL, events) && HasCurrent(Run(INITIAL, events), context)
    ensures var s := Run(INITIAL, events); var made := events + [GateAwait(context, steps)]; var which := |s.awaits|;
      && Possible(INITIAL, made)
      && var t := Run(INITIAL, made);
      && t.awaits == s.awaits + [Await(context, CurrentSection(s, context), steps)]
      && which in t.waiting && LockHeld(t, which)
      && t.settled == s.settled && t.aborted == s.aborted
      && (forall other :: Refused(t, other) <==> Refused(s, other))
  {
    RunMore(INITIAL, events, GateAwait(context, steps));
    hide Run, Possible;
  }

  lemma ResumeTakes(s: State, which: nat)
    requires Known(s) && which in s.unresumed
    ensures var t := Step(s, Resume(which));
      which !in t.unresumed && t.settled == s.settled && t.waiting == s.waiting
  {
  }

  // ---------- Locks

  function Due(callback: Callback, context: nat): multiset<Lock> {
    if callback.Exit? && callback.context == context then multiset{callback.lock} else multiset{}
  }

  /** The locks whose exit is due, of one context. */
  function DueExits(pending: seq<Callback>, context: nat): multiset<Lock> {
    if pending == [] then multiset{} else Due(pending[0], context) + DueExits(pending[1..], context)
  }

  /** Each lock held is due to be left at the checkpoint's end. */
  ghost predicate HeldUntilEnd(s: State) {
    forall c :: c in s.locks ==> multiset(s.locks[c]) <= DueExits(s.pending, c)
  }

  lemma {:induction false} DueAppend(pending: seq<Callback>, callback: Callback, context: nat)
    ensures DueExits(pending + [callback], context) == DueExits(pending, context) + Due(callback, context)
  {
    hide Due;
    var all := pending + [callback];
    if pending == [] {
      assert all[1..] == [];
      assert DueExits(all[1..], context) == multiset{};
    } else {
      DueAppend(pending[1..], callback, context);
      assert all[1..] == pending[1..] + [callback];
    }
  }

  lemma {:induction false} WithoutOne(locks: seq<Lock>, lock: Lock)
    ensures multiset(WithoutLock(locks, lock)) == multiset(locks) - multiset{lock}
  {
    if locks != [] {
      var before, last := locks[..|locks| - 1], locks[|locks| - 1];
      assert locks == before + [last];
      if last != lock { WithoutOne(before, lock); }
    }
  }

  lemma {:induction false} ExitsRelease(s: State, batch: seq<Callback>)
    requires forall c :: c in s.locks ==> multiset(s.locks[c]) <= DueExits(batch, c)
    ensures var t := RunCallbacks(s, batch); t.locks.Keys == s.locks.Keys && forall c :: c in t.locks ==> t.locks[c] == []
    decreases |batch|
  {
    if batch == [] {
      forall c | c in s.locks ensures s.locks[c] == [] {
        assert |multiset(s.locks[c])| == |s.locks[c]|;
      }
    } else {
      var next := RunCallback(s, batch[0]);
      CallbackReleases(s, batch[0]);
      hide RunCallback, Due;
      forall c | c in next.locks ensures multiset(next.locks[c]) <= DueExits(batch[1..], c) {
        assert DueExits(batch, c) == Due(batch[0], c) + DueExits(batch[1..], c);
        assert multiset(next.locks[c]) == multiset(s.locks[c]) - Due(batch[0], c);
      }
      ExitsRelease(next, batch[1..]);
    }
  }

  lemma CallbackReleases(s: State, callback: Callback)
    ensures var t := RunCallback(s, callback);
      t.locks.Keys == s.locks.Keys
      && forall c :: c in s.locks ==> multiset(t.locks[c]) == multiset(s.locks[c]) - Due(callback, c)
  {
    if callback.Exit? && callback.context in s.locks { WithoutOne(s.locks[callback.context], callback.lock); }
    hide WithoutLock;
  }

  lemma SameHolds(s: State, t: State)
    requires HeldUntilEnd(s) && t.locks == s.locks && t.pending == s.pending
    ensures HeldUntilEnd(t)
  {
  }

  lemma EnterHolds(s: State, context: nat, lock: Lock)
    requires HeldUntilEnd(s) && context in s.locks
    ensures HeldUntilEnd(EnterSlice(s, context, lock))
  {
    var t := EnterSlice(s, context, lock);
    forall c | c in t.locks ensures multiset(t.locks[c]) <= DueExits(t.pending, c) {
      DueAppend(s.pending, Exit(context, lock), c);
    }
  }

  /** Claims queue their own callbacks and touch no lock. */
  lemma ClaimHolds(s: State, t: State)
    requires HeldUntilEnd(s) && t.locks == s.locks && Claims(s.pending, t.pending)
    ensures HeldUntilEnd(t)
  {
    forall c | c in t.locks ensures multiset(t.locks[c]) <= DueExits(t.pending, c) {
      ClaimsKeepExits(s.pending, t.pending, c);
    }
  }

  /** At most two callbacks more, neither an exit. */
  predicate Claims(before: seq<Callback>, after: seq<Callback>) {
    && |before| <= |after| <= |before| + 2 && after[..|before|] == before
    && forall i :: |before| <= i < |after| ==> !after[i].Exit?
  }

  lemma {:induction false} ClaimsKeepExits(before: seq<Callback>, after: seq<Callback>, context: nat)
    requires Claims(before, after)
    ensures DueExits(after, context) == DueExits(before, context)
    decreases |after|
  {
    hide DueExits;
    if |after| == |before| {
      assert after == before;
    } else {
      var fewer, last := after[..|after| - 1], after[|after| - 1];
      assert fewer[..|before|] == before;
      assert after == fewer + [last];
      ClaimsKeepExits(before, fewer, context);
      DueAppend(fewer, last, context);
    }
  }

  lemma FinishClaims(s: State, which: nat)
    requires which < |s.awaits|
    ensures Finish(s, which).locks == s.locks && Claims(s.pending, Finish(s, which).pending)
  {
  }

  lemma SettleHolds(s: State, which: nat)
    requires HeldUntilEnd(s) && which < |s.awaits|
    ensures HeldUntilEnd(Settle(s, which))
  {
    hide HeldUntilEnd, Finish, Refused;
    FinishClaims(s, which);
    ClaimHolds(s, Settle(s, which));
  }

  lemma TryPublishHolds(s: State, which: nat)
    requires HeldUntilEnd(s) && which < |s.awaits|
    ensures HeldUntilEnd(TryPublish(s, which))
  {
    hide HeldUntilEnd, Finish, Refused;
    FinishClaims(s, which);
    ClaimHolds(s, TryPublish(s, which));
  }

  lemma TaskHolds(s: State, event: Event)
    requires Known(s) && Enabled(s, event) && event.RunTask? && HeldUntilEnd(s)
    ensures HeldUntilEnd(Step(s, event))
  {
    var task := s.tasks[event.index];
    assert task in s.tasks && s.awaits[task.which] in s.awaits;
    var taken := s.(tasks := s.tasks[..event.index] + s.tasks[event.index + 1..]);
    var made := s.awaits[task.which];
    SameHolds(s, taken);
    if event.admitted && made.context !in s.aborted {
      AdmittedHolds(taken, task);
    } else {
      SameHolds(s, Step(s, event));
    }
    hide RunAdmitted, HeldUntilEnd;
  }

  lemma AdmittedHolds(s: State, task: Task)
    requires HeldUntilEnd(s) && task.which < |s.awaits| && s.awaits[task.which].context in s.locks
    ensures HeldUntilEnd(RunAdmitted(s, task))
  {
    hide Settle, TryPublish, HeldUntilEnd;
    var made := s.awaits[task.which];
    match task
    case Publish(which) =>
      var entered := EnterSlice(s, made.context, NewLock(s, made.section));
      EnterHolds(s, made.context, NewLock(s, made.section));
      SameHolds(entered, entered.(nextId := s.nextId + 1));
      TryPublishHolds(entered.(nextId := s.nextId + 1), which);
    case Retained(which, lock) =>
      EnterHolds(s, made.context, lock);
      SettleHolds(EnterSlice(s, made.context, lock), which);
  }

  lemma CreateHolds(s: State, context: nat)
    requires HeldUntilEnd(s) && context !in s.locks
    ensures HeldUntilEnd(s.(locks := s.locks[context := []]))
  {
  }

  lemma EndHolds(s: State)
    requires HeldUntilEnd(s)
    ensures HeldUntilEnd(RunCallbacks(s.(pending := []), s.pending))
  {
    ExitsRelease(s.(pending := []), s.pending);
    hide RunCallbacks;
  }

  lemma StepHolds(s: State, event: Event)
    requires Known(s) && Enabled(s, event) && HeldUntilEnd(s)
    ensures HeldUntilEnd(Step(s, event))
  {
    hide HeldUntilEnd, Settle, RunCallbacks, RunAdmitted;
    match event {
      case RunTask(_, _) => TaskHolds(s, event);
      case PromiseSettled(which) =>
        SameHolds(s, s.(waiting := s.waiting - {which}));
        SettleHolds(s.(waiting := s.waiting - {which}), which);
      case Enter(context, section) =>
        EnterHolds(s, context, NewLock(s, section));
        SameHolds(EnterSlice(s, context, NewLock(s, section)), Step(s, event));
      case CheckpointEnd => EndHolds(s);
      case Resume(_) => ClaimHolds(s, Step(s, event));
      case Create(context) => CreateHolds(s, context);
      case _ => SameHolds(s, Step(s, event));
    }
  }

  lemma {:induction false} RunHolds(s: State, events: seq<Event>)
    requires Known(s) && Possible(s, events) && HeldUntilEnd(s)
    ensures HeldUntilEnd(Run(s, events))
    decreases |events|
  {
    hide HeldUntilEnd, Step, Enabled;
    if events != [] {
      StepHolds(s, events[0]);
      StepKeepsKnown(s, events[0]);
      RunHolds(Step(s, events[0]), events[1..]);
    }
  }

  /** A checkpoint's end leaves no actor a lock, and everything else but the claims as it was. */
  lemma CheckpointReleasesLocks(events: seq<Event>)
    requires Possible(INITIAL, events) && Enabled(Run(INITIAL, events), CheckpointEnd)
    ensures var s := Run(INITIAL, events); var t := Step(s, CheckpointEnd);
      && t.locks.Keys == s.locks.Keys && (forall c :: c in t.locks ==> t.locks[c] == [])
      && t.tasks == s.tasks && t.waiting == s.waiting && t.settled == s.settled && t.pending == []
  {
    RunHolds(INITIAL, events);
    var s := Run(INITIAL, events);
    hide Run;
    ExitsRelease(s.(pending := []), s.pending);
    CallbacksOnlyClear(s.(pending := []), s.pending);
    hide RunCallbacks;
  }

  /** An admitted slice holds a lock of its section, and an aborted actor stays aborted. */
  lemma SliceHoldsItsLock(events: seq<Event>, context: nat, section: nat)
    requires Possible(INITIAL, events) && context in Run(INITIAL, events).locks
    ensures var s := Run(INITIAL, events);
      && var entered := Step(s, Enter(context, section));
      && HasCurrent(entered, context) && CurrentSection(entered, context) == section
      && Step(s, Abort(context)) == s.(aborted := s.aborted + {context})
  {
    hide Run;
  }

  /** A new actor holds no lock until a slice of it begins. */
  lemma NewActorHoldsNothing(events: seq<Event>, context: nat, section: nat)
    requires Possible(INITIAL, events) && context !in Run(INITIAL, events).locks
    ensures var s := Run(INITIAL, events); var t := Step(s, Create(context));
      && t == s.(locks := s.locks[context := []])
      && !HasCurrent(t, context) && Enabled(t, Enter(context, section))
  {
    hide Run;
  }
}
