/**
 * The protocol of `src/gate.ts` by which actors of one realm take turns at a checkpoint. Of an
 * actor's context only what the protocol asks is kept: which input locks it holds and in which
 * critical section, and whether it aborted. A step is what runs without giving up the thread.
 */
module GateModel {
  import opened Prelude

  datatype Lock = Lock(id: nat, section: nat)

  /** A reservation, or a continuation's ambient: each is an object compared by identity. */
  datatype Claim = Claim(id: nat, context: nat)

  /** What `atCheckpointEnd` queues. */
  datatype Callback =
    | ClearPublication(id: nat)
    | ClearContinuation(id: nat)
    | Exit(context: nat, lock: Lock)

  /** `steps` of a `for await` restore their actor as they publish; other awaits when they resume. */
  datatype Await = Await(context: nat, section: nat, steps: bool)

  /** A scheduled publication: a fresh slice of the captured section, or the retained lock. */
  datatype Task = Publish(which: nat) | Retained(which: nat, lock: Lock)

  datatype State = State(
    locks: map<nat, seq<Lock>>,      // of the contexts there are, newest last
    aborted: set<nat>,
    publication: Option<Claim>,
    continuation: Option<Claim>,
    pending: seq<Callback>,
    awaits: seq<Await>,
    waiting: set<nat>,               // awaits whose promise has not settled
    tasks: seq<Task>,
    unresumed: map<nat, Claim>,      // published outcomes and their reservations
    settled: seq<nat>,               // awaits whose result was resolved or rejected, in order
    nextId: nat)

  const INITIAL := State(map[], {}, None, None, [], [], {}, [], map[], [], 0)

  datatype Event =
    | Create(context: nat)
    | Enter(context: nat, section: nat)
    | Abort(context: nat)
    | GateAwait(context: nat, steps: bool)
    | PromiseSettled(which: nat)
    | RunTask(index: nat, admitted: bool)
    | Resume(which: nat)
    | CheckpointEnd

  predicate HasCurrent(s: State, context: nat) {
    context in s.locks && s.locks[context] != []
  }

  function CurrentSection(s: State, context: nat): nat
    requires HasCurrent(s, context)
  {
    s.locks[context][|s.locks[context]| - 1].section
  }

  function CurrentContinuation(s: State): Option<nat> {
    if s.continuation.Some? && HasCurrent(s, s.continuation.value.context)
    then Some(s.continuation.value.context) else None
  }

  /** A slice of the context begins under a lock and leaves it at the checkpoint's end. */
  function EnterSlice(s: State, context: nat, lock: Lock): State
    requires context in s.locks
  {
    s.(locks := s.locks[context := s.locks[context] + [lock]], pending := s.pending + [Exit(context, lock)])
  }

  function NewLock(s: State, section: nat): Lock {
    Lock(s.nextId, section)
  }

  predicate Refused(s: State, context: nat) {
    || CurrentContinuation(s) !in {None, Some(context)}
    || (s.publication.Some? && s.publication.value.context != context)
  }

  /** `reservePublication`, once it is not refused. */
  function Reserve(s: State, context: nat): State {
    s.(publication := Some(Claim(s.nextId, context)),
       pending := s.pending + [ClearPublication(s.nextId)],
       nextId := s.nextId + 1)
  }

  function Unpublish(s: State, id: nat): State {
    if s.publication.Some? && s.publication.value.id == id then s.(publication := None) else s
  }

  function RestoreContinuation(s: State, context: nat): State {
    s.(continuation := Some(Claim(s.nextId, context)),
       pending := s.pending + [ClearContinuation(s.nextId)],
       nextId := s.nextId + 1)
  }

  /** `resolve(finish(outcome, reservation))` with the reservation just made. */
  function Finish(s: State, which: nat): State
    requires which < |s.awaits|
  {
    var await_ := s.awaits[which];
    var reserved := Reserve(s, await_.context);
    var done := reserved.(settled := s.settled + [which]);
    if await_.steps then RestoreContinuation(Unpublish(done, s.nextId), await_.context)
    else done.(unresumed := s.unresumed[which := Claim(s.nextId, await_.context)])
  }

  /** `settle(outcome)`, called as the promise settles and again in a slice under the retained lock. */
  function Settle(s: State, which: nat): State
    requires which < |s.awaits|
  {
    var await_ := s.awaits[which];
    if !HasCurrent(s, await_.context) || CurrentSection(s, await_.context) != await_.section
    then s.(tasks := s.tasks + [Publish(which)])
    else if await_.context in s.aborted then s.(settled := s.settled + [which])
    else if Refused(s, await_.context)
    then
      var held := s.locks[await_.context];
      s.(tasks := s.tasks + [Retained(which, held[|held| - 1])])
    else Finish(s, which)
  }

  /** `publish(outcome)`, inside the slice of its own. */
  function TryPublish(s: State, which: nat): State
    requires which < |s.awaits|
  {
    if Refused(s, s.awaits[which].context) then s.(tasks := s.tasks + [Publish(which)]) else Finish(s, which)
  }

  /** A scheduled publication whose slice was admitted; `s` no longer holds its task. */
  function RunAdmitted(s: State, task: Task): State
    requires task.which < |s.awaits| && s.awaits[task.which].context in s.locks
  {
    var await_ := s.awaits[task.which];
    match task
    case Publish(which) =>
      TryPublish(EnterSlice(s, await_.context, NewLock(s, await_.section)).(nextId := s.nextId + 1), which)
    case Retained(which, lock) =>
      Settle(EnterSlice(s, await_.context, lock), which)
  }

  function WithoutLock(locks: seq<Lock>, lock: Lock): seq<Lock> {
    if locks == [] then []
    else if locks[|locks| - 1] == lock then locks[..|locks| - 1]
    else WithoutLock(locks[..|locks| - 1], lock) + [locks[|locks| - 1]]
  }

  function RunCallback(s: State, callback: Callback): State {
    match callback
    case ClearPublication(id) => Unpublish(s, id)
    case ClearContinuation(id) =>
      if s.continuation.Some? && s.continuation.value.id == id then s.(continuation := None) else s
    case Exit(context, lock) =>
      if context in s.locks then s.(locks := s.locks[context := WithoutLock(s.locks[context], lock)]) else s
  }

  function RunCallbacks(s: State, batch: seq<Callback>): State
    decreases |batch|
  {
    if batch == [] then s else RunCallbacks(RunCallback(s, batch[0]), batch[1..])
  }

  predicate Enabled(s: State, event: Event) {
    match event
    case Create(context) => context !in s.locks
    case Enter(context, _) => context in s.locks
    case Abort(context) => context in s.locks
    case GateAwait(context, _) => HasCurrent(s, context)
    case PromiseSettled(which) => which in s.waiting
    case RunTask(index, _) => index < |s.tasks|
    case Resume(which) => which in s.unresumed
    // A published outcome resumes within the microtasks of its checkpoint.
    case CheckpointEnd => s.unresumed == map[]
  }

  /** Every await named in the state is one that was made, by a context there is. */
  predicate Known(s: State) {
    && (forall k :: k in s.waiting ==> k < |s.awaits|)
    && (forall k :: k in s.unresumed ==> k < |s.awaits| && s.unresumed[k].context == s.awaits[k].context)
    && (forall t :: t in s.tasks ==> t.which < |s.awaits|)
    && (forall a :: a in s.awaits ==> a.context in s.locks)
  }

  function Step(s: State, event: Event): State
    requires Known(s) && Enabled(s, event)
  {
    match event
    case Create(context) => s.(locks := s.locks[context := []])
    case Enter(context, section) => EnterSlice(s, context, NewLock(s, section)).(nextId := s.nextId + 1)
    case Abort(context) => s.(aborted := s.aborted + {context})
    case GateAwait(context, steps) =>
      s.(awaits := s.awaits + [Await(context, CurrentSection(s, context), steps)],
         waiting := s.waiting + {|s.awaits|})
    case PromiseSettled(which) => Settle(s.(waiting := s.waiting - {which}), which)
    case RunTask(index, admitted) =>
      var task := s.tasks[index];
      assert task in s.tasks;
      var taken := s.(tasks := s.tasks[..index] + s.tasks[index + 1..]);
      if admitted && s.awaits[task.which].context !in s.aborted
      then RunAdmitted(taken, task)
      else taken.(settled := s.settled + [task.which])
    case Resume(which) =>
      RestoreContinuation(
        Unpublish(s.(unresumed := s.unresumed - {which}), s.unresumed[which].id), s.unresumed[which].context)
    case CheckpointEnd => RunCallbacks(s.(pending := []), s.pending)
  }

  ghost predicate OnlyClears(s: State, t: State) {
    && t == s.(locks := t.locks, publication := t.publication, continuation := t.continuation)
    && t.locks.Keys == s.locks.Keys
    && t.publication in {s.publication, None} && t.continuation in {s.continuation, None}
  }

  lemma CallbackOnlyClears(s: State, callback: Callback)
    ensures OnlyClears(s, RunCallback(s, callback))
  {
  }

  /** A checkpoint's end clears claims and releases locks, and does nothing else. */
  lemma {:induction false} CallbacksOnlyClear(s: State, batch: seq<Callback>)
    ensures var t := RunCallbacks(s, batch);
      && OnlyClears(s, t)
      && (s.publication.Some? && ClearPublication(s.publication.value.id) in batch ==> t.publication.None?)
      && (s.continuation.Some? && ClearContinuation(s.continuation.value.id) in batch ==> t.continuation.None?)
    decreases |batch|
  {
    if batch == [] {
    } else {
      CallbackOnlyClears(s, batch[0]);
      CallbacksOnlyClear(RunCallback(s, batch[0]), batch[1..]);
    }
  }

  lemma StepKeepsKnown(s: State, event: Event)
    requires Known(s) && Enabled(s, event)
    ensures Known(Step(s, event))
  {
    match event
    case CheckpointEnd =>
      var t := Step(s, event);
      CallbacksOnlyClear(s.(pending := []), s.pending);
      forall a | a in t.awaits ensures a.context in t.locks {
        assert a in s.awaits;
        assert a.context in s.locks.Keys;
      }
    case GateAwait(_, _) => GateAwaitKeepsKnown(s, event);
    case RunTask(_, _) => RunTaskKeepsKnown(s, event);
    case PromiseSettled(which) => SettleKeepsKnown(s.(waiting := s.waiting - {which}), which);
    case _ =>
  }

  lemma GateAwaitKeepsKnown(s: State, event: Event)
    requires Known(s) && Enabled(s, event) && event.GateAwait?
    ensures Known(Step(s, event))
  {
    var t := Step(s, event);
    forall k | k in t.unresumed ensures k < |t.awaits| && t.unresumed[k].context == t.awaits[k].context {
      assert k in s.unresumed;
    }
  }

  lemma SettleKeepsKnown(s: State, which: nat)
    requires Known(s) && which < |s.awaits|
    ensures Known(Settle(s, which))
  {
  }

  lemma RunTaskKeepsKnown(s: State, event: Event)
    requires Known(s) && Enabled(s, event) && event.RunTask?
    ensures Known(Step(s, event))
  {
    var task := s.tasks[event.index];
    assert task in s.tasks;
    var taken := s.(tasks := s.tasks[..event.index] + s.tasks[event.index + 1..]);
    assert Known(taken);
    var context := s.awaits[task.which].context;
    assert s.awaits[task.which] in s.awaits;
    if event.admitted && context !in s.aborted && task.Retained? {
      SettleKeepsKnown(EnterSlice(taken, context, task.lock), task.which);
    }
  }

  predicate Possible(s: State, events: seq<Event>)
    requires Known(s)
    decreases |events|
  {
    || events == []
    || (Enabled(s, events[0])
        && (StepKeepsKnown(s, events[0]); Possible(Step(s, events[0]), events[1..])))
  }

  function Run(s: State, events: seq<Event>): (r: State)
    requires Known(s) && Possible(s, events)
    ensures Known(r)
    decreases |events|
  {
    if events == [] then s
    else
      StepKeepsKnown(s, events[0]);
      Run(Step(s, events[0]), events[1..])
  }
}

module GateTheorems {
  import opened Prelude
  import opened GateModel

  /** Whose the checkpoint is: an outcome on its way to its continuation, a reservation, or the ambient. */
  ghost predicate Owns(s: State, context: nat) {
    || (exists k :: k in s.unresumed && s.unresumed[k].context == context)
    || (s.publication.Some? && s.publication.value.context == context)
    || CurrentContinuation(s) == Some(context)
  }

  ghost predicate ClearedAtEnd(s: State) {
    && (s.publication.Some? ==> ClearPublication(s.publication.value.id) in s.pending)
    && (s.continuation.Some? ==> ClearContinuation(s.continuation.value.id) in s.pending)
  }

  /** A claim lasts only while its actor holds a lock. */
  ghost predicate Locked(s: State) {
    && (s.continuation.Some? ==> HasCurrent(s, s.continuation.value.context))
    && (forall k :: k in s.unresumed ==> HasCurrent(s, s.unresumed[k].context))
  }

  /** The slot and the ambient, where set, name one actor, and every unresumed outcome's actor is named. */
  ghost predicate Guarded(s: State) {
    && (s.publication.Some? && s.continuation.Some? ==>
          s.publication.value.context == s.continuation.value.context)
    && (forall k :: k in s.unresumed ==>
          && (s.publication.Some? || s.continuation.Some?)
          && (s.publication.Some? ==> s.publication.value.context == s.unresumed[k].context)
          && (s.continuation.Some? ==> s.continuation.value.context == s.unresumed[k].context))
  }

  ghost predicate Inv(s: State) {
    Known(s) && ClearedAtEnd(s) && Locked(s) && Guarded(s)
  }

  // ---------- Each step keeps it

  lemma FinishKeepsInv(s: State, which: nat)
    requires Inv(s) && which < |s.awaits|
    requires HasCurrent(s, s.awaits[which].context) && !Refused(s, s.awaits[which].context)
    ensures Inv(Finish(s, which))
  {
    var t := Finish(s, which);
    var context := s.awaits[which].context;
    assert s.continuation.Some? ==> s.continuation.value.context == context;
    forall k | k in t.unresumed
      ensures HasCurrent(t, t.unresumed[k].context) && t.unresumed[k].context == context
      ensures k < |t.awaits| && t.unresumed[k].context == t.awaits[k].context
    {
      assert k in s.unresumed || k == which;
    }
  }

  lemma SettleKeepsInv(s: State, which: nat)
    requires Inv(s) && which < |s.awaits|
    ensures Inv(Settle(s, which))
  {
    var context := s.awaits[which].context;
    if HasCurrent(s, context) && CurrentSection(s, context) == s.awaits[which].section
       && context !in s.aborted && !Refused(s, context) {
      FinishKeepsInv(s, which);
    }
  }

  lemma EnterKeepsInv(s: State, context: nat, lock: Lock)
    requires Inv(s) && context in s.locks
    ensures Inv(EnterSlice(s, context, lock)) && HasCurrent(EnterSlice(s, context, lock), context)
  {
  }

  lemma RunAdmittedKeepsInv(s: State, task: Task)
    requires Inv(s) && task.which < |s.awaits| && s.awaits[task.which].context in s.locks
    ensures Inv(RunAdmitted(s, task))
  {
    hide Inv;
    hide Settle;
    hide TryPublish;
    hide HasCurrent;
    var context := s.awaits[task.which].context;
    match task
    case Retained(which, lock) =>
      EnterKeepsInv(s, context, lock);
      SettleKeepsInv(EnterSlice(s, context, lock), which);
    case Publish(which) =>
      var lock := NewLock(s, s.awaits[which].section);
      EnterKeepsInv(s, context, lock);
      NextIdKeepsInv(EnterSlice(s, context, lock), context);
      TryPublishKeepsInv(EnterSlice(s, context, lock).(nextId := s.nextId + 1), which);
  }

  lemma NextIdKeepsInv(s: State, context: nat)
    requires Inv(s) && HasCurrent(s, context)
    ensures Inv(s.(nextId := s.nextId + 1)) && HasCurrent(s.(nextId := s.nextId + 1), context)
  {
  }

  lemma TryPublishKeepsInv(s: State, which: nat)
    requires Inv(s) && which < |s.awaits| && HasCurrent(s, s.awaits[which].context)
    ensures Inv(TryPublish(s, which))
  {
    if !Refused(s, s.awaits[which].context) {
      FinishKeepsInv(s, which);
    }
  }

  lemma TakingKeepsInv(s: State, index: nat)
    requires Inv(s) && index < |s.tasks|
    ensures Inv(s.(tasks := s.tasks[..index] + s.tasks[index + 1..]))
    ensures s.tasks[index].which < |s.awaits| && s.awaits[s.tasks[index].which].context in s.locks
  {
    assert s.tasks[index] in s.tasks;
    assert s.awaits[s.tasks[index].which] in s.awaits;
  }

  lemma RunTaskKeepsInv(s: State, event: Event)
    requires Inv(s) && Enabled(s, event) && event.RunTask?
    ensures Inv(Step(s, event))
  {
    hide Inv;
    hide RunAdmitted;
    TakingKeepsInv(s, event.index);
    var task := s.tasks[event.index];
    var taken := s.(tasks := s.tasks[..event.index] + s.tasks[event.index + 1..]);
    RejectingKeepsInv(taken, task.which);
    RunAdmittedKeepsInv(taken, task);
  }

  lemma RejectingKeepsInv(s: State, which: nat)
    requires Inv(s)
    ensures Inv(s.(settled := s.settled + [which]))
  {
  }

  lemma ResumeKeepsInv(s: State, event: Event)
    requires Inv(s) && Enabled(s, event) && event.Resume?
    ensures Inv(Step(s, event))
  {
    StepKeepsKnown(s, event);
    var t := Step(s, event);
    forall k | k in t.unresumed ensures k in s.unresumed && t.unresumed[k] == s.unresumed[k] {
    }
  }

  lemma StepKeepsInv(s: State, event: Event)
    requires Inv(s) && Enabled(s, event)
    ensures Inv(Step(s, event))
  {
    StepKeepsKnown(s, event);
    match event
    case RunTask(_, _) => RunTaskKeepsInv(s, event);
    case Resume(_) => ResumeKeepsInv(s, event);
    case PromiseSettled(which) => SettleKeepsInv(s.(waiting := s.waiting - {which}), which);
    case CheckpointEnd => CallbacksOnlyClear(s.(pending := []), s.pending);
    case Enter(context, section) => EnterKeepsInv(s, context, NewLock(s, section));
    case _ =>
  }

  lemma {:induction false} RunKeepsInv(s: State, events: seq<Event>)
    requires Inv(s) && Possible(s, events)
    ensures Inv(Run(s, events))
    decreases |events|
  {
    if events == [] {
    } else {
      StepKeepsInv(s, events[0]);
      RunKeepsInv(Step(s, events[0]), events[1..]);
    }
  }

  // ---------- Theorems

  /**
   * A checkpoint has one owner: every published outcome not yet resumed, the reservation and the
   * ambient continuation are one actor's, also when a later reservation overwrote an earlier one.
   */
  lemma OneActorPerCheckpoint(events: seq<Event>, a: nat, b: nat)
    requires Possible(INITIAL, events)
    requires Owns(Run(INITIAL, events), a) && Owns(Run(INITIAL, events), b)
    ensures a == b
  {
    RunKeepsInv(INITIAL, events);
    var s := Run(INITIAL, events);
    assert Guarded(s);
    if exists k :: k in s.unresumed && s.unresumed[k].context == a {
      var k :| k in s.unresumed && s.unresumed[k].context == a;
      if exists j :: j in s.unresumed && s.unresumed[j].context == b {
        var j :| j in s.unresumed && s.unresumed[j].context == b;
      }
    }
  }

  /** A publisher is refused exactly when another actor owns the checkpoint. */
  lemma RefusedOnlyByTheOwner(events: seq<Event>, context: nat)
    requires Possible(INITIAL, events)
    ensures var s := Run(INITIAL, events);
      Refused(s, context) <==> exists other :: other != context && Owns(s, other)
  {
    RunKeepsInv(INITIAL, events);
    var s := Run(INITIAL, events);
    if Refused(s, context) {
      if CurrentContinuation(s) !in {None, Some(context)} {
        assert Owns(s, CurrentContinuation(s).value);
      } else {
        assert Owns(s, s.publication.value.context);
      }
    }
    forall other | other != context && Owns(s, other) ensures Refused(s, context) {
      if exists k :: k in s.unresumed && s.unresumed[k].context == other {
        var k :| k in s.unresumed && s.unresumed[k].context == other;
        assert s.publication.Some? || s.continuation.Some?;
        assert s.continuation.Some? ==> CurrentContinuation(s) == Some(other);
      }
    }
  }

  /** An await resumes as the actor that made it, which then holds a lock and is the current one. */
  lemma ResumesAsItsActor(events: seq<Event>, which: nat)
    requires Possible(INITIAL, events) && which in Run(INITIAL, events).unresumed
    ensures var s := Run(INITIAL, events);
      && which < |s.awaits|
      && Enabled(s, Resume(which))
      && CurrentContinuation(Step(s, Resume(which))) == Some(s.awaits[which].context)
  {
    RunKeepsInv(INITIAL, events);
  }

  /** No claim outlives its checkpoint. */
  lemma CheckpointEndsUnowned(events: seq<Event>, context: nat)
    requires Possible(INITIAL, events) && Enabled(Run(INITIAL, events), CheckpointEnd)
    ensures !Owns(Step(Run(INITIAL, events), CheckpointEnd), context)
  {
    RunKeepsInv(INITIAL, events);
    var s := Run(INITIAL, events);
    CallbacksOnlyClear(s.(pending := []), s.pending);
  }

  // ---------- Awaits settle once

  function Scheduled(tasks: seq<Task>, which: nat): nat {
    if tasks == [] then 0 else (if tasks[0].which == which then 1 else 0) + Scheduled(tasks[1..], which)
  }

  function Settlements(settled: seq<nat>, which: nat): nat {
    if settled == [] then 0 else (if settled[0] == which then 1 else 0) + Settlements(settled[1..], which)
  }

  /** Where an await is: waiting for its promise, scheduled to publish, or settled. */
  function Places(s: State, which: nat): nat {
    (if which in s.waiting then 1 else 0) + Scheduled(s.tasks, which) + Settlements(s.settled, which)
  }

  lemma {:induction false} ScheduledAppend(a: seq<Task>, b: seq<Task>, which: nat)
    ensures Scheduled(a + b, which) == Scheduled(a, which) + Scheduled(b, which)
  {
    if a == [] {
      assert a + b == b;
    } else {
      ScheduledAppend(a[1..], b, which);
      assert (a + b)[1..] == a[1..] + b;
    }
  }

  lemma {:induction false} SettlementsAppend(a: seq<nat>, b: seq<nat>, which: nat)
    ensures Settlements(a + b, which) == Settlements(a, which) + Settlements(b, which)
  {
    if a == [] {
      assert a + b == b;
    } else {
      SettlementsAppend(a[1..], b, which);
      assert (a + b)[1..] == a[1..] + b;
    }
  }

  lemma TakenTask(tasks: seq<Task>, index: nat, which: nat)
    requires index < |tasks|
    ensures Scheduled(tasks, which)
         == Scheduled(tasks[..index] + tasks[index + 1..], which) + (if tasks[index].which == which then 1 else 0)
  {
    assert tasks == tasks[..index] + ([tasks[index]] + tasks[index + 1..]);
    ScheduledAppend(tasks[..index], [tasks[index]] + tasks[index + 1..], which);
    ScheduledAppend([tasks[index]], tasks[index + 1..], which);
    ScheduledAppend(tasks[..index], tasks[index + 1..], which);
  }

  /** Settling an await puts it in exactly one more place: scheduled again, or settled. */
  lemma SettlePlaces(s: State, of: nat, which: nat)
    requires of < |s.awaits|
    ensures Settle(s, of).awaits == s.awaits
    ensures Places(Settle(s, of), which) == Places(s, which) + (if of == which then 1 else 0)
  {
    hide Scheduled, Settlements;
    var t := Settle(s, of);
    SettlesOrSchedules(s, of);
    SettlementsAppend(s.settled, [of], which);
    OneSettlement(of, which);
    if t.tasks != s.tasks {
      var task := t.tasks[|s.tasks|];
      ScheduledAppend(s.tasks, [task], which);
      OneScheduled(task, which);
    }
    hide Settle;
  }

  lemma SettlesOrSchedules(s: State, of: nat)
    requires of < |s.awaits|
    ensures var t := Settle(s, of);
      && t.awaits == s.awaits && t.waiting == s.waiting
      && if t.tasks == s.tasks then t.settled == s.settled + [of]
         else t.settled == s.settled && |t.tasks| == |s.tasks| + 1
              && t.tasks == s.tasks + [t.tasks[|s.tasks|]] && t.tasks[|s.tasks|].which == of
  {
  }

  lemma OneScheduled(task: Task, which: nat)
    ensures Scheduled([task], which) == if task.which == which then 1 else 0
  {
  }

  lemma OneSettlement(of: nat, which: nat)
    ensures Settlements([of], which) == if of == which then 1 else 0
  {
  }

  lemma RunAdmittedPlaces(s: State, task: Task, which: nat)
    requires task.which < |s.awaits| && s.awaits[task.which].context in s.locks
    ensures RunAdmitted(s, task).awaits == s.awaits
    ensures Places(RunAdmitted(s, task), which) == Places(s, which) + (if task.which == which then 1 else 0)
  {
    if task.Retained? {
      SettlePlaces(EnterSlice(s, s.awaits[task.which].context, task.lock), task.which, which);
    } else {
      SettlementsAppend(s.settled, [task.which], which);
      ScheduledAppend(s.tasks, [Publish(task.which)], which);
    }
  }

  lemma RunTaskPlaces(s: State, event: Event, which: nat)
    requires Known(s) && Enabled(s, event) && event.RunTask?
    ensures Step(s, event).awaits == s.awaits && Places(Step(s, event), which) == Places(s, which)
  {
    var task := s.tasks[event.index];
    assert task in s.tasks;
    assert s.awaits[task.which] in s.awaits;
    var taken := s.(tasks := s.tasks[..event.index] + s.tasks[event.index + 1..]);
    TakenTask(s.tasks, event.index, which);
    if event.admitted && s.awaits[task.which].context !in s.aborted {
      RunAdmittedPlaces(taken, task, which);
    } else {
      SettlementsAppend(s.settled, [task.which], which);
    }
  }

  lemma StepPlaces(s: State, event: Event, which: nat)
    requires Known(s) && Enabled(s, event)
    requires Places(s, which) == (if which < |s.awaits| then 1 else 0)
    ensures Places(Step(s, event), which) == (if which < |Step(s, event).awaits| then 1 else 0)
  {
    match event
    case PromiseSettled(of) => SettlePlaces(s.(waiting := s.waiting - {of}), of, which);
    case RunTask(_, _) => RunTaskPlaces(s, event, which);
    case CheckpointEnd => CallbacksOnlyClear(s.(pending := []), s.pending);
    case _ =>
  }

  lemma {:induction false} RunPlaces(s: State, events: seq<Event>, which: nat)
    requires Known(s) && Possible(s, events)
    requires Places(s, which) == (if which < |s.awaits| then 1 else 0)
    ensures Places(Run(s, events), which) == (if which < |Run(s, events).awaits| then 1 else 0)
    decreases |events|
  {
    if events == [] {
    } else {
      StepPlaces(s, events[0], which);
      StepKeepsKnown(s, events[0]);
      RunPlaces(Step(s, events[0]), events[1..], which);
    }
  }

  /**
   * Every await is in one place: its promise is out, one publication of it is scheduled, or it is
   * settled, once. So a refused publisher is scheduled again and none settles twice or is lost.
   */
  lemma EachAwaitSettlesOnce(events: seq<Event>, which: nat)
    requires Possible(INITIAL, events)
    ensures var s := Run(INITIAL, events);
      (if which in s.waiting then 1 else 0) + Scheduled(s.tasks, which) + Settlements(s.settled, which)
      == (if which < |s.awaits| then 1 else 0)
  {
    RunPlaces(INITIAL, events, which);
  }

  /** The await's outcome asks to be published: its promise settled, or a scheduled publication's slice runs. */
  predicate Publishes(s: State, event: Event, which: nat) {
    match event
    case PromiseSettled(of) => of == which
    case RunTask(index, admitted) => admitted && index < |s.tasks| && s.tasks[index].which == which
    case _ => false
  }

  /**
   * While another actor owns the checkpoint, an outcome that asks to be published, for the first time
   * or again, is scheduled exactly once and settles and publishes nothing.
   */
  lemma RefusedIsRescheduled(events: seq<Event>, event: Event, which: nat)
    requires Possible(INITIAL, events) && Enabled(Run(INITIAL, events), event)
    requires var s := Run(INITIAL, events);
      && Publishes(s, event, which) && which < |s.awaits|
      && Refused(s, s.awaits[which].context) && s.awaits[which].context !in s.aborted
    ensures var s := Run(INITIAL, events); var t := Step(s, event);
      Scheduled(t.tasks, which) == 1 && t.settled == s.settled && t.unresumed == s.unresumed
  {
    RunPlaces(INITIAL, events, which);
    RefusedStep(Run(INITIAL, events), event, which);
  }

  lemma RefusedStep(s: State, event: Event, which: nat)
    requires Known(s) && Enabled(s, event) && Publishes(s, event, which)
    requires which < |s.awaits| && Places(s, which) == 1
    requires Refused(s, s.awaits[which].context) && s.awaits[which].context !in s.aborted
    ensures var t := Step(s, event);
      Scheduled(t.tasks, which) == 1 && t.settled == s.settled && t.unresumed == s.unresumed
  {
    StepPlaces(s, event, which);
    if event.RunTask? {
      TakenTask(s.tasks, event.index, which);
      RefusedTaskSettlesNothing(s, event);
      hide Step;
      assert Places(Step(s, event), which) == 1;
      StillWaiting(s, event);
    }
  }

  lemma StillWaiting(s: State, event: Event)
    requires Known(s) && Enabled(s, event) && event.RunTask?
    ensures Step(s, event).waiting == s.waiting && |Step(s, event).awaits| == |s.awaits|
  {
  }

  lemma RefusedTaskSettlesNothing(s: State, event: Event)
    requires Known(s) && Enabled(s, event) && event.RunTask? && event.admitted
    requires var context := s.awaits[s.tasks[event.index].which].context;
      Refused(s, context) && context !in s.aborted
    ensures Step(s, event).settled == s.settled && Step(s, event).unresumed == s.unresumed
  {
    var task := s.tasks[event.index];
    assert task in s.tasks;
    var context := s.awaits[task.which].context;
    assert s.awaits[task.which] in s.awaits;
    var taken := s.(tasks := s.tasks[..event.index] + s.tasks[event.index + 1..]);
    assert Refused(EnterSlice(taken, context, NewLock(taken, s.awaits[task.which].section)), context);
    if task.Retained? { assert Refused(EnterSlice(taken, context, task.lock), context); }
  }
}
/** The realm's globals and the functions of `src/gate.ts` that change them. */
module AwaitGate {
  import opened Prelude
  import opened GateModel

  /** What a rewritten await waits for: the program's own value, or a published outcome. */
  datatype Awaited<V> = Plain(value: V) | Transformed(which: nat)

  class Realm {
    var locks: map<nat, seq<Lock>>
    var aborted: set<nat>
    var publication: Option<Claim>
    var continuation: Option<Claim>
    var pendingCheckpointEnds: seq<Callback>
    var awaits: seq<Await>
    var waiting: set<nat>
    var tasks: seq<Task>
    var unresumed: map<nat, Claim>
    var nextId: nat
    ghost var settled: seq<nat>

    ghost function Model(): State
      reads this
    {
      State(locks, aborted, publication, continuation, pendingCheckpointEnds, awaits, waiting, tasks, unresumed,
            settled, nextId)
    }

    constructor ()
      ensures Model() == INITIAL
    {
      locks, aborted, publication, continuation, pendingCheckpointEnds := map[], {}, None, None, [];
      awaits, waiting, tasks, unresumed, settled, nextId := [], {}, [], map[], [], 0;
    }

    method AtCheckpointEnd(callback: Callback)
      modifies this`pendingCheckpointEnds
      ensures pendingCheckpointEnds == old(pendingCheckpointEnds) + [callback]
    {
      pendingCheckpointEnds := pendingCheckpointEnds + [callback];
    }

    /** The actor whose restored continuation is running, if its lock is still held. */
    method TryCurrentContinuation() returns (context: Option<nat>)
      ensures context == CurrentContinuation(Model())
    {
      context := None;
      if continuation.Some? {
        var current := continuation.value.context;
        if current in locks && locks[current] != [] {
          context := Some(current);
        }
      }
    }

    /** Refused only by another actor's continuation or publication; else the slot is taken over. */
    method ReservePublication(context: nat) returns (reservation: Option<Claim>)
      modifies this
      ensures reservation.None? <==> Refused(old(Model()), context)
      ensures reservation.None? ==> Model() == old(Model())
      ensures reservation.Some? ==>
        Model() == Reserve(old(Model()), context) && reservation.value == Claim(old(nextId), context)
    {
      var current := TryCurrentContinuation();
      if (current.Some? && current.value != context) || (publication.Some? && publication.value.context != context) {
        return None;
      }
      var claim := Claim(nextId, context);
      nextId := nextId + 1;
      publication := Some(claim);
      AtCheckpointEnd(GateModel.ClearPublication(claim.id));
      reservation := Some(claim);
    }

    method ClearPublication(id: nat)
      modifies this`publication
      ensures Model() == Unpublish(old(Model()), id)
    {
      if publication.Some? && publication.value.id == id {
        publication := None;
      }
    }

    method RestoreContinuation(context: nat)
      modifies this
      ensures Model() == GateModel.RestoreContinuation(old(Model()), context)
    {
      continuation := Some(Claim(nextId, context));
      AtCheckpointEnd(ClearContinuation(nextId));
      nextId := nextId + 1;
    }

    method EnterSlice(context: nat, lock: Lock)
      requires context in locks
      modifies this
      ensures Model() == GateModel.EnterSlice(old(Model()), context, lock)
    {
      locks := locks[context := locks[context] + [lock]];
      AtCheckpointEnd(Exit(context, lock));
    }

    /** Outside an actor the value itself is awaited; inside one, an await of the captured section. */
    method GateAwait<V>(context: Option<nat>, steps: bool, value: V) returns (r: Awaited<V>)
      requires context.Some? ==> Enabled(Model(), Event.GateAwait(context.value, steps)) && Known(Model())
      modifies this
      ensures context.None? ==> r == Plain(value) && Model() == old(Model())
      ensures context.Some? ==>
        && r == Transformed(|old(awaits)|)
        && Model() == Step(old(Model()), Event.GateAwait(context.value, steps))
    {
      if context.None? {
        return Plain(value);
      }
      var held := locks[context.value];
      r := Transformed(|awaits|);
      waiting := waiting + {|awaits|};
      awaits := awaits + [Await(context.value, held[|held| - 1].section, steps)];
    }

    /** The first instruction of a continuation: identity on a plain value, else the actor is restored. */
    method ResumeAwait<V>(awaited: Awaited<V>) returns (value: Option<V>)
      requires awaited.Transformed? ==> Enabled(Model(), Resume(awaited.which)) && Known(Model())
      modifies this
      ensures awaited.Plain? ==> value == Some(awaited.value) && Model() == old(Model())
      ensures awaited.Transformed? ==> Model() == Step(old(Model()), Resume(awaited.which))
    {
      if awaited.Plain? {
        return Some(awaited.value);
      }
      var reservation := unresumed[awaited.which];
      unresumed := unresumed - {awaited.which};
      ClearPublication(reservation.id);
      RestoreContinuation(reservation.context);
      value := None;
    }

    method FinishPublication(which: nat, reservation: Claim)
      requires which < |awaits| && reservation.context == awaits[which].context
      modifies this
      ensures var restored := old(Model()).(settled := old(settled) + [which]);
        Model() == if old(awaits)[which].steps
                   then GateModel.RestoreContinuation(Unpublish(restored, reservation.id), reservation.context)
                   else restored.(unresumed := old(unresumed)[which := reservation])
    {
      settled := settled + [which];
      if awaits[which].steps {
        ClearPublication(reservation.id);
        RestoreContinuation(reservation.context);
      } else {
        unresumed := unresumed[which := reservation];
      }
    }

    method SettleOutcome(which: nat)
      requires which < |awaits|
      modifies this
      ensures Model() == Settle(old(Model()), which)
    {
      var context := awaits[which].context;
      var held := if context in locks then locks[context] else [];
      if held == [] || held[|held| - 1].section != awaits[which].section {
        tasks := tasks + [Publish(which)];
        return;
      }
      if context in aborted {
        settled := settled + [which];
        return;
      }
      var reservation := ReservePublication(context);
      if reservation.None? {
        tasks := tasks + [Retained(which, held[|held| - 1])];
        return;
      }
      FinishPublication(which, reservation.value);
    }

    method PromiseSettled(which: nat)
      requires Known(Model()) && Enabled(Model(), Event.PromiseSettled(which))
      modifies this
      ensures Model() == Step(old(Model()), Event.PromiseSettled(which))
    {
      waiting := waiting - {which};
      SettleOutcome(which);
    }

    method TryPublish(which: nat)
      requires which < |awaits|
      modifies this
      ensures Model() == GateModel.TryPublish(old(Model()), which)
    {
      var reservation := ReservePublication(awaits[which].context);
      if reservation.None? {
        tasks := tasks + [Publish(which)];
      } else {
        FinishPublication(which, reservation.value);
      }
    }

    /** A scheduled publication's task: its slice was admitted, or failed with what rejects the await. */
    method RunPublication(index: nat, admitted: bool)
      requires Known(Model()) && Enabled(Model(), RunTask(index, admitted))
      modifies this
      ensures Model() == Step(old(Model()), RunTask(index, admitted))
    {
      hide Settle, GateModel.TryPublish;
      var task := tasks[index];
      assert task in tasks && awaits[task.which] in awaits;
      tasks := tasks[..index] + tasks[index + 1..];
      var context := awaits[task.which].context;
      if !admitted || context in aborted {
        settled := settled + [task.which];
        return;
      }
      match task
      case Retained(which, lock) =>
        EnterSlice(context, lock);
        SettleOutcome(which);
      case Publish(which) =>
        EnterSlice(context, Lock(nextId, awaits[which].section));
        nextId := nextId + 1;
        TryPublish(which);
    }

    method RunCallback(callback: Callback)
      modifies this
      ensures Model() == GateModel.RunCallback(old(Model()), callback)
    {
      match callback
      case ClearPublication(id) => ClearPublication(id);
      case ClearContinuation(id) =>
        if continuation.Some? && continuation.value.id == id {
          continuation := None;
        }
      case Exit(context, lock) =>
        if context in locks {
          locks := locks[context := WithoutLock(locks[context], lock)];
        }
    }

    /** The batch runs whole; what it would schedule belongs to the next. */
    method RunCheckpointEnds()
      requires Known(Model()) && Enabled(Model(), CheckpointEnd)
      modifies this
      ensures Model() == Step(old(Model()), CheckpointEnd)
    {
      var batch := pendingCheckpointEnds;
      pendingCheckpointEnds := [];
      for i := 0 to |batch|
        invariant RunCallbacks(Model(), batch[i..]) == RunCallbacks(old(Model()).(pending := []), batch)
      {
        assert batch[i..][0] == batch[i] && batch[i..][1..] == batch[i + 1..];
        RunCallback(batch[i]);
      }
    }
  }
}
