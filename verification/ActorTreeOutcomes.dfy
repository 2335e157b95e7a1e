/** What becomes of a facet's start at each of its awaits: it goes on when it may, and unwinds when not. */
module ActorTreeOutcomes {
  import opened Prelude
  import opened ActorTreeModel
  import opened ActorTreeTheorems

  /** Only start `i` and its facet's own entries changed. */
  ghost predicate OnlyOwnChanged(s: State, t: State, i: nat) {
    && i < |s.ops| && |t.ops| == |s.ops|
    && (forall j: nat :: j < |s.ops| && j != i ==> t.ops[j] == s.ops[j])
    && t.ops[i].id == s.ops[i].id && t.ops[i].cancelled == s.ops[i].cancelled
    && OthersSame(s, t, s.ops[i].id) && t.attached == s.attached && t.waiting == s.waiting
  }

  /** The start is under way in this phase, and its facet knows it. */
  predicate UnderWay(t: State, i: nat, phase: Phase) {
    i < |t.ops| && t.ops[i].phase == phase && t.ops[i].id !in t.live
    && t.ops[i].id in t.starting && t.starting[t.ops[i].id] == i
  }

  /** The start is over and holds nothing, and its facet may be started again. */
  predicate Over(t: State, i: nat) {
    && i < |t.ops| && t.ops[i].phase == Ended && !t.ops[i].storageOpen && t.ops[i].container != Running
    && t.ops[i].id !in t.starting && t.ops[i].id !in t.live && t.ops[i].id !in t.scopes
  }

  predicate UpAndLive(t: State, i: nat) {
    && i < |t.ops| && t.ops[i].phase == Live && t.ops[i].container == Running && t.ops[i].storageOpen
    && t.ops[i].id in t.live && t.live[t.ops[i].id] == i
    && t.ops[i].id in t.scopes && t.scopes[t.ops[i].id] == i
    && t.ops[i].id !in t.starting && t.ops[i].id !in t.restoring
  }

  /** A hibernated facet's start must be the request it hibernated with. */
  predicate Admits(s: State, i: nat, matches: bool) {
    i < |s.ops| && (s.ops[i].id in s.restoring ==> matches)
  }

  function SnapshotOf(s: State, id: nat): Option<nat> {
    if id in s.restoring then Some(s.restoring[id]) else None
  }

  // ---------- Unwinding

  lemma Unwound(s: State, i: nat)
    requires Inv(s) && i < |s.ops| && IsStarting(s.ops[i])
    ensures var t := Unwind(s, i);
      && Over(t, i) && OnlyOwnChanged(s, t, i) && t.restoring == s.restoring
      && t.log == s.log + (if s.ops[i].storageOpen then [Closed(s.ops[i].id, i)] else [])
  {
    OwnEntries(s, i);
    UnwindsAlone(s, i);
    hide Inv, Unwind;
  }

  lemma UnwindCloses(s: State, i: nat)
    requires i < |s.ops|
    ensures var t := Unwind(s, i); var op := s.ops[i];
      && t.ops == s.ops[i := op.(phase := Ended, storageOpen := false, container := StopContainer(op.container))]
      && t.attached == s.attached && t.waiting == s.waiting
      && t.log == s.log + (if op.storageOpen then [Closed(op.id, i)] else [])
  {
  }

  // ---------- Each await of a start

  /**
   * Once its definition is loaded, a start that was not aborted opens its storage, unless it is not the
   * request its facet hibernated with, and takes the facet's snapshot to create its container from.
   */
  lemma LoadOpensStorage(events: seq<Event>, i: nat, matches: bool)
    requires Possible(INITIAL, events) && Enabled(Run(INITIAL, events), LoadSettled(i, true, matches))
    requires !Run(INITIAL, events).ops[i].cancelled
    ensures var s := Run(INITIAL, events); var t := Step(s, LoadSettled(i, true, matches)); var id := s.ops[i].id;
      && OnlyOwnChanged(s, t, i) && t.restoring == s.restoring
      && (Admits(s, i, matches) <==> UnderWay(t, i, Creating))
      && (Admits(s, i, matches) ==>
          && t.ops[i].storageOpen && t.ops[i].container == Absent && t.ops[i].restored == SnapshotOf(s, id)
          && t.log == s.log + [Opened(id, i)])
      && (!Admits(s, i, matches) ==> Over(t, i) && t.log == s.log + [Opened(id, i), Closed(id, i)])
  {
    RunKeepsInv(INITIAL, events);
    var s := Run(INITIAL, events);
    OpenKeepsInv(s, i);
    OwnEntries(s, i);
    Opens(s, i);
    hide Inv, MapsOk, OpsOk, LogOk, OthersSame, OpenStorage, Unwind, OwnMaps, Run, Holds;
    var loaded := OpenStorage(s, i);
    if !Admits(s, i, matches) {
      Unwound(loaded, i);
      OwnChangedTwice(s, loaded, Unwind(loaded, i), i);
    }
  }

  lemma Opens(s: State, i: nat)
    requires MapsOk(s) && OpsOk(s) && InPhase(s, i, Loading)
    ensures var t := OpenStorage(s, i); var id := s.ops[i].id;
      && OnlyOwnChanged(s, t, i) && t.restoring == s.restoring && UnderWay(t, i, Creating)
      && t.ops[i].storageOpen && t.ops[i].container == Absent && t.ops[i].restored == SnapshotOf(s, id)
      && t.log == s.log + [Opened(id, i)]
  {
    OwnEntries(s, i);
  }

  lemma OwnChangedTwice(s: State, x: State, t: State, i: nat)
    requires OnlyOwnChanged(s, x, i) && OnlyOwnChanged(x, t, i)
    ensures OnlyOwnChanged(s, t, i)
  {
  }

  /** Once its container is created, a start that was not aborted starts it, and its scope resolves to it. */
  lemma CreatedIsScoped(events: seq<Event>, i: nat)
    requires Possible(INITIAL, events) && Enabled(Run(INITIAL, events), CreateSettled(i, true))
    requires !Run(INITIAL, events).ops[i].cancelled
    ensures var s := Run(INITIAL, events); var t := Step(s, CreateSettled(i, true)); var id := s.ops[i].id;
      && OnlyOwnChanged(s, t, i) && UnderWay(t, i, Starting)
      && t.ops[i].container == Running && t.ops[i].storageOpen && t.ops[i].restored == s.ops[i].restored
      && id in t.scopes && t.scopes[id] == i
      && t.restoring == s.restoring && t.log == s.log
  {
    RunKeepsInv(INITIAL, events);
    OwnEntries(Run(INITIAL, events), i);
    hide Inv, MapsOk, OpsOk, LogOk, Run;
    Contains(Run(INITIAL, events), i);
    hide OnlyOwnChanged, OthersSame, OwnMaps;
  }

  lemma Contains(s: State, i: nat)
    requires OwnMaps(s, i) && Holds(s, i) && InPhase(s, i, Creating) && !s.ops[i].cancelled
    ensures var t := DoCreate(s, i, true); var op := s.ops[i];
      && OnlyOwnChanged(s, t, i) && UnderWay(t, i, Starting)
      && t == s.(ops := s.ops[i := op.(phase := Starting, container := Running)], scopes := s.scopes[op.id := i])
  {
  }

  /**
   * Once its container has started, a start that was not aborted is the facet's live placement, with its
   * storage open, and the facet's snapshot is used up.
   */
  lemma StartGoesLive(events: seq<Event>, i: nat)
    requires Possible(INITIAL, events) && Enabled(Run(INITIAL, events), StartSettled(i, true))
    requires !Run(INITIAL, events).ops[i].cancelled
    ensures var s := Run(INITIAL, events); var t := Step(s, StartSettled(i, true));
      && OnlyOwnChanged(s, t, i) && UpAndLive(t, i) && t.ops[i].restored == s.ops[i].restored
      && t.log == s.log
  {
    RunKeepsInv(INITIAL, events);
    OwnEntries(Run(INITIAL, events), i);
    hide Inv, MapsOk, OpsOk, LogOk, Run;
    Places(Run(INITIAL, events), i);
    hide OnlyOwnChanged, OthersSame, OwnMaps;
  }

  lemma Places(s: State, i: nat)
    requires OwnMaps(s, i) && Holds(s, i) && InPhase(s, i, Starting) && !s.ops[i].cancelled
    ensures var t := DoPlace(s, i, true); var id := s.ops[i].id;
      && OnlyOwnChanged(s, t, i)
      && t == s.(ops := s.ops[i := s.ops[i].(phase := Live)], live := s.live[id := i],
                 starting := s.starting - {id}, restoring := s.restoring - {id})
  {
  }

  /** The start whose await settled. */
  function Settles(event: Event): Option<nat> {
    match event
    case LoadSettled(i, _, _) => Some(i)
    case CreateSettled(i, _) => Some(i)
    case StartSettled(i, _) => Some(i)
    case _ => None
  }

  predicate Succeeds(event: Event) {
    match event
    case LoadSettled(_, ok, _) => ok
    case CreateSettled(_, ok) => ok
    case StartSettled(_, ok) => ok
    case _ => false
  }

  /** A start whose await failed, or that was aborted meanwhile, is over, and keeps nothing. */
  lemma FailedStartUnwinds(events: seq<Event>, event: Event)
    requires Possible(INITIAL, events) && Enabled(Run(INITIAL, events), event) && Settles(event).Some?
    requires !Succeeds(event) || Run(INITIAL, events).ops[Settles(event).value].cancelled
    ensures var s := Run(INITIAL, events); var t := Step(s, event); var i := Settles(event).value;
      && Over(t, i) && OnlyOwnChanged(s, t, i) && t.restoring == s.restoring
      && t.log == s.log + (if s.ops[i].storageOpen then [Closed(s.ops[i].id, i)] else [])
  {
    RunKeepsInv(INITIAL, events);
    var s := Run(INITIAL, events);
    var i := Settles(event).value;
    if event.CreateSettled? && event.ok {
      CreatedTooLate(s, i);
    } else {
      Unwound(s, i);
    }
    hide Inv, Unwind, OnlyOwnChanged, Over, Run;
  }

  lemma CreatedTooLate(s: State, i: nat)
    requires Inv(s) && InPhase(s, i, Creating)
    ensures var created := SetOp(s, i, s.ops[i].(container := Running)); var t := Unwind(created, i);
      && Over(t, i) && OnlyOwnChanged(s, t, i) && t.restoring == s.restoring
      && t.log == s.log + (if s.ops[i].storageOpen then [Closed(s.ops[i].id, i)] else [])
  {
    OwnEntries(s, i);
    hide Inv, MapsOk, OpsOk, LogOk;
    var created := SetOp(s, i, s.ops[i].(container := Running));
    UnwindsAlone(created, i);
    OwnChangedTwice(s, created, Unwind(created, i), i);
    hide Unwind, OthersSame;
  }

  lemma UnwindsAlone(s: State, i: nat)
    requires i < |s.ops| && IsStarting(s.ops[i]) && OwnMaps(s, i)
    ensures var t := Unwind(s, i);
      && Over(t, i) && OnlyOwnChanged(s, t, i) && t.restoring == s.restoring
      && t.log == s.log + (if s.ops[i].storageOpen then [Closed(s.ops[i].id, i)] else [])
  {
    UnwindsOwnMaps(s, i);
    UnwindsNoOther(s, i);
    UnwindKeepsSnapshots(s, i);
    UnwindCloses(s, i);
    hide Unwind, OthersSame;
  }

  // ---------- Starting, restarting, aborting

  /** A facet neither live nor starting gets a start of its own, which first loads its definition. */
  lemma FreshStartBegins(events: seq<Event>, id: nat)
    requires Possible(INITIAL, events)
    requires var s := Run(INITIAL, events); s.attached && id !in s.live && id !in s.starting
    ensures var s := Run(INITIAL, events); var t := Step(s, Start(id));
      && t.ops == s.ops + [Op(id, false, Loading, false, Absent, None)] && UnderWay(t, |s.ops|, Loading)
      && t == s.(ops := t.ops, starting := s.starting[id := |s.ops|])
  {
    hide Run;
  }

  /**
   * A facet that is live or starting is shared; behind an aborted start that still unwinds, a restart
   * waits; and no tree without an attachment starts anything.
   */
  lemma OneStartIsShared(events: seq<Event>, id: nat)
    requires Possible(INITIAL, events)
    requires var s := Run(INITIAL, events); !s.attached || id in s.live || id in s.starting
    ensures var s := Run(INITIAL, events); var t := Step(s, Start(id));
      if id in s.starting && s.starting[id] < |s.ops| && s.ops[s.starting[id]].cancelled
      then t == s.(waiting := s.waiting + [Restart(id, s.starting[id])])
      else t == s
  {
    RunKeepsInv(INITIAL, events);
    hide Run;
  }

  /** A restart whose aborted start is over starts its facet afresh, unless someone else did meanwhile. */
  lemma RestartStartsOver(events: seq<Event>, index: nat)
    requires Possible(INITIAL, events) && Enabled(Run(INITIAL, events), RestartAfter(index))
    ensures var s := Run(INITIAL, events); var t := Step(s, RestartAfter(index)); var id := s.waiting[index].id;
      if s.attached && id !in s.live && id !in s.starting
      then t.ops == s.ops + [Op(id, false, Loading, false, Absent, None)] && UnderWay(t, |s.ops|, Loading)
           && t.waiting == s.waiting[..index] + s.waiting[index + 1..]
      else t.ops == s.ops && t.live == s.live && t.starting == s.starting
  {
    hide Run;
  }

  /** An abort ends a live placement at once, and stops the container of one that is starting. */
  lemma AbortTakesEffect(events: seq<Event>, id: nat)
    requires Possible(INITIAL, events)
    ensures var s := Run(INITIAL, events); var t := Step(s, Abort(id));
      && (id in s.live ==> var i := s.live[id];
          && Over(t, i) && t.ops[i].container == Aborted && t.log == s.log + [Closed(id, i)])
      && (id in s.starting ==> var i := s.starting[id];
          && i < |s.ops| && |t.ops| == |s.ops| && UnderWay(t, i, s.ops[i].phase)
          && t.ops[i].cancelled && t.ops[i].container != Running && id !in t.scopes && t.log == s.log)
      && (id !in s.live && id !in s.starting ==> t == s)
  {
    RunKeepsInv(INITIAL, events);
    var s := Run(INITIAL, events);
    hide Run;
    if id in s.live {
      AbortEndsLive(s, id);
    } else if id in s.starting {
      AbortCancels(s, id);
    } else {
      assert id in s.scopes ==> Scoped(s, s.scopes[id]) && Registered(s, s.scopes[id]);
      assert s.scopes - {id} == s.scopes;
    }
  }

  lemma AbortEndsLive(s: State, id: nat)
    requires Inv(s) && id in s.live
    ensures var t := DoAbort(s, id); var i := s.live[id];
      && Over(t, i) && t.ops[i].container == Aborted && t.log == s.log + [Closed(id, i)]
  {
    OwnEntries(s, s.live[id]);
    hide OpsOk, LogOk;
  }

  lemma AbortCancels(s: State, id: nat)
    requires Inv(s) && id !in s.live && id in s.starting
    ensures var t := DoAbort(s, id); var i := s.starting[id];
      && i < |s.ops| && |t.ops| == |s.ops| && UnderWay(t, i, s.ops[i].phase)
      && t.ops[i].cancelled && t.ops[i].container != Running && id !in t.scopes && t.log == s.log
  {
    OwnEntries(s, s.starting[id]);
    hide OpsOk, LogOk;
  }

  // ---------- From end to end

  lemma {:induction false} RunMore(s: State, events: seq<Event>, event: Event)
    requires Possible(s, events) && Enabled(Run(s, events), event)
    ensures Possible(s, events + [event]) && Run(s, events + [event]) == Step(Run(s, events), event)
    decreases |events|
  {
    hide Step, Enabled;
    if events == [] {
      assert [event][1..] == [];
      assert events + [event] == [event];
    } else {
      assert (events + [event])[1..] == events[1..] + [event];
      RunMore(Step(s, events[0]), events[1..], event);
    }
  }

  /**
   * A facet that is asked for comes up: with nothing in its way its start loads, opens its storage,
   * creates and starts its container from the facet's snapshot if it hibernated, and goes live.
   */
  lemma FacetComesUp(events: seq<Event>, id: nat)
    requires Possible(INITIAL, events)
    requires var s := Run(INITIAL, events); s.attached && id !in s.live && id !in s.starting
    ensures var i := |Run(INITIAL, events).ops|;
      var whole := events + [Start(id)] + [LoadSettled(i, true, true)] + [CreateSettled(i, true)] + [StartSettled(i, true)];
      && Possible(INITIAL, whole)
      && var s, t := Run(INITIAL, events), Run(INITIAL, whole);
      && UpAndLive(t, i) && t.ops[i].id == id && t.ops[i].restored == SnapshotOf(s, id)
      && t.log == s.log + [Opened(id, i)]
  {
    hide Run, Possible, Step;
    var i := |Run(INITIAL, events).ops|;
    FreshStartBegins(events, id);
    RunMore(INITIAL, events, Start(id));
    var started := events + [Start(id)];
    LoadOpensStorage(started, i, true);
    RunMore(INITIAL, started, LoadSettled(i, true, true));
    var loaded := started + [LoadSettled(i, true, true)];
    CreatedIsScoped(loaded, i);
    RunMore(INITIAL, loaded, CreateSettled(i, true));
    var created := loaded + [CreateSettled(i, true)];
    StartGoesLive(created, i);
    RunMore(INITIAL, created, StartSettled(i, true));
  }

  /** A tree with nothing live or starting is attached, and holds exactly the snapshots it was given. */
  lemma AttachTakesSnapshots(events: seq<Event>, snapshots: map<nat, nat>)
    requires Possible(INITIAL, events) && Enabled(Run(INITIAL, events), Attach(snapshots))
    ensures var s := Run(INITIAL, events); var attached := events + [Attach(snapshots)];
      && Possible(INITIAL, attached)
      && Run(INITIAL, attached) == s.(attached := true, restoring := snapshots)
  {
    RunMore(INITIAL, events, Attach(snapshots));
    hide Run, Possible;
  }

  /** A facet the tree was attached with as hibernated comes up from its own snapshot, which is then used up. */
  lemma HibernatedFacetComesBack(events: seq<Event>, snapshots: map<nat, nat>, id: nat)
    requires Possible(INITIAL, events) && Enabled(Run(INITIAL, events), Attach(snapshots)) && id in snapshots
    ensures var i := |Run(INITIAL, events).ops|;
      var whole := events + [Attach(snapshots)] + [Start(id)] + [LoadSettled(i, true, true)]
                   + [CreateSettled(i, true)] + [StartSettled(i, true)];
      && Possible(INITIAL, whole)
      && UpAndLive(Run(INITIAL, whole), i) && Run(INITIAL, whole).ops[i].restored == Some(snapshots[id])
  {
    hide Run, Possible, Step;
    AttachTakesSnapshots(events, snapshots);
    FacetComesUp(events + [Attach(snapshots)], id);
  }
}
