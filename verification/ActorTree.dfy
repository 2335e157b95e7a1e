/**
 * Facet placement in `src/browser/actor-tree.ts`: starts that may be aborted at any `await`, restarts
 * that wait for an aborted start to unwind, and the storage each placement opens and closes.
 */
module ActorTreeModel {
  import opened Prelude

  datatype Phase =
    | Loading   // awaiting `load`
    | Creating  // storage opened, awaiting `createActorContainer`
    | Starting  // awaiting `container.start`
    | Live
    | Ended     // unwound, or aborted after it was live

  datatype Container = Absent | Running | Aborted

  /** One pass through the body of `start`. */
  datatype Op = Op(
    id: nat, cancelled: bool, phase: Phase, storageOpen: bool, container: Container, restored: Option<nat>)

  /** A start that found an aborted one: it starts over once `prior` has settled. */
  datatype Restart = Restart(id: nat, prior: nat)

  datatype StorageEvent = Opened(id: nat, op: nat) | Closed(id: nat, op: nat)

  datatype State = State(
    attached: bool,
    live: map<nat, nat>,
    starting: map<nat, nat>,
    scopes: map<nat, nat>,     // the placement whose container a facet's scope holds
    ops: seq<Op>,
    waiting: seq<Restart>,
    restoring: map<nat, nat>,  // snapshots of hibernated facets
    log: seq<StorageEvent>)

  const INITIAL := State(false, map[], map[], map[], [], [], map[], [])

  datatype Event =
    | Attach(restoring: map<nat, nat>)
    | Start(id: nat)
    | RestartAfter(index: nat)
    | LoadSettled(op: nat, ok: bool, matches: bool)  // `matches`: a restored request is the same one
    | CreateSettled(op: nat, ok: bool)
    | StartSettled(op: nat, ok: bool)
    | Abort(id: nat)

  function SetOp(s: State, i: nat, op: Op): State
    requires i < |s.ops|
  {
    s.(ops := s.ops[i := op])
  }

  function Begin(s: State, id: nat): State {
    s.(starting := s.starting[id := |s.ops|],
       ops := s.ops + [Op(id, false, Loading, false, Absent, None)])
  }

  /** `start`; a start without an attachment throws. */
  function DoStart(s: State, id: nat): State {
    if id in s.live then s
    else if id in s.starting then
      var prior := s.starting[id];
      if prior < |s.ops| && s.ops[prior].cancelled then s.(waiting := s.waiting + [Restart(id, prior)]) else s
    else if !s.attached then s
    else Begin(s, id)
  }

  function CloseStorage(s: State, i: nat): State
    requires i < |s.ops|
  {
    if s.ops[i].storageOpen
    then SetOp(s, i, s.ops[i].(storageOpen := false)).(log := s.log + [Closed(s.ops[i].id, i)])
    else s
  }

  function StopContainer(container: Container): Container {
    if container == Running then Aborted else container
  }

  /** The `catch` and `finally` of a start: container, storage and scope go, in that order. */
  function Unwind(s: State, i: nat): State
    requires i < |s.ops|
  {
    var op := s.ops[i];
    var closed := CloseStorage(SetOp(s, i, op.(container := StopContainer(op.container), phase := Ended)), i);
    closed.(scopes := s.scopes - {op.id},
            starting := if op.id in s.starting && s.starting[op.id] == i then s.starting - {op.id} else s.starting)
  }

  function OpenStorage(s: State, i: nat): State
    requires i < |s.ops|
  {
    var op := s.ops[i];
    var restored := if op.id in s.restoring then Some(s.restoring[op.id]) else None;
    SetOp(s, i, op.(phase := Creating, storageOpen := true, restored := restored))
      .(log := s.log + [Opened(op.id, i)])
  }

  function DoLoad(s: State, i: nat, ok: bool, matches: bool): State
    requires i < |s.ops|
  {
    if !ok || s.ops[i].cancelled then Unwind(s, i)
    else
      var loaded := OpenStorage(s, i);
      if s.ops[i].id in s.restoring && !matches then Unwind(loaded, i) else loaded
  }

  function DoCreate(s: State, i: nat, ok: bool): State
    requires i < |s.ops|
  {
    if !ok then Unwind(s, i)
    else
      var created := SetOp(s, i, s.ops[i].(container := Running));
      if s.ops[i].cancelled then Unwind(created, i)
      else SetOp(created, i, created.ops[i].(phase := Starting)).(scopes := s.scopes[s.ops[i].id := i])
  }

  function DoPlace(s: State, i: nat, ok: bool): State
    requires i < |s.ops|
  {
    if !ok || s.ops[i].cancelled then Unwind(s, i)
    else
      SetOp(s, i, s.ops[i].(phase := Live)).(
        live := s.live[s.ops[i].id := i],
        starting := s.starting - {s.ops[i].id},
        restoring := s.restoring - {s.ops[i].id})
  }

  /** `abort`: a live placement ends at once; one that is starting is cancelled, and unwinds by itself. */
  function DoAbort(s: State, id: nat): State {
    if id in s.live && s.live[id] < |s.ops| then
      var i := s.live[id];
      var op := s.ops[i];
      CloseStorage(SetOp(s, i, op.(container := StopContainer(op.container), phase := Ended)), i)
        .(live := s.live - {id}, scopes := s.scopes - {id})
    else if id in s.starting && s.starting[id] < |s.ops| then
      var i := s.starting[id];
      var op := s.ops[i];
      var container := if id in s.scopes && s.scopes[id] == i then StopContainer(op.container) else op.container;
      SetOp(s, i, op.(cancelled := true, container := container)).(scopes := s.scopes - {id})
    else s.(scopes := s.scopes - {id})
  }

  predicate InPhase(s: State, i: nat, phase: Phase) {
    i < |s.ops| && s.ops[i].phase == phase
  }

  predicate Enabled(s: State, event: Event) {
    match event
    case Attach(_) => s.live == map[] && s.starting == map[]
    case Start(_) => true
    case RestartAfter(index) =>
      index < |s.waiting| && (InPhase(s, s.waiting[index].prior, Ended) || InPhase(s, s.waiting[index].prior, Live))
    case LoadSettled(i, _, _) => InPhase(s, i, Loading)
    case CreateSettled(i, _) => InPhase(s, i, Creating)
    case StartSettled(i, _) => InPhase(s, i, Starting)
    case Abort(_) => true
  }

  function Step(s: State, event: Event): State
    requires Enabled(s, event)
  {
    match event
    case Attach(restoring) => s.(attached := true, restoring := restoring)
    case Start(id) => DoStart(s, id)
    case RestartAfter(index) =>
      DoStart(s.(waiting := s.waiting[..index] + s.waiting[index + 1..]), s.waiting[index].id)
    case LoadSettled(i, ok, matches) => DoLoad(s, i, ok, matches)
    case CreateSettled(i, ok) => DoCreate(s, i, ok)
    case StartSettled(i, ok) => DoPlace(s, i, ok)
    case Abort(id) => DoAbort(s, id)
  }

  predicate Possible(s: State, events: seq<Event>)
    decreases |events|
  {
    events == [] || (Enabled(s, events[0]) && Possible(Step(s, events[0]), events[1..]))
  }

  function Run(s: State, events: seq<Event>): State
    requires Possible(s, events)
    decreases |events|
  {
    if events == [] then s else Run(Step(s, events[0]), events[1..])
  }
}

module ActorTreeTheorems {
  import opened Prelude
  import opened ActorTreeModel

  predicate IsStarting(op: Op) {
    op.phase == Loading || op.phase == Creating || op.phase == Starting
  }

  predicate Registered(s: State, i: nat) {
    i < |s.ops| &&
    (if IsStarting(s.ops[i]) then s.ops[i].id in s.starting && s.starting[s.ops[i].id] == i
     else if s.ops[i].phase == Live then s.ops[i].id in s.live && s.live[s.ops[i].id] == i
     else true)
  }

  /** What a start holds in each of its phases. */
  predicate Holds(s: State, i: nat) {
    i < |s.ops| &&
    var op := s.ops[i];
    && (op.storageOpen <==> op.phase == Creating || op.phase == Starting || op.phase == Live)
    && (op.phase == Loading || op.phase == Creating ==> op.container == Absent)
    && (op.phase == Live ==> op.container == Running && !op.cancelled)
    && (op.phase == Starting && !op.cancelled ==> op.container == Running)
    && (op.phase == Starting && op.cancelled ==> op.container == Aborted)
    && (op.phase == Ended ==> op.container != Running)
    && (op.phase == Creating || op.phase == Starting ==>
          op.id in s.restoring ==> op.restored == Some(s.restoring[op.id]))
  }

  predicate Scoped(s: State, i: nat) {
    i < |s.ops| &&
    ((s.ops[i].id in s.scopes && s.scopes[s.ops[i].id] == i)
     <==> s.ops[i].phase == Live || (s.ops[i].phase == Starting && !s.ops[i].cancelled))
  }

  ghost predicate MapsOk(s: State) {
    && (forall id :: id in s.starting ==>
          s.starting[id] < |s.ops| && s.ops[s.starting[id]].id == id && IsStarting(s.ops[s.starting[id]]))
    && (forall id :: id in s.live ==>
          s.live[id] < |s.ops| && s.ops[s.live[id]].id == id && s.ops[s.live[id]].phase == Live)
    && (forall id :: id in s.scopes ==> s.scopes[id] < |s.ops| && s.ops[s.scopes[id]].id == id)
    && (forall id :: id in s.live ==> id !in s.starting)
  }

  ghost predicate OpsOk(s: State) {
    forall i: nat :: i < |s.ops| ==> Registered(s, i) && Holds(s, i) && Scoped(s, i)
  }

  ghost predicate WaitingOk(s: State) {
    forall w :: w in s.waiting ==> w.prior < |s.ops| && s.ops[w.prior].cancelled && s.ops[w.prior].id == w.id
  }

  // ---------- The storage log

  datatype Holder = Nobody | By(op: nat) | Clash

  /** Who has a facet's storage open after these events; `Clash` once two had, or one closed another's. */
  function HolderOf(log: seq<StorageEvent>, id: nat): Holder {
    if log == [] then Nobody
    else
      var before, last := HolderOf(log[..|log| - 1], id), log[|log| - 1];
      if last.id != id then before
      else
        match last
        case Opened(_, op) => if before == Nobody then By(op) else Clash
        case Closed(_, op) => if before == By(op) then Nobody else Clash
  }

  /** The start whose storage is open is the log's holder; when there is none, nobody is. */
  ghost predicate LogOk(s: State) {
    forall id: nat ::
      && HolderOf(s.log, id) != Clash
      && (forall i: nat :: i < |s.ops| && s.ops[i].id == id && s.ops[i].storageOpen ==> HolderOf(s.log, id) == By(i))
      && (HolderOf(s.log, id).By? ==>
            var i := HolderOf(s.log, id).op; i < |s.ops| && s.ops[i].id == id && s.ops[i].storageOpen)
  }

  ghost predicate Inv(s: State) {
    MapsOk(s) && OpsOk(s) && WaitingOk(s) && LogOk(s)
  }

  lemma LogAppend(log: seq<StorageEvent>, event: StorageEvent, id: nat)
    ensures HolderOf(log + [event], id) ==
      if event.id != id then HolderOf(log, id)
      else if event.Opened? then (if HolderOf(log, id) == Nobody then By(event.op) else Clash)
      else (if HolderOf(log, id) == By(event.op) then Nobody else Clash)
  {
    assert (log + [event])[..|log|] == log;
  }

  /** A start's storage, closed: the log says so. */
  lemma CloseKeepsLog(s: State, i: nat)
    requires LogOk(s) && i < |s.ops|
    ensures LogOk(CloseStorage(s, i))
  {
    var t := CloseStorage(s, i);
    if s.ops[i].storageOpen {
      forall id: nat
        ensures HolderOf(t.log, id) == if id == s.ops[i].id then Nobody else HolderOf(s.log, id)
      {
        LogAppend(s.log, Closed(s.ops[i].id, i), id);
      }
      forall id: nat, j: nat | j < |t.ops| && t.ops[j].id == id && t.ops[j].storageOpen
        ensures HolderOf(t.log, id) == By(j)
      {
        assert s.ops[j].storageOpen && s.ops[j].id == id;
      }
    }
  }

  lemma OpenKeepsLog(s: State, i: nat)
    requires LogOk(s) && i < |s.ops|
    requires forall j: nat :: j < |s.ops| && s.ops[j].id == s.ops[i].id ==> !s.ops[j].storageOpen
    ensures LogOk(OpenStorage(s, i))
  {
    var t := OpenStorage(s, i);
    var own := s.ops[i].id;
    assert HolderOf(s.log, own) == Nobody;
    forall id: nat ensures HolderOf(t.log, id) == if id == own then By(i) else HolderOf(s.log, id) {
      LogAppend(s.log, Opened(own, i), id);
    }
  }

  /** Changing a start without its storage leaves the log true. */
  lemma QuietKeepsLog(s: State, t: State)
    requires LogOk(s) && t.log == s.log && |t.ops| >= |s.ops|
    requires forall j: nat :: j < |s.ops| ==> t.ops[j].id == s.ops[j].id && t.ops[j].storageOpen == s.ops[j].storageOpen
    requires forall j: nat :: |s.ops| <= j < |t.ops| ==> !t.ops[j].storageOpen
    ensures LogOk(t)
  {
  }

  /** Of one facet's starts at most one is not over. */
  lemma AtMostOne(s: State, i: nat, j: nat)
    requires MapsOk(s) && OpsOk(s) && i < |s.ops| && j < |s.ops| && s.ops[i].id == s.ops[j].id
    requires s.ops[i].phase != Ended && s.ops[j].phase != Ended
    ensures i == j
  {
    assert Registered(s, i) && Registered(s, j);
  }

  // ---------- Each step

  lemma BeginKeepsInv(s: State, id: nat)
    requires Inv(s) && id !in s.live && id !in s.starting
    ensures Inv(Begin(s, id))
  {
    var t := Begin(s, id);
    forall i: nat | i < |t.ops| ensures Registered(t, i) && Holds(t, i) && Scoped(t, i) {
      if i < |s.ops| {
        assert Registered(s, i) && Holds(s, i) && Scoped(s, i);
      }
    }
    QuietKeepsLog(s, t);
  }

  /** Only the list of waiting restarts changed. */
  lemma SamePlacements(s: State, t: State)
    requires Inv(s) && WaitingOk(t)
    requires t.ops == s.ops && t.live == s.live && t.starting == s.starting && t.scopes == s.scopes
    requires t.restoring == s.restoring && t.log == s.log
    ensures Inv(t)
  {
    forall i: nat | i < |t.ops| ensures Registered(t, i) && Holds(t, i) && Scoped(t, i) {
      assert Registered(s, i) && Holds(s, i) && Scoped(s, i);
    }
    QuietKeepsLog(s, t);
  }

  lemma StartKeepsInv(s: State, id: nat)
    requires Inv(s)
    ensures Inv(DoStart(s, id))
  {
    if id in s.live {
    } else if id in s.starting {
      SamePlacements(s, DoStart(s, id));
    } else if s.attached {
      BeginKeepsInv(s, id);
    }
  }

  /** One start changed, with the maps' entries for its facet; the others are as they were. */
  lemma OneChanged(s: State, t: State, i: nat)
    requires Inv(s) && i < |s.ops| && |t.ops| == |s.ops| && s.ops[i].phase != Ended
    requires t.ops[i].id == s.ops[i].id && t.attached == s.attached && t.waiting == s.waiting
    requires s.ops[i].cancelled ==> t.ops[i].cancelled
    requires forall j: nat :: j < |s.ops| && j != i ==> t.ops[j] == s.ops[j]
    requires OthersSame(s, t, s.ops[i].id) && OwnMaps(t, i)
    requires Holds(t, i) && LogOk(t)
    ensures Inv(t)
  {
    forall j: nat | j < |t.ops| ensures Registered(t, j) && Holds(t, j) && Scoped(t, j) {
      if j != i {
        OtherUnchanged(s, t, i, j);
      }
    }
    OneChangedMaps(s, t, i);
  }

  /** Every other facet's map entries are as they were. */
  ghost predicate OthersSame(s: State, t: State, own: nat) {
    forall id: nat :: id != own ==>
      && (id in t.starting <==> id in s.starting) && (id in s.starting ==> t.starting[id] == s.starting[id])
      && (id in t.live <==> id in s.live) && (id in s.live ==> t.live[id] == s.live[id])
      && (id in t.scopes <==> id in s.scopes) && (id in s.scopes ==> t.scopes[id] == s.scopes[id])
      && (id in t.restoring <==> id in s.restoring) && (id in s.restoring ==> t.restoring[id] == s.restoring[id])
  }

  /** A facet's map entries are those its start, in its phase, should have. */
  predicate OwnMaps(t: State, i: nat) {
    i < |t.ops| &&
    var id := t.ops[i].id;
    && (id in t.starting <==> IsStarting(t.ops[i])) && (id in t.starting ==> t.starting[id] == i)
    && (id in t.live <==> t.ops[i].phase == Live) && (id in t.live ==> t.live[id] == i)
    && (id in t.scopes <==> t.ops[i].phase == Live || (t.ops[i].phase == Starting && !t.ops[i].cancelled))
    && (id in t.scopes ==> t.scopes[id] == i)
  }

  lemma OtherUnchanged(s: State, t: State, i: nat, j: nat)
    requires MapsOk(s) && OpsOk(s) && i < |s.ops| && j < |s.ops| && j != i && |t.ops| == |s.ops|
    requires s.ops[i].phase != Ended && t.ops[j] == s.ops[j] && t.ops[i].id == s.ops[i].id
    requires OthersSame(s, t, s.ops[i].id) && OwnMaps(t, i)
    ensures Registered(t, j) && Holds(t, j) && Scoped(t, j)
  {
    assert Registered(s, j) && Holds(s, j) && Scoped(s, j);
    if s.ops[j].id == s.ops[i].id && s.ops[j].phase != Ended {
      AtMostOne(s, i, j);
    }
  }

  lemma OneChangedMaps(s: State, t: State, i: nat)
    requires MapsOk(s) && i < |s.ops| && |t.ops| == |s.ops| && t.ops[i].id == s.ops[i].id
    requires forall j: nat :: j < |s.ops| && j != i ==> t.ops[j] == s.ops[j]
    requires OthersSame(s, t, s.ops[i].id) && OwnMaps(t, i)
    ensures MapsOk(t)
  {
    var own := s.ops[i].id;
    forall id | id in t.starting
      ensures t.starting[id] < |t.ops| && t.ops[t.starting[id]].id == id && IsStarting(t.ops[t.starting[id]])
    {
      if id != own {
        assert id in s.starting && s.ops[s.starting[id]].id == id;
      }
    }
    forall id | id in t.live
      ensures t.live[id] < |t.ops| && t.ops[t.live[id]].id == id && t.ops[t.live[id]].phase == Live
      ensures id !in t.starting
    {
      if id != own {
        assert id in s.live && s.ops[s.live[id]].id == id;
      }
    }
    forall id | id in t.scopes ensures t.scopes[id] < |t.ops| && t.ops[t.scopes[id]].id == id {
      if id != own {
        assert id in s.scopes && s.ops[s.scopes[id]].id == id;
      }
    }
  }

  /** What the maps say of a start that is not over. */
  lemma OwnEntries(s: State, i: nat)
    requires MapsOk(s) && OpsOk(s) && i < |s.ops| && s.ops[i].phase != Ended
    ensures OwnMaps(s, i) && Holds(s, i)
  {
    var id := s.ops[i].id;
    assert Registered(s, i) && Holds(s, i) && Scoped(s, i);
    if id in s.scopes {
      var j := s.scopes[id];
      assert Scoped(s, j);
      AtMostOne(s, i, j);
    }
  }

  lemma UnwindKeepsInv(s: State, i: nat)
    requires Inv(s) && i < |s.ops| && IsStarting(s.ops[i])
    ensures Inv(Unwind(s, i))
  {
    UnwindKeepsLog(s, i);
    UnwindsItself(s, i);
    hide LogOk, MapsOk, OpsOk, OthersSame, OwnMaps, Holds, Unwind;
    OneChanged(s, Unwind(s, i), i);
  }

  lemma UnwindKeepsLog(s: State, i: nat)
    requires LogOk(s) && i < |s.ops|
    ensures LogOk(Unwind(s, i))
  {
    var op := s.ops[i];
    var ended := SetOp(s, i, op.(container := StopContainer(op.container), phase := Ended));
    QuietKeepsLog(s, ended);
    CloseKeepsLog(ended, i);
    QuietKeepsLog(CloseStorage(ended, i), Unwind(s, i));
  }

  /** Unwinding ends the start, takes its own map entries and touches no other start or facet. */
  lemma UnwindsItself(s: State, i: nat)
    requires MapsOk(s) && OpsOk(s) && i < |s.ops| && IsStarting(s.ops[i])
    ensures var t := Unwind(s, i);
      && |t.ops| == |s.ops| && t.ops[i].id == s.ops[i].id && t.ops[i].cancelled == s.ops[i].cancelled
      && t.attached == s.attached && t.waiting == s.waiting
      && (forall j: nat :: j < |s.ops| && j != i ==> t.ops[j] == s.ops[j])
      && OthersSame(s, t, s.ops[i].id) && OwnMaps(t, i) && Holds(t, i)
  {
    OwnEntries(s, i);
    hide MapsOk, OpsOk;
    UnwindsOwnMaps(s, i);
    UnwindsNoOther(s, i);
    hide OwnMaps, OthersSame;
  }

  lemma UnwindsNoOther(s: State, i: nat)
    requires i < |s.ops|
    ensures OthersSame(s, Unwind(s, i), s.ops[i].id)
  {
  }

  lemma UnwindsOwnMaps(s: State, i: nat)
    requires i < |s.ops| && IsStarting(s.ops[i]) && OwnMaps(s, i)
    ensures OwnMaps(Unwind(s, i), i)
  {
  }

  lemma OpenKeepsInv(s: State, i: nat)
    requires Inv(s) && i < |s.ops| && s.ops[i].phase == Loading && !s.ops[i].cancelled
    ensures Inv(OpenStorage(s, i)) && OpenStorage(s, i).ops[i].phase == Creating
  {
    OwnEntries(s, i);
    forall j: nat | j < |s.ops| && s.ops[j].id == s.ops[i].id ensures !s.ops[j].storageOpen {
      assert Holds(s, j);
      if s.ops[j].phase != Ended {
        AtMostOne(s, i, j);
      }
    }
    OpenKeepsLog(s, i);
    OneChanged(s, OpenStorage(s, i), i);
  }

  lemma LoadKeepsInv(s: State, i: nat, ok: bool, matches: bool)
    requires Inv(s) && InPhase(s, i, Loading)
    ensures Inv(DoLoad(s, i, ok, matches))
  {
    UnwindKeepsInv(s, i);
    if ok && !s.ops[i].cancelled {
      OpenKeepsInv(s, i);
      UnwindKeepsInv(OpenStorage(s, i), i);
    }
  }

  /** The container was created and the start was not aborted meanwhile. */
  function Contained(s: State, i: nat): State
    requires i < |s.ops|
  {
    SetOp(s, i, s.ops[i].(container := Running, phase := Starting)).(scopes := s.scopes[s.ops[i].id := i])
  }

  lemma ContainedKeepsInv(s: State, i: nat)
    requires Inv(s) && InPhase(s, i, Creating) && !s.ops[i].cancelled
    ensures Inv(Contained(s, i))
  {
    OwnEntries(s, i);
    QuietKeepsLog(s, Contained(s, i));
    OneChanged(s, Contained(s, i), i);
  }

  lemma CreateKeepsInv(s: State, i: nat, ok: bool)
    requires Inv(s) && InPhase(s, i, Creating)
    ensures Inv(DoCreate(s, i, ok))
  {
    UnwindKeepsInv(s, i);
    if ok {
      if s.ops[i].cancelled {
        CancelledCreateKeepsInv(s, i);
      } else {
        ContainedKeepsInv(s, i);
        assert DoCreate(s, i, ok).ops == Contained(s, i).ops;
        assert DoCreate(s, i, ok) == Contained(s, i);
      }
    }
  }

  /** A container created for an aborted start is stopped again as the start unwinds. */
  lemma CancelledCreateKeepsInv(s: State, i: nat)
    requires Inv(s) && InPhase(s, i, Creating)
    ensures Inv(Unwind(SetOp(s, i, s.ops[i].(container := Running)), i))
  {
    OwnEntries(s, i);
    var created := SetOp(s, i, s.ops[i].(container := Running));
    var ended := SetOp(created, i, created.ops[i].(container := Aborted, phase := Ended));
    QuietKeepsLog(s, ended);
    CloseKeepsLog(ended, i);
    var t := Unwind(created, i);
    QuietKeepsLog(CloseStorage(ended, i), t);
    OneChanged(s, t, i);
  }

  lemma PlaceKeepsInv(s: State, i: nat, ok: bool)
    requires Inv(s) && InPhase(s, i, Starting)
    ensures Inv(DoPlace(s, i, ok))
  {
    UnwindKeepsInv(s, i);
    if ok && !s.ops[i].cancelled {
      OwnEntries(s, i);
      QuietKeepsLog(s, DoPlace(s, i, ok));
      OneChanged(s, DoPlace(s, i, ok), i);
    }
  }

  lemma AbortLiveKeepsInv(s: State, id: nat)
    requires Inv(s) && id in s.live
    ensures Inv(DoAbort(s, id))
  {
    var i := s.live[id];
    OwnEntries(s, i);
    var op := s.ops[i];
    var ended := SetOp(s, i, op.(container := StopContainer(op.container), phase := Ended));
    QuietKeepsLog(s, ended);
    CloseKeepsLog(ended, i);
    var t := DoAbort(s, id);
    QuietKeepsLog(CloseStorage(ended, i), t);
    OneChanged(s, t, i);
  }

  lemma AbortStartingKeepsInv(s: State, id: nat)
    requires Inv(s) && id !in s.live && id in s.starting
    ensures Inv(DoAbort(s, id))
  {
    var i := s.starting[id];
    OwnEntries(s, i);
    QuietKeepsLog(s, DoAbort(s, id));
    OneChanged(s, DoAbort(s, id), i);
  }

  lemma AbortKeepsInv(s: State, id: nat)
    requires Inv(s)
    ensures Inv(DoAbort(s, id))
  {
    if id in s.live {
      AbortLiveKeepsInv(s, id);
    } else if id in s.starting {
      AbortStartingKeepsInv(s, id);
    } else {
      assert id in s.scopes ==> Scoped(s, s.scopes[id]) && Registered(s, s.scopes[id]);
      assert DoAbort(s, id).scopes == s.scopes;
    }
  }

  lemma AttachKeepsInv(s: State, restoring: map<nat, nat>)
    requires Inv(s) && Enabled(s, Attach(restoring))
    ensures Inv(Step(s, Attach(restoring)))
  {
    var t := Step(s, Attach(restoring));
    forall i: nat | i < |t.ops| ensures Registered(t, i) && Holds(t, i) && Scoped(t, i) {
      assert Registered(s, i) && Holds(s, i) && Scoped(s, i);
    }
    QuietKeepsLog(s, t);
  }

  lemma StepKeepsInv(s: State, event: Event)
    requires Inv(s) && Enabled(s, event)
    ensures Inv(Step(s, event))
  {
    match event
    case Attach(restoring) => AttachKeepsInv(s, restoring);
    case Start(id) => StartKeepsInv(s, id);
    case RestartAfter(index) =>
      var taken := s.(waiting := s.waiting[..index] + s.waiting[index + 1..]);
      SamePlacements(s, taken);
      StartKeepsInv(taken, s.waiting[index].id);
    case LoadSettled(i, ok, matches) => LoadKeepsInv(s, i, ok, matches);
    case CreateSettled(i, ok) => CreateKeepsInv(s, i, ok);
    case StartSettled(i, ok) => PlaceKeepsInv(s, i, ok);
    case Abort(id) => AbortKeepsInv(s, id);
  }

  lemma {:induction false} RunKeepsInv(s: State, events: seq<Event>)
    requires Inv(s) && Possible(s, events)
    ensures Inv(Run(s, events))
    decreases |events|
  {
    if events == [] {
    } else {
      StepKeepsInv(s, events[0]);
      RunKeepsInv(Step(s, events[0]), events[1..]);
    }
  }

  // ---------- Theorems

  /** Of one facet's starts at most one is live or under way, an aborted one that still unwinds included. */
  lemma OnePlacementPerFacet(events: seq<Event>, i: nat, j: nat)
    requires Possible(INITIAL, events)
    requires var s := Run(INITIAL, events);
      && i < |s.ops| && j < |s.ops| && s.ops[i].id == s.ops[j].id
      && s.ops[i].phase != Ended && s.ops[j].phase != Ended
    ensures i == j
  {
    RunKeepsInv(INITIAL, events);
    AtMostOne(Run(INITIAL, events), i, j);
  }

  /**
   * A facet's storage is never opened by one placement before the one that had it open closed it,
   * nor closed by another, over the whole history; and whoever has it open now is live or under way.
   */
  lemma StorageChangesHands(events: seq<Event>, id: nat)
    requires Possible(INITIAL, events)
    ensures var s := Run(INITIAL, events); var holder := HolderOf(s.log, id);
      && holder != Clash
      && (holder.By? ==>
            && holder.op < |s.ops| && s.ops[holder.op].id == id
            && (if s.ops[holder.op].phase == Live then id in s.live && s.live[id] == holder.op
                else id in s.starting && s.starting[id] == holder.op))
      && (id !in s.live && id !in s.starting ==> holder == Nobody)
  {
    RunKeepsInv(INITIAL, events);
    var s := Run(INITIAL, events);
    var holder := HolderOf(s.log, id);
    if holder.By? {
      assert Holds(s, holder.op) && Registered(s, holder.op);
    }
  }

  /** A start that was aborted never goes live, and one that is over holds no container and no storage. */
  lemma AbortedStartsUnwind(events: seq<Event>, i: nat)
    requires Possible(INITIAL, events) && i < |Run(INITIAL, events).ops|
    ensures var op := Run(INITIAL, events).ops[i];
      && (op.cancelled ==> op.phase != Live)
      && (op.phase == Ended ==> !op.storageOpen && op.container != Running)
      && (op.phase == Live ==> op.storageOpen && op.container == Running)
  {
    RunKeepsInv(INITIAL, events);
    assert Holds(Run(INITIAL, events), i);
  }

  /** A restart starts over only once the aborted start it found has unwound and closed what it opened. */
  lemma RestartFollowsUnwinding(events: seq<Event>, index: nat)
    requires Possible(INITIAL, events) && Enabled(Run(INITIAL, events), RestartAfter(index))
    ensures var s := Run(INITIAL, events); var w := s.waiting[index];
      && s.ops[w.prior].id == w.id && s.ops[w.prior].phase == Ended
      && HolderOf(s.log, w.id) != By(w.prior)
  {
    RunKeepsInv(INITIAL, events);
    var s := Run(INITIAL, events);
    assert s.waiting[index] in s.waiting;
    assert Holds(s, s.waiting[index].prior);
  }

  /** A facet's scope resolves to a running container, that of its placement, or to none. */
  lemma ScopeNamesThePlacement(events: seq<Event>, id: nat)
    requires Possible(INITIAL, events) && id in Run(INITIAL, events).scopes
    ensures var s := Run(INITIAL, events); var i := s.scopes[id];
      && i < |s.ops| && s.ops[i].id == id && s.ops[i].container == Running && !s.ops[i].cancelled
      && ((id in s.live && s.live[id] == i) || (id in s.starting && s.starting[id] == i))
  {
    RunKeepsInv(INITIAL, events);
    var s := Run(INITIAL, events);
    var i := s.scopes[id];
    assert Scoped(s, i) && Holds(s, i) && Registered(s, i);
  }

  /** A hibernated facet's snapshot is given up only to a placement that was created from it and is live. */
  lemma SnapshotIsHandedOver(events: seq<Event>, event: Event, id: nat)
    requires Possible(INITIAL, events) && Enabled(Run(INITIAL, events), event) && !event.Attach?
    requires id in Run(INITIAL, events).restoring && id !in Step(Run(INITIAL, events), event).restoring
    ensures var s := Run(INITIAL, events); var t := Step(s, event);
      id in t.live && t.live[id] < |t.ops| && t.ops[t.live[id]].restored == Some(s.restoring[id])
  {
    RunKeepsInv(INITIAL, events);
    OnlyPlacingGivesUp(Run(INITIAL, events), event, id);
  }

  lemma OnlyPlacingGivesUp(s: State, event: Event, id: nat)
    requires Inv(s) && Enabled(s, event) && !event.Attach?
    requires id in s.restoring && id !in Step(s, event).restoring
    ensures var t := Step(s, event);
      id in t.live && t.live[id] < |t.ops| && t.ops[t.live[id]].restored == Some(s.restoring[id])
  {
    if event.StartSettled? {
      PlacingHandsOver(s, event.op, event.ok, id);
    } else {
      OthersKeepSnapshots(s, event);
    }
  }

  lemma UnwindKeepsSnapshots(s: State, i: nat)
    requires i < |s.ops|
    ensures Unwind(s, i).restoring == s.restoring
  {
  }

  lemma OthersKeepSnapshots(s: State, event: Event)
    requires Enabled(s, event) && !event.Attach? && !event.StartSettled?
    ensures Step(s, event).restoring == s.restoring
  {
    hide Unwind;
    match event
    case LoadSettled(i, _, _) =>
      UnwindKeepsSnapshots(s, i);
      UnwindKeepsSnapshots(OpenStorage(s, i), i);
    case CreateSettled(i, _) =>
      UnwindKeepsSnapshots(s, i);
      UnwindKeepsSnapshots(SetOp(s, i, s.ops[i].(container := Running)), i);
    case Abort(id) => AbortKeepsSnapshots(s, id);
    case _ =>
  }

  lemma AbortKeepsSnapshots(s: State, id: nat)
    ensures DoAbort(s, id).restoring == s.restoring
  {
  }

  lemma PlacingHandsOver(s: State, i: nat, ok: bool, id: nat)
    requires Inv(s) && InPhase(s, i, Starting) && id in s.restoring && id !in DoPlace(s, i, ok).restoring
    ensures var t := DoPlace(s, i, ok);
      id in t.live && t.live[id] < |t.ops| && t.ops[t.live[id]].restored == Some(s.restoring[id])
  {
    hide LogOk;
    assert Holds(s, i);
  }

  /** An aborted facet is not live, and its start, if one is under way, is cancelled. */
  lemma AbortEnds(s: State, id: nat)
    requires MapsOk(s)
    ensures var t := DoAbort(s, id);
      && t.live == s.live - {id} && t.starting == s.starting && |t.ops| == |s.ops|
      && (id !in s.live && id in s.starting ==> t.ops[t.starting[id]].cancelled)
      && (forall j: nat :: j < |s.ops| && s.ops[j].cancelled ==> t.ops[j].cancelled)
  {
    assert id !in s.live ==> s.live - {id} == s.live;
  }

  /** All facets but those in `rest` were aborted. */
  ghost predicate Closing(s: State, rest: set<nat>) {
    && (forall id :: id in s.live ==> id in rest)
    && (forall id :: id in s.starting && id !in rest ==>
          s.starting[id] < |s.ops| && s.ops[s.starting[id]].cancelled)
  }

  lemma ClosingOneMore(s: State, id: nat, rest: set<nat>)
    requires Inv(s) && Closing(s, rest)
    ensures Inv(DoAbort(s, id)) && Closing(DoAbort(s, id), rest - {id}) && DoAbort(s, id).starting == s.starting
  {
    AbortKeepsInv(s, id);
    AbortEnds(s, id);
    hide DoAbort;
    hide OpsOk;
    hide LogOk;
  }

  lemma AllClosed(s: State)
    requires Closing(s, {})
    ensures s.live == map[]
    ensures forall id :: id in s.starting ==> s.starting[id] < |s.ops| && s.ops[s.starting[id]].cancelled
  {
    assert s.live.Keys == {};
  }

  /** Whatever is under way, aborting every facet and letting the starts settle leaves no storage open. */
  lemma NothingIsLeftOpen(events: seq<Event>, i: nat)
    requires Possible(INITIAL, events) && i < |Run(INITIAL, events).ops|
    requires Run(INITIAL, events).live == map[] && Run(INITIAL, events).starting == map[]
    ensures var op := Run(INITIAL, events).ops[i];
      op.phase == Ended && !op.storageOpen && op.container != Running
  {
    RunKeepsInv(INITIAL, events);
    assert Registered(Run(INITIAL, events), i) && Holds(Run(INITIAL, events), i);
  }
}

module ActorTree {
  import opened Prelude
  import opened ActorTreeModel
  import opened ActorTreeTheorems

  /** What `start` hands back: a placement's own promises, or those of a start yet to come. */
  datatype Handle = Placed(op: nat) | Later(restart: nat) | NotAttached

  class BrowserActorTree {
    var attached: bool
    var live: map<nat, nat>
    var starting: map<nat, nat>
    var scopes: map<nat, nat>
    var ops: seq<Op>
    var waiting: seq<Restart>
    var restoring: map<nat, nat>
    ghost var log: seq<StorageEvent>

    ghost function Model(): State
      reads this
    {
      State(attached, live, starting, scopes, ops, waiting, restoring, log)
    }

    constructor ()
      ensures Model() == INITIAL
    {
      attached, live, starting, scopes := false, map[], map[], map[];
      ops, waiting, restoring, log := [], [], map[], [];
    }

    method AttachTree(snapshots: map<nat, nat>) returns (threw: bool)
      modifies this
      ensures threw <==> !Enabled(old(Model()), Attach(snapshots))
      ensures Model() == if threw then old(Model()) else Step(old(Model()), Attach(snapshots))
    {
      if live != map[] || starting != map[] {
        return true;
      }
      attached, restoring := true, snapshots;
      threw := false;
    }

    method StartFacet(id: nat) returns (handle: Handle)
      requires forall k :: k in starting ==> starting[k] < |ops|
      modifies this
      ensures Model() == Step(old(Model()), Start(id))
      ensures id in old(live) ==> handle == Placed(old(live)[id])
      ensures id !in old(live) && id in old(starting) ==>
        var prior := old(starting)[id];
        handle == if old(ops)[prior].cancelled then Later(|old(waiting)|) else Placed(prior)
      ensures id !in old(live) && id !in old(starting) ==>
        handle == if attached then Placed(|old(ops)|) else NotAttached
    {
      if id in live {
        return Placed(live[id]);
      }
      if id in starting {
        var prior := starting[id];
        if !ops[prior].cancelled {
          return Placed(prior);
        }
        waiting := waiting + [Restart(id, prior)];
        return Later(|waiting| - 1);
      }
      if !attached {
        return NotAttached;
      }
      starting := starting[id := |ops|];
      ops := ops + [Op(id, false, Loading, false, Absent, None)];
      handle := Placed(|ops| - 1);
    }

    /** The disposables of a failed start, in their order, and its `finally`. */
    method UnwindStart(i: nat)
      requires i < |ops|
      modifies this
      ensures Model() == Unwind(old(Model()), i)
    {
      var op := ops[i];
      ops := ops[i := op.(container := StopContainer(op.container), phase := Ended)];
      CloseOwnStorage(i);
      scopes := scopes - {op.id};
      if op.id in starting && starting[op.id] == i {
        starting := starting - {op.id};
      }
    }

    method CloseOwnStorage(i: nat)
      requires i < |ops|
      modifies this`ops, this`log
      ensures Model() == CloseStorage(old(Model()), i)
    {
      if ops[i].storageOpen {
        log := log + [Closed(ops[i].id, i)];
        ops := ops[i := ops[i].(storageOpen := false)];
      }
    }

    /** `load` settled. */
    method Loaded(i: nat, ok: bool, matches: bool)
      requires Enabled(Model(), LoadSettled(i, ok, matches))
      modifies this
      ensures Model() == Step(old(Model()), LoadSettled(i, ok, matches))
    {
      var op := ops[i];
      if !ok || op.cancelled {
        UnwindStart(i);
        return;
      }
      var restored := if op.id in restoring then Some(restoring[op.id]) else None;
      ops := ops[i := op.(phase := Creating, storageOpen := true, restored := restored)];
      log := log + [Opened(op.id, i)];
      if op.id in restoring && !matches {
        UnwindStart(i);
      }
    }

    /** `createActorContainer` settled. */
    method Created(i: nat, ok: bool)
      requires Enabled(Model(), CreateSettled(i, ok))
      modifies this
      ensures Model() == Step(old(Model()), CreateSettled(i, ok))
    {
      if !ok {
        UnwindStart(i);
        return;
      }
      ops := ops[i := ops[i].(container := Running)];
      if ops[i].cancelled {
        UnwindStart(i);
        return;
      }
      scopes := scopes[ops[i].id := i];
      ops := ops[i := ops[i].(phase := Starting)];
    }

    /** `container.start` settled. */
    method Started(i: nat, ok: bool)
      requires Enabled(Model(), StartSettled(i, ok))
      modifies this
      ensures Model() == Step(old(Model()), StartSettled(i, ok))
    {
      if !ok || ops[i].cancelled {
        UnwindStart(i);
        return;
      }
      var id := ops[i].id;
      ops := ops[i := ops[i].(phase := Live)];
      live := live[id := i];
      starting := starting - {id};
      restoring := restoring - {id};
    }

    method AbortFacet(id: nat)
      modifies this
      ensures Model() == Step(old(Model()), Abort(id))
    {
      if id in live && live[id] < |ops| {
        var i := live[id];
        live := live - {id};
        ops := ops[i := ops[i].(container := StopContainer(ops[i].container), phase := Ended)];
        CloseOwnStorage(i);
      } else if id in starting && starting[id] < |ops| {
        var i := starting[id];
        ops := ops[i := ops[i].(cancelled := true)];
        if id in scopes && scopes[id] == i {
          ops := ops[i := ops[i].(container := StopContainer(ops[i].container))];
        }
      }
      scopes := scopes - {id};
    }

    /** `closeAll`: nothing stays live, and every start under way is left to unwind. */
    method CloseAll()
      requires Inv(Model())
      modifies this
      ensures Inv(Model())
      ensures live == map[] && starting == old(starting)
      ensures forall id :: id in starting ==> starting[id] < |ops| && ops[starting[id]].cancelled
    {
      hide Inv;
      hide DoAbort;
      var rest := live.Keys + starting.Keys;
      assert Closing(Model(), rest);
      hide Closing;
      while rest != {}
        invariant Inv(Model()) && starting == old(starting) && Closing(Model(), rest)
        decreases |rest|
      {
        var id :| id in rest;
        ClosingOneMore(Model(), id, rest);
        AbortFacet(id);
        rest := rest - {id};
      }
      AllClosed(Model());
    }
  }
}
