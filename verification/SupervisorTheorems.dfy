/** The worker supervisor's promises, over every run from a new supervisor. */
module SupervisorTheorems {
  import opened Prelude
  import opened SupervisorModel
  import opened SupervisorInvariant
  import opened SupervisorRuns

  // ---- Frames ----

  /** Everything up to and including the first close. */
  function Cut(frames: seq<Frame>): seq<Frame> {
    if frames == [] then []
    else if frames[0].Close? then [frames[0]]
    else [frames[0]] + Cut(frames[1..])
  }

  lemma {:induction false} CutAtClose(frames: seq<Frame>, posted: seq<Frame>)
    requires posted <= frames && forall i :: 0 <= i < |posted| - 1 ==> !posted[i].Close?
    ensures posted <= Cut(frames)
    ensures EndsWithClose(posted) ==> posted == Cut(frames)
  {
    if posted != [] {
      if posted[0].Close? {
        assert |posted| == 1;
      } else {
        CutAtClose(frames[1..], posted[1..]);
        assert posted == [posted[0]] + posted[1..];
      }
    }
  }

  /**
   * Frames are posted in the order they were taken, once each, and never after a close. A live
   * socket has lost none; one that ended by its own close delivered everything up to it.
   */
  lemma FramesConserved(events: seq<Event>, i: nat)
    requires i < |Run(INITIAL, events).sockets|
    ensures var s := Run(INITIAL, events).sockets[i];
      && s.posted <= Cut(s.accepted)
      && (!s.closed ==> s.posted + s.pending == s.accepted && NoClose(s.posted))
      && (s.ending == Some(Delivered) ==> s.posted == Cut(s.accepted))
  {
    InitialOk();
    RunOk(INITIAL, events);
    var s := Run(INITIAL, events).sockets[i];
    CutAtClose(s.accepted, s.posted);
  }

  lemma EnsureWakes(st: State, key: Key, outcome: Outcome)
    requires Reachable(st) && !Quiet(st, key)
    ensures Ensure(st, key, outcome).1.Threw? ==> !outcome.Works? && key !in st.workers
  {
    assert !st.disposed && !Covered(st, key);
    IdentifyOk(st, key);
    if key !in st.workers { SpawnOk(Identify(st, key), key, outcome); }
  }

  lemma FrameIsTaken(st: State, s: nat, frame: Frame, outcome: Outcome)
    requires Reachable(st) && s < |st.sockets| && !st.sockets[s].closed && (st.sockets[s].closing ==> frame.Close?)
    ensures var (st', result) := Receive(st, s, frame, outcome);
      && |st'.sockets| == |st.sockets|
      && (result.Threw? ==> !outcome.Works? && st.sockets[s].key !in st.workers)
      && (result.Ok? ==> st'.sockets[s].accepted == st.sockets[s].accepted + [frame])
  {
    hide BarrierOk, QueueOk;
    var key := st.sockets[s].key;
    assert !Quiet(st, key);
    EnsureWakes(st, key, outcome);
    EnsureOk(st, key, outcome);
    var (awake, ensured) := Ensure(st, key, outcome);
    if ensured.Ok? { TakeOk(awake, s, frame, ensured.value); }
  }

  /** A frame a live socket may send is taken, whatever state its worker is in, unless starting the worker throws. */
  lemma FramesAreTaken(events: seq<Event>, s: nat, frame: Frame, outcome: Outcome)
    requires s < |Run(INITIAL, events).sockets|
    requires var socket := Run(INITIAL, events).sockets[s]; !socket.closed && (socket.closing ==> frame.Close?)
    ensures var st := Run(INITIAL, events); var (st', result) := Receive(st, s, frame, outcome);
      && |st'.sockets| == |st.sockets|
      && (result.Threw? ==> !outcome.Works? && st.sockets[s].key !in st.workers)
      && (result.Ok? ==> st'.sockets[s].accepted == st.sockets[s].accepted + [frame])
  {
    hide Reachable, Receive;
    InitialOk();
    RunOk(INITIAL, events);
    FrameIsTaken(Run(INITIAL, events), s, frame, outcome);
  }

  /** A ready worker that is not hibernating has every live socket attached and nothing held back. */
  lemma ReadyWorkerHoldsNothing(events: seq<Event>, key: Key, i: nat)
    ensures var st := Run(INITIAL, events);
      && key in st.workers && i < |st.sockets| && Live(st.sockets[i], key)
      ==>
      && st.workers[key] < |st.placements|
      && st.sockets[i].port.Some?
      && (st.placements[st.workers[key]].readyNow && st.placements[st.workers[key]].hibernation.None?
          ==> st.sockets[i].pending == [] && st.sockets[i].posted == st.sockets[i].accepted)
  {
    InitialOk();
    RunOk(INITIAL, events);
    assert KeyOk(Run(INITIAL, events), key);
  }

  // ---- What no step undoes ----

  ghost predicate SocketsContinue(a: seq<Socket>, b: seq<Socket>) {
    |a| <= |b| && forall i :: 0 <= i < |a| && a[i].closed ==> b[i] == a[i]
  }

  ghost predicate AttemptsContinue(a: seq<Attempt>, b: seq<Attempt>) {
    |a| <= |b| && forall i :: 0 <= i < |a| ==> b[i].placement == a[i].placement && (a[i].canceled ==> b[i].canceled)
  }

  ghost predicate EpochsGrow(a: map<Key, nat>, b: map<Key, nat>) {
    forall key :: key in a ==> key in b && a[key] <= b[key]
  }

  /** Closed sockets rest, canceled probes stay canceled, epochs never fall. */
  ghost predicate Continues(st: State, st': State) {
    && SocketsContinue(st.sockets, st'.sockets)
    && AttemptsContinue(st.attempts, st'.attempts)
    && EpochsGrow(st.identities, st'.identities)
  }

  /** `Continues`, and no `resolve()` call moved. */
  ghost predicate CallsRest(st: State, st': State) {
    Continues(st, st') && st'.resolves == st.resolves
  }

  lemma Chain(a: State, b: State, c: State)
    requires CallsRest(a, b) && CallsRest(b, c)
    ensures CallsRest(a, c)
  {
  }

  lemma DiscardRests(st: State, p: nat, keepSockets: bool)
    ensures CallsRest(st, Discard(st, p, keepSockets))
  {
  }

  lemma {:induction false} RehydratedRests(sockets: seq<Socket>, key: Key, ids: seq<string>)
    ensures |Rehydrated(sockets, key, ids).0| == |sockets|
    ensures SocketsContinue(sockets, Rehydrated(sockets, key, ids).0)
    decreases |ids|
  {
    if ids != [] {
      var s := Transport(sockets, key, ids[0]);
      if s.Some? { RehydratedRests(sockets[s.value := Attach(sockets[s.value])], key, ids[1..]); }
    }
  }

  lemma SpawnRests(st: State, key: Key, outcome: Outcome)
    ensures CallsRest(st, Spawn(st, key, outcome).0)
  {
    if !outcome.CreateFails? {
      var p := |st.placements|;
      var started := Started(st, key, st.sockets);
      var restored :=
        if key !in st.hibernated then started
        else if !Describes(st.sockets, key, st.hibernated[key]) then
          Started(st, key, EndAll(st.sockets, key, Close(1011, "Worker snapshot no longer matches its transports")))
        else Started(st, key, Rehydrated(st.sockets, key, Ids(st.hibernated[key])).0);
      if key in st.hibernated { RehydratedRests(st.sockets, key, Ids(st.hibernated[key])); }
      assert CallsRest(st, restored);
      DiscardRests(restored, p, false);
      Chain(st, restored, Discard(restored, p, false));
    }
  }

  lemma EnsureRests(st: State, key: Key, outcome: Outcome)
    ensures CallsRest(st, Ensure(st, key, outcome).0)
  {
    hide Spawn;
    var known := Identify(st, key);
    SpawnRests(known, key, outcome);
    assert CallsRest(st, known);
    Chain(st, known, Spawn(known, key, outcome).0);
  }

  lemma ReceiveRests(st: State, s: nat, frame: Frame, outcome: Outcome)
    requires s < |st.sockets|
    ensures CallsRest(st, Receive(st, s, frame, outcome).0)
  {
    hide Ensure;
    EnsureRests(st, st.sockets[s].key, outcome);
  }

  lemma CloseSocketRests(st: State, s: nat, close: Frame, notifyPeer: bool, outcome: Outcome)
    requires s < |st.sockets|
    ensures CallsRest(st, CloseSocket(st, s, close, notifyPeer, outcome).0)
  {
    hide Receive;
    var socket := st.sockets[s];
    if !socket.closed && !socket.closing {
      var closing := socket.(closing := true, heard := if notifyPeer then socket.heard + [close] else socket.heard);
      var mid := st.(sockets := st.sockets[s := closing]);
      ReceiveRests(mid, s, close, outcome);
      Chain(st, mid, Receive(mid, s, close, outcome).0);
    }
  }

  lemma ConnectRests(st: State, key: Key, id: string, outcome: Outcome, connectFails: bool)
    ensures CallsRest(st, Connect(st, key, id, outcome, connectFails).0)
  {
    hide CloseSocket, Ensure;
    var previous := FindLive(st.sockets, key, id);
    if previous.Some? {
      CloseSocketRests(st, previous.value, Close(1008, "Connection superseded"), true, outcome);
    } else {
      EnsureRests(st, key, outcome);
    }
  }

  lemma StopRests(st: State, key: Key, reason: string, close: Frame)
    ensures CallsRest(st, Stop(st, key, reason)) && CallsRest(st, CloseSockets(st, key, close))
  {
    if key in st.workers { DiscardRests(st, st.workers[key], false); }
  }

  lemma {:induction false} TeardownRests(st: State, targets: seq<Key>)
    ensures CallsRest(st, Teardown(st, targets))
    decreases |targets|
  {
    hide Stop, CloseSockets;
    if targets != [] {
      var close := Close(1001, "Worker deleted");
      var closed := CloseSockets(st, targets[0], close);
      var stopped := Stop(closed, targets[0], "Worker deleted");
      StopRests(st, targets[0], "Worker deleted", close);
      StopRests(closed, targets[0], "Worker deleted", close);
      TeardownRests(stopped, targets[1..]);
      Chain(st, closed, stopped);
      Chain(st, stopped, Teardown(stopped, targets[1..]));
    }
  }

  lemma DeleteRests(st: State, key: Key, includes: Key -> bool)
    ensures CallsRest(st, Delete(st, key, includes))
    ensures forall k :: k in st.identities && Within(key, includes)(k) ==>
      k in Delete(st, key, includes).identities && Delete(st, key, includes).identities[k] > st.identities[k]
  {
    hide Teardown;
    var fenced := Fenced(st, key, includes);
    var targets := Filter(Identify(st, key).known, Within(key, includes));
    TeardownRests(fenced, targets);
    assert CallsRest(st, fenced);
    Chain(st, fenced, Teardown(fenced, targets));
  }

  lemma ReplyRests(st: State, a: nat, reply: Reply)
    ensures CallsRest(st, HibernateReply(st, a, reply))
  {
    hide Discard, Describes, DeliverAll;
    if a < |st.attempts| && !st.attempts[a].replied {
      var p := st.attempts[a].placement;
      var answered := Answered(st, a);
      if p < |st.placements| && reply.Prepared? {
        var stored := answered.(hibernated := st.hibernated[st.placements[p].key := reply.snapshot]);
        DiscardRests(stored, p, true);
        Chain(st, stored, Discard(stored, p, true));
      }
    }
  }

  lemma ReadyRests(st: State, p: nat)
    ensures CallsRest(st, Ready(st, p)) && CallsRest(st, ReportActive(st, p)) && CallsRest(st, HibernateStart(st, p))
  {
  }

  lemma DeletionRests(st: State, e: Event)
    requires DeletionEvent(e)
    ensures CallsRest(st, Step(st, e))
  {
    match e
    case RemovalsBegin(j) => RemovalsBeginRests(st, j);
    case RemovalEnds(j, ok) => RemovalEndRests(st, j, ok);
    case BarrierClears(j) => BarrierClearRests(st, j);
  }

  lemma UntouchedRests(st: State, st': State)
    requires st'.sockets == st.sockets && st'.attempts == st.attempts
    requires st'.identities == st.identities && st'.resolves == st.resolves
    ensures CallsRest(st, st')
  {
  }

  lemma RemovalsBeginRests(st: State, j: nat)
    ensures CallsRest(st, DeletionStart(st, j))
  {
    hide CallsRest;
    UntouchedRests(st, DeletionStart(st, j));
  }

  lemma RemovalEndRests(st: State, j: nat, ok: bool)
    ensures CallsRest(st, RemovalEnd(st, j, ok))
  {
    hide CallsRest;
    UntouchedRests(st, RemovalEnd(st, j, ok));
  }

  lemma BarrierClearRests(st: State, j: nat)
    ensures CallsRest(st, DeletionClear(st, j))
  {
    hide CallsRest;
    UntouchedRests(st, DeletionClear(st, j));
  }

  lemma DisposeRests(st: State, key: Key)
    ensures CallsRest(st, Dispose(st)) && CallsRest(st, MakeReference(st, key))
  {
  }

  lemma PortRests(st: State, s: nat, port: nat, frame: Frame)
    requires s < |st.sockets| && SocketOk(st.sockets[s])
    ensures CallsRest(st, PortMessage(st, s, port, frame))
  {
  }

  predicate CallEvent(e: Event) {
    e.ResolveBegins? || e.ReferenceResolves? || e.ResolveContinues?
  }

  lemma OtherRests(st: State, e: Event)
    requires Reachable(st) && !CallEvent(e)
    ensures CallsRest(st, Step(st, e))
  {
    hide Reachable, CallsRest;
    match e
    case EnsureWorker(key, outcome) => EnsureRests(st, key, outcome);
    case ClientConnects(key, id, outcome, connectFails) => ConnectRests(st, key, id, outcome, connectFails);
    case ClientSends(s, frame, outcome) =>
      if s < |st.sockets| { ReceiveRests(st, s, frame, outcome); } else { SameRests(st); }
    case ClientControlCloses(s, close, outcome) =>
      if s < |st.sockets| && close.Close? { CloseSocketRests(st, s, close, false, outcome); } else { SameRests(st); }
    case HostClosesSockets(key, close) => if close.Close? { StopRests(st, key, "", close); } else { SameRests(st); }
    case HostStops(key, reason) => StopRests(st, key, reason, Close(1001, ""));
    case HostDeletes(key, includes) => DeleteRests(st, key, includes);
    case WorkerFails(p) => DiscardRests(st, p, false);
    case WorkerPosts(s, port, frame) =>
      if s < |st.sockets| { ReachableSocket(st, s); PortRests(st, s, port, frame); } else { SameRests(st); }
    case ProbeReplies(a, reply) => ReplyRests(st, a, reply);
    case WorkerReady(p) => ReadyRests(st, p);
    case WorkerActive(p) => ReadyRests(st, p);
    case ProbeStarts(p) => ReadyRests(st, p);
    case HostDisposes => DisposeRests(st, "");
    case ReferenceMade(key) => DisposeRests(st, key);
    case _ => DeletionRests(st, e);
  }

  lemma SameRests(st: State)
    ensures CallsRest(st, st)
  {
  }

  lemma ReachableSocket(st: State, s: nat)
    requires Reachable(st) && s < |st.sockets|
    ensures SocketOk(st.sockets[s])
  {
  }

  /** Calls keep their key and epoch; only a call whose epoch is current gains a service. */
  ghost predicate CallsKept(st: State, st': State) {
    && |st.resolves| <= |st'.resolves|
    && (forall c :: 0 <= c < |st.resolves| ==>
        && st'.resolves[c].key == st.resolves[c].key && st'.resolves[c].epoch == st.resolves[c].epoch
        && (st'.resolves[c].stage.Served? ==>
            st'.resolves[c] == st.resolves[c] || !Stale(st, st.resolves[c].key, st.resolves[c].epoch)))
    && (forall c :: |st.resolves| <= c < |st'.resolves| ==> !st'.resolves[c].stage.Served?)
  }

  lemma ResolveStepRests(st: State, r: nat, outcome: Outcome)
    ensures Continues(st, ResolveStep(st, r, outcome)) && CallsKept(st, ResolveStep(st, r, outcome))
  {
    hide Ensure, Covering;
    if r < |st.resolves| && st.resolves[r].stage.AwaitDeletions? {
      AfterDeletionsRests(st, r, outcome);
      hide ResolveStep, Continues, CallsKept;
    }
  }

  lemma AfterDeletionsRests(st: State, r: nat, outcome: Outcome)
    requires r < |st.resolves| && st.resolves[r].stage.AwaitDeletions?
    ensures Continues(st, ResolveStep(st, r, outcome)) && CallsKept(st, ResolveStep(st, r, outcome))
  {
    hide Ensure;
    hide Continues;
    hide CallsKept;
    var call := st.resolves[r];
    var awake := Ensure(st, call.key, outcome);
    EnsureRests(st, call.key, outcome);
    SameRests(st);
    CallMoves(st, st, r, Rejection);
    CallMoves(st, st, r, AwaitDeletions(Covering(st, call.key, 0)));
    CallMoves(st, awake.0, r, Rejection);
    CallMoves(st, awake.0, r, if awake.1.Ok? then AwaitReady(awake.1.value) else Rejection);
    CallStays(st);
  }

  lemma CallMoves(st: State, awake: State, r: nat, stage: Stage)
    requires CallsRest(st, awake) && r < |st.resolves| && !stage.Served?
    ensures Continues(st, MoveTo(awake, r, stage)) && CallsKept(st, MoveTo(awake, r, stage))
  {
  }

  lemma CallStays(st: State)
    ensures Continues(st, st) && CallsKept(st, st)
  {
  }

  lemma ResolveStartRests(st: State, key: Key, epoch: Option<nat>)
    ensures Continues(st, ResolveStart(st, key, epoch)) && CallsKept(st, ResolveStart(st, key, epoch))
  {
  }

  lemma NothingRests(st: State)
    ensures Continues(st, st) && CallsKept(st, st)
  {
  }

  lemma RestKeepsCalls(st: State, st': State)
    requires CallsRest(st, st')
    ensures Continues(st, st') && CallsKept(st, st')
  {
  }

  lemma StepContinues(st: State, e: Event)
    requires Reachable(st)
    ensures Continues(st, Step(st, e)) && CallsKept(st, Step(st, e))
  {
    hide Continues, CallsKept, CallsRest, ResolveStart, ResolveStep;
    NothingRests(st);
    match e
    case ResolveBegins(key) => ResolveStartRests(st, key, None);
    case ReferenceResolves(r) =>
      if r < |st.references| { ResolveStartRests(st, st.references[r].key, Some(st.references[r].epoch)); }
    case ResolveContinues(r, outcome) => ResolveStepRests(st, r, outcome);
    case _ =>
      hide Step, Reachable;
      OtherRests(st, e);
      RestKeepsCalls(st, Step(st, e));
  }

  /** A socket that is over never changes again: its peer hears nothing more. */
  lemma {:induction false} ClosedSocketsRest(st: State, events: seq<Event>, i: nat)
    requires Reachable(st) && i < |st.sockets| && st.sockets[i].closed
    ensures i < |Run(st, events).sockets| && Run(st, events).sockets[i] == st.sockets[i]
    decreases |events|
  {
    hide Reachable;
    if events != [] {
      StepContinues(st, events[0]);
      StepOk(st, events[0]);
      ClosedSocketsRest(Step(st, events[0]), events[1..], i);
    }
  }

  // ---- Hibernation ----

  /** A stored snapshot belongs to a key with no worker, and names exactly its live transports, each once. */
  lemma SnapshotsNameLiveSockets(events: seq<Event>, key: Key)
    ensures var st := Run(INITIAL, events);
      key in st.hibernated ==>
      && key !in st.workers
      && (set id | id in Ids(st.hibernated[key])) == LiveIds(st.sockets, key)
      && (forall i, j :: 0 <= i < j < |Ids(st.hibernated[key])| ==> Ids(st.hibernated[key])[i] != Ids(st.hibernated[key])[j])
      && (forall i :: 0 <= i < |st.sockets| && Live(st.sockets[i], key) ==> st.sockets[i].port.None?)
  {
    InitialOk();
    RunOk(INITIAL, events);
    var st := Run(INITIAL, events);
    assert KeyOk(st, key);
    if key in st.hibernated { DescribedExactly(st.sockets, key, st.hibernated[key]); }
  }

  /**
   * Waking a hibernated key reattaches every live socket with a fresh port and ends none: the
   * snapshot is never found stale, no transport it names is missing, and no deletion bars the way.
   */
  lemma WakingReattaches(events: seq<Event>, key: Key, outcome: Outcome)
    ensures var st := Run(INITIAL, events); var (st', result) := Ensure(st, key, outcome);
      key in st.hibernated && outcome.Works? ==>
        result.Ok? && key !in st'.hibernated && Reattached(st.sockets, st'.sockets, key)
  {
    InitialOk();
    RunOk(INITIAL, events);
    var st := Run(INITIAL, events);
    if key in st.hibernated {
      assert !Quiet(st, key) && KeyOk(st, key);
      IdentifyOk(st, key);
      SpawnOk(Identify(st, key), key, outcome);
      EnsureOk(st, key, outcome);
      assert KeyOk(Ensure(st, key, outcome).0, key);
    }
  }

  /** New work for the key of worker `p`. */
  predicate WorksOn(st: State, e: Event, p: nat)
    requires p < |st.placements|
  {
    var key := st.placements[p].key;
    match e
    case EnsureWorker(k, _) => k == key
    case ClientConnects(k, id, _, _) => k == key && FindLive(st.sockets, k, id).None?
    case ClientSends(s, frame, _) =>
      s < |st.sockets| && Live(st.sockets[s], key) && (st.sockets[s].closing ==> frame.Close?)
    case ClientControlCloses(s, close, _) =>
      s < |st.sockets| && Live(st.sockets[s], key) && !st.sockets[s].closing && close.Close?
    case WorkerActive(q) => q == p
    case _ => false
  }

  /** The probe `a` of worker `p` runs. */
  ghost predicate Probed(st: State, p: nat, a: nat) {
    && Reachable(st) && Current(st, p) && st.placements[p].hibernation == Some(a)
  }

  lemma EnsureCancels(st: State, p: nat, a: nat, outcome: Outcome)
    requires Probed(st, p, a)
    ensures var awake := Ensure(st, st.placements[p].key, outcome).0;
      a < |awake.attempts| && awake.attempts[a].canceled
  {
    var key := st.placements[p].key;
    assert KeyOk(st, key) && !Quiet(st, key);
    assert !st.disposed && !Covered(st, key);
    IdentifyOk(st, key);
  }

  lemma ConnectCancels(st: State, p: nat, a: nat, id: string, outcome: Outcome, connectFails: bool)
    requires Probed(st, p, a) && FindLive(st.sockets, st.placements[p].key, id).None?
    ensures var connected := Connect(st, st.placements[p].key, id, outcome, connectFails).0;
      a < |connected.attempts| && connected.attempts[a].canceled
  {
    EnsureCancels(st, p, a, outcome);
    hide Ensure, Probed;
  }

  lemma SendCancels(st: State, p: nat, a: nat, s: nat, frame: Frame, outcome: Outcome)
    requires Probed(st, p, a) && s < |st.sockets| && Live(st.sockets[s], st.placements[p].key)
    requires st.sockets[s].closing ==> frame.Close?
    ensures var sent := Receive(st, s, frame, outcome).0; a < |sent.attempts| && sent.attempts[a].canceled
  {
    EnsureCancels(st, p, a, outcome);
    hide Ensure, Probed;
  }

  lemma ControlCancels(st: State, p: nat, a: nat, s: nat, close: Frame, outcome: Outcome)
    requires Probed(st, p, a) && s < |st.sockets| && Live(st.sockets[s], st.placements[p].key)
    requires !st.sockets[s].closing && close.Close?
    ensures var closed := CloseSocket(st, s, close, false, outcome).0;
      a < |closed.attempts| && closed.attempts[a].canceled
  {
    SendCancels(st, p, a, s, close, outcome);
    hide Receive, Probed;
  }

  lemma ActiveCancels(st: State, p: nat, a: nat)
    requires Probed(st, p, a)
    ensures var active := ReportActive(st, p); a < |active.attempts| && active.attempts[a].canceled
  {
    assert KeyOk(st, st.placements[p].key);
  }

  lemma WorkCancels(st: State, e: Event, p: nat, a: nat)
    requires Reachable(st) && Current(st, p) && st.placements[p].hibernation == Some(a) && WorksOn(st, e, p)
    ensures a < |Step(st, e).attempts| && Step(st, e).attempts[a].canceled
  {
    hide Reachable, Ensure, Connect, Receive, CloseSocket, ReportActive;
    assert Probed(st, p, a);
    match e
    case EnsureWorker(_, outcome) => EnsureCancels(st, p, a, outcome);
    case ClientConnects(_, id, outcome, connectFails) => ConnectCancels(st, p, a, id, outcome, connectFails);
    case ClientSends(s, frame, outcome) => SendCancels(st, p, a, s, frame, outcome);
    case ClientControlCloses(s, close, outcome) => ControlCancels(st, p, a, s, close, outcome);
    case WorkerActive(_) => ActiveCancels(st, p, a);
  }

  /** A canceled probe stays canceled, and attempts are never reassigned. */
  lemma {:induction false} CancelLastsRun(st: State, events: seq<Event>, a: nat)
    requires Reachable(st) && a < |st.attempts| && st.attempts[a].canceled
    ensures var st' := Run(st, events);
      a < |st'.attempts| && st'.attempts[a].canceled && st'.attempts[a].placement == st.attempts[a].placement
    decreases |events|
  {
    if events != [] {
      StepContinues(st, events[0]);
      StepOk(st, events[0]);
      CancelLastsRun(Step(st, events[0]), events[1..], a);
    }
  }

  lemma CanceledReplyIsHarmless(st: State, a: nat, reply: Reply)
    requires a < |st.attempts| && st.attempts[a].canceled
    ensures HibernateReply(st, a, reply).workers == st.workers && HibernateReply(st, a, reply).hibernated == st.hibernated
  {
  }

  /**
   * A probe during which any work arrived cannot evict the worker: whatever the worker answers, and
   * whatever else happened meanwhile, the answer leaves every running worker running.
   */
  lemma WorkSavesWorker(before: seq<Event>, work: Event, after: seq<Event>, p: nat, a: nat, reply: Reply)
    requires var st := Run(INITIAL, before);
      Current(st, p) && st.placements[p].hibernation == Some(a) && WorksOn(st, work, p)
    ensures var st := Run(Step(Run(INITIAL, before), work), after);
      HibernateReply(st, a, reply).workers == st.workers && HibernateReply(st, a, reply).hibernated == st.hibernated
  {
    hide Reachable, Step, HibernateReply, WorksOn;
    InitialOk();
    RunOk(INITIAL, before);
    var st := Run(INITIAL, before);
    WorkCancels(st, work, p, a);
    StepOk(st, work);
    CancelLastsRun(Step(st, work), after, a);
    CanceledReplyIsHarmless(Run(Step(st, work), after), a, reply);
  }

  // ---- Deletion ----

  /** While a deletion's barrier is up, nothing it covers has a worker, a snapshot or a live socket. */
  lemma NothingLivesUnderDeletion(events: seq<Event>, j: nat, key: Key)
    ensures var st := Run(INITIAL, events);
      j < |st.deletions| && !st.deletions[j].cleared && st.deletions[j].includes(key) ==>
        Quiet(st, key) && forall outcome :: Ensure(st, key, outcome) == (st, Threw)
  {
    InitialOk();
    RunOk(INITIAL, events);
  }

  /** `delete()` returns with the barrier up over every key it covers. */
  lemma DeleteRaisesBarrier(events: seq<Event>, key: Key, includes: Key -> bool, covered: Key)
    requires covered == key || includes(covered)
    ensures var st := Run(INITIAL, events); var st' := Delete(st, key, includes); var j := |st.deletions|;
      j < |st'.deletions| && !st'.deletions[j].cleared && st'.deletions[j].includes(covered) && Quiet(st', covered)
  {
    InitialOk();
    RunOk(INITIAL, events);
    DeleteOk(Run(INITIAL, events), key, includes);
  }

  /**
   * Removals begin one at a time in call order, each deletion's only after every earlier deletion
   * settled, and a barrier falls only once its own deletion has settled.
   */
  lemma RemovalsRunInOrder(events: seq<Event>, j: nat)
    ensures var st := Run(INITIAL, events);
      && st.removals == AllBegun(st.deletions)
      && (j < |st.deletions| && !st.deletions[j].progress.Waiting? ==>
          forall i :: 0 <= i < j ==> st.deletions[i].progress.Settled?)
      && (j < |st.deletions| && st.deletions[j].cleared ==>
          Begun(st.deletions[j]) == st.deletions[j].targets && st.deletions[j].progress.Settled?)
  {
    InitialOk();
    RunOk(INITIAL, events);
    var st := Run(INITIAL, events);
    if j < |st.deletions| { assert DeletionOk(st.deletions[j], j); }
  }

  /** Deletions keep their place, what they cover and what they remove; a settled one stays settled. */
  ghost predicate DeletionsContinue(a: seq<Deletion>, b: seq<Deletion>) {
    && |a| <= |b|
    && forall j :: 0 <= j < |a| ==>
      && b[j].includes == a[j].includes && b[j].targets == a[j].targets
      && (a[j].progress.Settled? ==> b[j].progress.Settled?) && (a[j].cleared ==> b[j].cleared)
  }

  /** How many of a deletion's storage removals are over. */
  function Over(deletion: Deletion): nat {
    match deletion.progress
    case Waiting => 0
    case Removing(index, _) => index
    case Settled(_) => |deletion.targets|
  }

  /** In this step a `removeStorage()` call of deletion `j` ends, well or badly. */
  predicate EndsRemoval(st: State, e: Event, j: nat) {
    e.RemovalEnds? && e.deletion == j && j < |st.deletions| && st.deletions[j].progress.Removing?
  }

  /** How many `removeStorage()` calls of deletion `j` end in a run. */
  function RemovalsEnding(st: State, events: seq<Event>, j: nat): nat
    decreases |events|
  {
    if events == [] then 0
    else (if EndsRemoval(st, events[0], j) then 1 else 0) + RemovalsEnding(Step(st, events[0]), events[1..], j)
  }

  lemma EnsureKeepsDeletions(st: State, key: Key, outcome: Outcome)
    ensures Ensure(st, key, outcome).0.deletions == st.deletions
  {
  }

  lemma SendKeepsDeletions(st: State, s: nat, frame: Frame, notifyPeer: bool, outcome: Outcome)
    requires s < |st.sockets|
    ensures Receive(st, s, frame, outcome).0.deletions == st.deletions
    ensures CloseSocket(st, s, frame, notifyPeer, outcome).0.deletions == st.deletions
  {
    hide Ensure;
    var socket := st.sockets[s];
    var closing := socket.(closing := true, heard := if notifyPeer then socket.heard + [frame] else socket.heard);
    EnsureKeepsDeletions(st, socket.key, outcome);
    EnsureKeepsDeletions(st.(sockets := st.sockets[s := closing]), socket.key, outcome);
  }

  lemma ConnectKeepsDeletions(st: State, key: Key, id: string, outcome: Outcome, connectFails: bool)
    ensures Connect(st, key, id, outcome, connectFails).0.deletions == st.deletions
  {
    hide CloseSocket, Ensure;
    var previous := FindLive(st.sockets, key, id);
    if previous.Some? {
      SendKeepsDeletions(st, previous.value, Close(1008, "Connection superseded"), true, outcome);
    }
    EnsureKeepsDeletions(st, key, outcome);
  }

  lemma ResolveKeepsDeletions(st: State, r: nat, outcome: Outcome)
    ensures ResolveStep(st, r, outcome).deletions == st.deletions
  {
    hide Ensure;
    if r < |st.resolves| { EnsureKeepsDeletions(st, st.resolves[r].key, outcome); }
  }

  lemma OthersKeepDeletions(st: State, e: Event)
    requires !DeletionEvent(e) && !e.HostDeletes?
    ensures Step(st, e).deletions == st.deletions
  {
    hide Ensure, Receive, CloseSocket, Connect, ResolveStep;
    match e
    case EnsureWorker(key, outcome) => EnsureKeepsDeletions(st, key, outcome);
    case ClientConnects(key, id, outcome, connectFails) => ConnectKeepsDeletions(st, key, id, outcome, connectFails);
    case ClientSends(s, frame, outcome) => if s < |st.sockets| { SendKeepsDeletions(st, s, frame, false, outcome); }
    case ClientControlCloses(s, close, outcome) =>
      if s < |st.sockets| { SendKeepsDeletions(st, s, close, false, outcome); }
    case ResolveContinues(r, outcome) => ResolveKeepsDeletions(st, r, outcome);
    case _ =>
  }

  /** Deletion `i` moves on; nothing else does. */
  lemma OneContinues(ds: seq<Deletion>, i: nat, next: Deletion)
    requires i < |ds| && next.includes == ds[i].includes && next.targets == ds[i].targets
    requires (ds[i].progress.Settled? ==> next.progress.Settled?) && (ds[i].cleared ==> next.cleared)
    ensures DeletionsContinue(ds, ds[i := next])
  {
  }

  lemma NothingMoves(ds: seq<Deletion>)
    ensures DeletionsContinue(ds, ds)
  {
  }

  lemma BeginContinues(st: State, i: nat, j: nat)
    requires QueueOk(st.deletions, st.tail, st.removals) && j < |st.deletions|
    ensures DeletionsContinue(st.deletions, DeletionStart(st, i).deletions)
    ensures Over(DeletionStart(st, i).deletions[j]) == Over(st.deletions[j])
  {
    hide AllBegun, DeletionsContinue;
    if i < |st.deletions| && DeletionStart(st, i) != st {
      OneContinues(st.deletions, i, DeletionStart(st, i).deletions[i]);
    } else {
      NothingMoves(st.deletions);
    }
  }

  lemma EndContinues(st: State, i: nat, ok: bool, j: nat)
    requires QueueOk(st.deletions, st.tail, st.removals) && j < |st.deletions|
    ensures DeletionsContinue(st.deletions, RemovalEnd(st, i, ok).deletions)
    ensures Over(RemovalEnd(st, i, ok).deletions[j]) ==
      Over(st.deletions[j]) + if EndsRemoval(st, RemovalEnds(i, ok), j) then 1 else 0
  {
    hide AllBegun, DeletionsContinue;
    if i < |st.deletions| && st.deletions[i].progress.Removing? {
      assert DeletionOk(st.deletions[i], i);
      OneContinues(st.deletions, i, RemovalEnd(st, i, ok).deletions[i]);
    } else {
      NothingMoves(st.deletions);
    }
  }

  lemma ClearContinues(st: State, i: nat, j: nat)
    requires j < |st.deletions|
    ensures DeletionsContinue(st.deletions, DeletionClear(st, i).deletions)
    ensures Over(DeletionClear(st, i).deletions[j]) == Over(st.deletions[j])
  {
    hide DeletionsContinue;
    if i < |st.deletions| && st.deletions[i].progress.Settled? {
      OneContinues(st.deletions, i, DeletionClear(st, i).deletions[i]);
    } else {
      NothingMoves(st.deletions);
    }
  }

  lemma DeletionStepContinues(st: State, e: Event, j: nat)
    requires QueueOk(st.deletions, st.tail, st.removals) && DeletionEvent(e) && j < |st.deletions|
    ensures DeletionsContinue(st.deletions, Step(st, e).deletions)
    ensures Over(Step(st, e).deletions[j]) == Over(st.deletions[j]) + if EndsRemoval(st, e, j) then 1 else 0
  {
    hide QueueOk, DeletionsContinue, Over;
    match e
    case RemovalsBegin(i) => BeginContinues(st, i, j);
    case RemovalEnds(i, ok) => EndContinues(st, i, ok, j);
    case BarrierClears(i) => ClearContinues(st, i, j);
  }

  lemma AnotherDeletion(st: State, key: Key, includes: Key -> bool, j: nat)
    requires Reachable(st) && j < |st.deletions|
    ensures var st' := Delete(st, key, includes);
      DeletionsContinue(st.deletions, st'.deletions) && st'.deletions[j] == st.deletions[j]
  {
    hide Delete, Inv, BarrierOk, QueueOk;
    DeleteOk(st, key, includes);
  }

  lemma StepContinuesDeletions(st: State, e: Event, j: nat)
    requires Reachable(st) && j < |st.deletions|
    ensures DeletionsContinue(st.deletions, Step(st, e).deletions)
    ensures Over(Step(st, e).deletions[j]) == Over(st.deletions[j]) + if EndsRemoval(st, e, j) then 1 else 0
  {
    hide Over, Inv, BarrierOk, QueueOk;
    if DeletionEvent(e) {
      hide Step;
      DeletionStepContinues(st, e, j);
    } else if e.HostDeletes? {
      hide Delete;
      AnotherDeletion(st, e.key, e.includes, j);
    } else {
      hide Step;
      OthersKeepDeletions(st, e);
    }
  }

  lemma {:induction false} RunContinuesDeletions(st: State, events: seq<Event>, j: nat)
    requires Reachable(st) && j < |st.deletions|
    ensures DeletionsContinue(st.deletions, Run(st, events).deletions)
    ensures Over(Run(st, events).deletions[j]) == Over(st.deletions[j]) + RemovalsEnding(st, events, j)
    decreases |events|
  {
    hide Reachable, Step, Over;
    if events != [] {
      var next := Step(st, events[0]);
      StepContinuesDeletions(st, events[0], j);
      StepOk(st, events[0]);
      RunContinuesDeletions(next, events[1..], j);
    }
  }

  /**
   * The deletion fence, over any run that follows a `delete()`: nothing it covers is alive, and
   * nothing it covers can be started, until its barrier falls; and it falls only after the storage
   * removal of every covered key known at the call has ended. `j` is the deletion this call made.
   */
  lemma BarrierHolds(before: seq<Event>, key: Key, includes: Key -> bool, after: seq<Event>, covered: Key, outcome: Outcome)
    requires covered == key || includes(covered)
    ensures var st := Run(INITIAL, before); var deleted := Delete(st, key, includes);
      var st' := Run(deleted, after); var j := |st.deletions|;
      && j < |st'.deletions|
      && (st'.deletions[j].cleared || (Quiet(st', covered) && Ensure(st', covered, outcome) == (st', Threw)))
      && (st'.deletions[j].cleared ==>
          st'.deletions[j].progress.Settled? && RemovalsEnding(deleted, after, j) == |st'.deletions[j].targets|)
      && (covered == key || covered in st.known ==> covered in st'.deletions[j].targets)
  {
    hide Run, Delete, RemovalsEnding;
    InitialOk();
    RunOk(INITIAL, before);
    var st := Run(INITIAL, before);
    var deleted, j := Delete(st, key, includes), |st.deletions|;
    var st' := Run(deleted, after);
    DeleteOk(st, key, includes);
    RunOk(deleted, after);
    RunContinuesDeletions(deleted, after, j);
    assert deleted.deletions == Fenced(st, key, includes).deletions;
    assert DeletionOk(st'.deletions[j], j);
    KnownStays(st, key);
    if !st'.deletions[j].cleared { assert Covered(st', covered); }
  }

  lemma KnownStays(st: State, key: Key)
    requires Inv(st)
    ensures key in Identify(st, key).known && forall k :: k in st.known ==> k in Identify(st, key).known
  {
  }

  // ---- References ----

  /** If this call, made with this epoch, has a service, it had it already. */
  predicate OldService(st: State, st': State, c: nat, key: Key, epoch: nat)
    requires c < |st'.resolves|
  {
    var call := st'.resolves[c];
    call.key == key && call.epoch == Some(epoch) && call.stage.Served? ==> c < |st.resolves| && st.resolves[c] == call
  }

  /** Once an epoch is behind, calls made with it never gain a service. */
  lemma {:induction false} BehindForever(st: State, events: seq<Event>, key: Key, epoch: nat)
    requires Reachable(st) && key in st.identities && epoch < st.identities[key]
    ensures var st' := Run(st, events);
      |st.resolves| <= |st'.resolves| && forall c :: 0 <= c < |st'.resolves| ==> OldService(st, st', c, key, epoch)
    decreases |events|
  {
    hide Reachable, Step;
    if events != [] {
      var next := Step(st, events[0]);
      StepContinues(st, events[0]);
      StepOk(st, events[0]);
      BehindForever(next, events[1..], key, epoch);
      var st' := Run(st, events);
      forall c | 0 <= c < |st'.resolves| ensures OldService(st, st', c, key, epoch) {
        assert OldService(next, st', c, key, epoch);
        assert Stale(st, key, Some(epoch));
      }
    }
  }

  lemma ReferencesKnown(st: State, r: nat)
    requires Reachable(st) && r < |st.references|
    ensures st.references[r].key in st.identities && st.references[r].epoch <= st.identities[st.references[r].key]
  {
  }

  lemma StaleAfterDelete(st: State, key: Key, includes: Key -> bool, after: seq<Event>, r: nat, c: nat)
    requires Reachable(st) && r < |st.references| && Within(key, includes)(st.references[r].key)
    requires c < |Run(Delete(st, key, includes), after).resolves|
    ensures OldService(st, Run(Delete(st, key, includes), after), c, st.references[r].key, st.references[r].epoch)
  {
    ReferencesKnown(st, r);
    hide Reachable, Delete, Run, SameControl, Within, OldService;
    DeleteRests(st, key, includes);
    DeleteOk(st, key, includes);
    var st' := Delete(st, key, includes);
    var k, epoch := st.references[r].key, st.references[r].epoch;
    assert epoch < st'.identities[k];
    BehindForever(st', after, k, epoch);
    assert OldService(st', Run(st', after), c, k, epoch);
    SameCalls(st, st', Run(st', after), c, k, epoch);
  }

  lemma SameCalls(st: State, mid: State, st': State, c: nat, key: Key, epoch: nat)
    requires mid.resolves == st.resolves && c < |st'.resolves| && OldService(mid, st', c, key, epoch)
    ensures OldService(st, st', c, key, epoch)
  {
  }

  /**
   * A reference taken before a deletion that covers it yields no service after the deletion begins,
   * even through a `resolve()` that was already suspended.
   */
  lemma StaleReferenceNeverServes(
      before: seq<Event>, key: Key, includes: Key -> bool, after: seq<Event>, r: nat, c: nat)
    requires var st := Run(INITIAL, before);
      r < |st.references| && (st.references[r].key == key || includes(st.references[r].key))
    ensures var st := Run(INITIAL, before);
      var st' := Run(Delete(st, key, includes), after);
      c < |st'.resolves| ==> OldService(st, st', c, st.references[r].key, st.references[r].epoch)
  {
    hide Reachable, Delete, Run;
    InitialOk();
    RunOk(INITIAL, before);
    var st := Run(INITIAL, before);
    if c < |Run(Delete(st, key, includes), after).resolves| {
      StaleAfterDelete(st, key, includes, after, r, c);
    }
  }
}
