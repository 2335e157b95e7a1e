/** What each event of the worker supervisor brings about, in every run. */
module SupervisorOutcomes {
  import opened Prelude
  import opened SupervisorModel
  import opened SupervisorInvariant
  import opened SupervisorRuns
  import opened SupervisorTheorems

  // ---- Held frames going out ----

  /** The socket delivered what it held: up to its first close, which ends it. */
  ghost predicate HeldGoesOut(before: Socket, after: Socket) {
    && after.key == before.key && after.id == before.id && after.accepted == before.accepted
    && after.heard == before.heard
    && after.posted == Cut(before.posted + before.pending)
    && (after.closed <==> EndsWithClose(after.posted))
    && (!after.closed ==> after.pending == [] && after.port == before.port)
  }

  lemma {:induction false} CutOfConcat(open: seq<Frame>, frames: seq<Frame>)
    requires NoClose(open)
    ensures Cut(open + frames) == open + Cut(frames)
  {
    if open == [] {
      assert open + frames == frames;
    } else {
      assert (open + frames)[1..] == open[1..] + frames;
      CutOfConcat(open[1..], frames);
      assert open == [open[0]] + open[1..];
    }
  }

  lemma {:induction false} PostAllCuts(s: Socket, frames: seq<Frame>)
    requires !s.closed && s.port.Some? && NoClose(s.posted)
    ensures var r := PostAll(s, frames);
      && r.posted == s.posted + Cut(frames) && (r.closed <==> EndsWithClose(Cut(frames)))
      && r.key == s.key && r.id == s.id && r.accepted == s.accepted && r.heard == s.heard
      && (!r.closed ==> r.pending == s.pending && r.port == s.port)
    decreases |frames|
  {
    if frames != [] {
      var next := Post(s, frames[0]);
      if next.closed {
        assert PostAll(next, frames[1..]) == next;
      } else {
        PostAllCuts(next, frames[1..]);
        var rest := Cut(frames[1..]);
        assert s.posted + [frames[0]] + rest == s.posted + ([frames[0]] + rest);
        assert rest != [] ==> ([frames[0]] + rest)[|rest|] == rest[|rest| - 1];
      }
    }
  }

  lemma DeliverDelivers(s: Socket)
    requires SocketOk(s) && !s.closed && s.port.Some?
    ensures HeldGoesOut(s, Deliver(s))
  {
    PostAllCuts(s.(pending := []), s.pending);
    CutOfConcat(s.posted, s.pending);
    var cut := Cut(s.pending);
    if cut == [] {
      assert s.posted + cut == s.posted;
    } else {
      assert (s.posted + cut)[|s.posted + cut| - 1] == cut[|cut| - 1];
    }
  }

  /** Every live socket of the key delivered what it held; no other changed. */
  ghost predicate AllDelivered(before: seq<Socket>, after: seq<Socket>, key: Key) {
    && |after| == |before|
    && forall i :: 0 <= i < |before| ==>
      if Live(before[i], key) then HeldGoesOut(before[i], after[i]) else after[i] == before[i]
  }

  lemma SweepDelivers(sockets: seq<Socket>, key: Key)
    requires forall i :: 0 <= i < |sockets| && Live(sockets[i], key) ==> SocketOk(sockets[i]) && sockets[i].port.Some?
    ensures AllDelivered(sockets, DeliverAll(sockets, key), key)
  {
    forall i | 0 <= i < |sockets| && Live(sockets[i], key) ensures HeldGoesOut(sockets[i], Deliver(sockets[i])) {
      DeliverDelivers(sockets[i]);
    }
  }

  lemma CurrentOk(st: State, p: nat)
    requires Reachable(st) && Current(st, p)
    ensures var key := st.placements[p].key;
      && RunningOk(st, key, p)
      && forall i :: 0 <= i < |st.sockets| && Live(st.sockets[i], key) ==> SocketOk(st.sockets[i]) && st.sockets[i].port.Some?
  {
    assert KeyOk(st, st.placements[p].key);
  }

  /**
   * A worker that reports ready is ready, and everyone who awaited that goes on. If no probe of it
   * runs, all it was held goes out. A worker that was replaced or stopped changes nothing.
   */
  lemma ReadyWorkerIsServed(before: seq<Event>, p: nat)
    ensures var st := Run(INITIAL, before); var st' := Step(st, WorkerReady(p));
      && (!Current(st, p) ==> st' == st)
      && (Current(st, p) ==>
          && |st'.placements| == |st.placements| && st'.workers == st.workers && st'.hibernated == st.hibernated
          && st'.placements[p].readyNow && st'.placements[p].readiness.Resolved?
          && (if st.placements[p].hibernation.Some? then st'.sockets == st.sockets
              else AllDelivered(st.sockets, st'.sockets, st.placements[p].key)))
  {
    InitialOk();
    RunOk(INITIAL, before);
    var st := Run(INITIAL, before);
    if Current(st, p) {
      CurrentOk(st, p);
      SweepDelivers(st.sockets, st.placements[p].key);
    }
  }

  // ---- Workers ----

  /** Whether a worker of the key can be reached: nothing bars it, and it runs or can be started. */
  predicate Reaches(st: State, key: Key, outcome: Outcome) {
    !Barred(st, key) && (key in st.workers || outcome.Works?)
  }

  predicate Barred(st: State, key: Key) {
    st.disposed || exists j :: 0 <= j < |st.deletions| && !st.deletions[j].cleared && st.deletions[j].includes(key)
  }

  /** The key has the worker it had, or a new one that is starting. */
  predicate HasWorker(st: State, st': State, key: Key) {
    && key in st'.workers && st'.workers[key] < |st'.placements| && st'.placements[st'.workers[key]].key == key
    && if key in st.workers then
        st'.workers[key] == st.workers[key] && st'.placements == st.placements
      else
        && st'.workers[key] == |st.placements|
        && st'.placements == st.placements + [Placement(key, false, Pending, None)]
  }

  /**
   * Asked for a worker, the supervisor has one if it can be reached: the one there was, its probe
   * canceled, or a new one that is starting. If the key is barred nothing changes.
   */
  lemma WorkerIsEnsured(before: seq<Event>, key: Key, outcome: Outcome)
    ensures var st := Run(INITIAL, before); var st' := Step(st, EnsureWorker(key, outcome));
      && (Reaches(st, key, outcome) ==> HasWorker(st, st', key))
      && (Barred(st, key) ==> st' == st)
      && (!Reaches(st, key, outcome) ==> (key in st'.workers <==> key in st.workers))
  {
    InitialOk();
    RunOk(INITIAL, before);
    EnsureReaches(Run(INITIAL, before), key, outcome);
  }

  lemma EnsureReaches(st: State, key: Key, outcome: Outcome)
    requires Reachable(st)
    ensures var (st', r) := Ensure(st, key, outcome);
      && (Barred(st, key) ==> st' == st)
      && (Reaches(st, key, outcome) ==>
          r.Ok? && HasWorker(st, st', key) && st'.workers[key] == r.value)
      && (!Reaches(st, key, outcome) ==> r.Threw? && (key in st'.workers <==> key in st.workers))
  {
    hide BarrierOk, QueueOk;
    EnsureOk(st, key, outcome);
    IdentifyOk(st, key);
    assert KeyOk(st, key);
    if !st.disposed && !Covered(st, key) && key !in st.workers {
      SpawnStarts(Identify(st, key), key, outcome);
    }
  }

  lemma SpawnStarts(st: State, key: Key, outcome: Outcome)
    requires Inv(st) && key !in st.workers && key in st.identities
    ensures var (st', r) := Spawn(st, key, outcome);
      && (outcome.Works? ==>
          && r == Ok(|st.placements|) && st'.workers == st.workers[key := |st.placements|]
          && st'.placements == st.placements + [Placement(key, false, Pending, None)])
      && (!outcome.Works? ==> r.Threw? && key !in st'.workers)
  {
    assert KeyOk(st, key);
    RestoreReattaches(st, key);
    hide Describes, Rehydrated;
  }

  /** The supervisor ended the socket: its peer heard the close, and nothing else happened to it. */
  predicate EndedWith(before: Socket, after: Socket, close: Frame) {
    && after.closed && after.ending == Some(BySupervisor) && after.heard == before.heard + [close]
    && after.posted == before.posted && after.accepted == before.accepted
  }

  /** Every live socket of the key was ended with this close; no other changed. */
  ghost predicate AllEnded(before: seq<Socket>, after: seq<Socket>, key: Key, close: Frame) {
    && |after| == |before|
    && forall i :: 0 <= i < |before| ==>
      if Live(before[i], key) then EndedWith(before[i], after[i], close) else after[i] == before[i]
  }

  /** A worker that fails is gone, and its clients hear 1011; one that was replaced or stopped changes nothing. */
  lemma FailedWorkerIsGone(before: seq<Event>, p: nat)
    ensures var st := Run(INITIAL, before); var st' := Step(st, WorkerFails(p));
      && (!Current(st, p) ==> st' == st)
      && (Current(st, p) ==> var key := st.placements[p].key;
          && st'.workers == st.workers - {key} && key !in st'.hibernated
          && |st'.placements| == |st.placements| && !st'.placements[p].readiness.Pending?
          && AllEnded(st.sockets, st'.sockets, key, Close(1011, "Worker stopped")))
  {
    hide EndAll, DetachAll;
    var st := Run(INITIAL, before);
    if Current(st, p) { DiscardEnds(st, p); }
  }

  lemma DiscardEnds(st: State, p: nat)
    requires Current(st, p)
    ensures var key := st.placements[p].key;
      AllEnded(st.sockets, Discard(st, p, false).sockets, key, Close(1011, "Worker stopped"))
  {
  }

  /** Stopping a key leaves it without worker, snapshot or live socket, its clients told. */
  lemma StoppedKeyIsQuiet(before: seq<Event>, key: Key, reason: string)
    ensures var st := Run(INITIAL, before); var st' := Step(st, HostStops(key, reason));
      && Quiet(st', key) && st'.workers == st.workers - {key}
      && AllEnded(st.sockets, st'.sockets, key, Close(1011, if key in st.workers then "Worker stopped" else reason))
  {
    InitialOk();
    RunOk(INITIAL, before);
    StopEnds(Run(INITIAL, before), key, reason);
  }

  lemma StopEnds(st: State, key: Key, reason: string)
    requires Reachable(st)
    ensures var st' := Stop(st, key, reason);
      && Quiet(st', key) && st'.workers == st.workers - {key}
      && AllEnded(st.sockets, st'.sockets, key, Close(1011, if key in st.workers then "Worker stopped" else reason))
  {
    hide BarrierOk, QueueOk;
    assert KeyOk(st, key);
    if key in st.workers { DiscardEnds(st, st.workers[key]); }
  }

  /** Closing a key's sockets tells each client, forgets the key's snapshot and leaves its worker running. */
  lemma HostClosesReachClients(before: seq<Event>, key: Key, code: int, reason: string)
    ensures var st := Run(INITIAL, before); var st' := Step(st, HostClosesSockets(key, Close(code, reason)));
      && st'.workers == st.workers && st'.hibernated == st.hibernated - {key}
      && AllEnded(st.sockets, st'.sockets, key, Close(code, reason))
  {
  }

  /** Disposing leaves nothing alive, and every client told, as its worker ran or slept. */
  lemma DisposedIsEmpty(before: seq<Event>)
    ensures var st := Run(INITIAL, before); var st' := Step(st, HostDisposes);
      && st'.disposed
      && (!st.disposed ==>
          && st'.workers == map[] && st'.hibernated == map[] && |st'.sockets| == |st.sockets|
          && forall i :: 0 <= i < |st.sockets| ==>
            if st.sockets[i].closed then st'.sockets[i] == st.sockets[i]
            else EndedWith(st.sockets[i], st'.sockets[i],
              if st.sockets[i].key in st.workers then Close(1011, "Worker stopped") else Close(1001, "Supervisor disposed")))
  {
    InitialOk();
    RunOk(INITIAL, before);
    if !Run(INITIAL, before).disposed { DisposeEnds(Run(INITIAL, before)); }
  }

  lemma DisposeEnds(st: State)
    requires Reachable(st) && !st.disposed
    ensures var st' := Dispose(st);
      && |st'.sockets| == |st.sockets|
      && forall i :: 0 <= i < |st.sockets| ==>
        if st.sockets[i].closed then st'.sockets[i] == st.sockets[i]
        else EndedWith(st.sockets[i], st'.sockets[i],
          if st.sockets[i].key in st.workers then Close(1011, "Worker stopped") else Close(1001, "Supervisor disposed"))
  {
    hide BarrierOk, QueueOk;
    forall i | 0 <= i < |st.sockets| && !st.sockets[i].closed && st.sockets[i].key !in st.workers
      ensures st.sockets[i].key in st.hibernated
    {
      assert KeyOk(st, st.sockets[i].key) && Live(st.sockets[i], st.sockets[i].key);
    }
  }

  // ---- Client transports ----

  /** A client's live socket, just attached: nothing taken, posted or heard yet. */
  predicate Joined(socket: Socket, key: Key, id: string) {
    && Live(socket, key) && socket.id == id && socket.port.Some? && !socket.closing
    && socket.accepted == socket.posted == socket.pending == socket.heard == []
  }

  /** A transport that never joined: it is over, and heard only what it was refused with. */
  predicate TurnedAway(socket: Socket, key: Key, id: string, told: seq<Frame>) {
    socket.key == key && socket.id == id && socket.closed && socket.ending == Some(Refused) && socket.heard == told
  }

  /** No live socket of the key has this id. */
  predicate NewId(st: State, key: Key, id: string) {
    forall i :: 0 <= i < |st.sockets| && Live(st.sockets[i], key) ==> st.sockets[i].id != id
  }

  /**
   * A client with a new id whose key can be reached joins, and the key has a worker. If the key cannot
   * be reached, or posting its port fails, it is over.
   */
  lemma ClientJoins(before: seq<Event>, key: Key, id: string, outcome: Outcome, connectFails: bool)
    requires NewId(Run(INITIAL, before), key, id)
    ensures var st := Run(INITIAL, before); var st' := Step(st, ClientConnects(key, id, outcome, connectFails));
      && |st'.sockets| == |st.sockets| + 1
      && var joining := st'.sockets[|st.sockets|];
      && (Reaches(st, key, outcome) ==> HasWorker(st, st', key))
      && (if Reaches(st, key, outcome) && !connectFails then Joined(joining, key, id) else TurnedAway(joining, key, id, []))
  {
    InitialOk();
    RunOk(INITIAL, before);
    var st := Run(INITIAL, before);
    hide Ensure, Reachable;
    EnsureReaches(st, key, outcome);
    EnsureCounts(st, key, outcome);
  }

  lemma EnsureCounts(st: State, key: Key, outcome: Outcome)
    requires Reachable(st)
    ensures |Ensure(st, key, outcome).0.sockets| == |st.sockets|
  {
    hide BarrierOk, QueueOk;
    EnsureOk(st, key, outcome);
  }

  /**
   * A close the host asks for on a live socket is heard by the peer at once if it is to be, and taken as
   * the client's last frame, unless waking its worker fails. On any other socket it does nothing.
   */
  lemma ClientCloseIsTaken(before: seq<Event>, s: nat, code: int, reason: string, outcome: Outcome)
    requires s < |Run(INITIAL, before).sockets|
    ensures var st := Run(INITIAL, before); var close := Close(code, reason);
      var st' := Step(st, ClientControlCloses(s, close, outcome)); var socket := st.sockets[s];
      && |st'.sockets| == |st.sockets|
      && (socket.closed || socket.closing ==> st' == st)
      && (!socket.closed && !socket.closing && (outcome.Works? || socket.key in st.workers) ==>
          st'.sockets[s].accepted == socket.accepted + [close] && (st'.sockets[s].closing || st'.sockets[s].closed))
  {
    InitialOk();
    RunOk(INITIAL, before);
    var st, close := Run(INITIAL, before), Close(code, reason);
    var socket := st.sockets[s];
    hide Receive, Reachable;
    if !socket.closed && !socket.closing {
      var closing := socket.(closing := true, heard := socket.heard);
      var st1 := st.(sockets := st.sockets[s := closing]);
      ClosingReachable(st, s);
      FrameIsTaken(st1, s, close, outcome);
      StaysClosing(st1, s, close, outcome);
    }
  }

  lemma ClosingReachable(st: State, s: nat)
    requires Reachable(st) && s < |st.sockets| && !st.sockets[s].closed
    ensures Reachable(st.(sockets := st.sockets[s := st.sockets[s].(closing := true, heard := st.sockets[s].heard)]))
  {
    hide BarrierOk, QueueOk;
    var closing := st.sockets[s].(closing := true, heard := st.sockets[s].heard);
    UpdateSocketOk(st, s, closing);
    HarmlessStep(st, st.(sockets := st.sockets[s := closing]));
  }

  lemma StaysClosing(st: State, s: nat, frame: Frame, outcome: Outcome)
    requires Reachable(st) && s < |st.sockets| && st.sockets[s].closing && !st.sockets[s].closed
    ensures var (st', r) := Receive(st, s, frame, outcome);
      r.Ok? ==> s < |st'.sockets| && (st'.sockets[s].closing || st'.sockets[s].closed)
  {
    hide BarrierOk, QueueOk;
    EnsureOk(st, st.sockets[s].key, outcome);
    hide Ensure;
  }

  /**
   * What a worker posts to a socket's current port is heard by its peer, and its close ends the socket.
   * What comes over any other port is heard by nobody.
   */
  lemma WorkerFramesAreHeard(before: seq<Event>, s: nat, port: nat, frame: Frame)
    requires s < |Run(INITIAL, before).sockets|
    ensures var st := Run(INITIAL, before); var st' := Step(st, WorkerPosts(s, port, frame)); var socket := st.sockets[s];
      && (socket.port != Some(port) ==> st' == st)
      && (socket.port == Some(port) ==>
          && |st'.sockets| == |st.sockets|
          && (forall i :: 0 <= i < |st.sockets| && i != s ==> st'.sockets[i] == st.sockets[i])
          && var after := st'.sockets[s];
          && after.heard == socket.heard + [frame]
          && after.accepted == socket.accepted && after.posted == socket.posted && after.pending == socket.pending
          && (if frame.Close? then after.closed && after.ending == Some(ByWorker) && after.port.None?
              else !after.closed && after.port == socket.port))
  {
    InitialOk();
    RunOk(INITIAL, before);
    hide Run, Step;
    ReachableSocket(Run(INITIAL, before), s);
    StepIsPost(Run(INITIAL, before), s, port, frame);
    hide Reachable;
  }

  lemma StepIsPost(st: State, s: nat, port: nat, frame: Frame)
    requires s < |st.sockets|
    ensures Step(st, WorkerPosts(s, port, frame)) == PortMessage(st, s, port, frame)
  {
    hide PortMessage;
  }

  // ---- Hibernation ----

  /** The snapshot names exactly the key's live transports, each once. */
  ghost predicate NamesExactly(sockets: seq<Socket>, key: Key, snapshot: Snapshot) {
    var ids := Ids(snapshot);
    && (forall i, j :: 0 <= i < j < |ids| ==> ids[i] != ids[j])
    && (set id | id in ids) == LiveIds(sockets, key)
  }

  lemma {:induction false} DistinctCount(ids: seq<string>)
    requires forall i, j :: 0 <= i < j < |ids| ==> ids[i] != ids[j]
    ensures |set id | id in ids| == |ids|
  {
    if ids != [] {
      var whole, rest := (set id | id in ids), (set id | id in ids[1..]);
      DistinctCount(ids[1..]);
      assert whole == rest + {ids[0]};
      assert ids[0] !in rest;
    }
  }

  lemma DescribesIsExact(sockets: seq<Socket>, key: Key, snapshot: Snapshot)
    ensures Describes(sockets, key, snapshot) <==> NamesExactly(sockets, key, snapshot)
  {
    hide LiveIds, Ids;
    var ids := Ids(snapshot);
    if Describes(sockets, key, snapshot) { DescribedExactly(sockets, key, snapshot); }
    if NamesExactly(sockets, key, snapshot) {
      DistinctCount(ids);
      forall id | id in ids ensures id in LiveIds(sockets, key) {
        assert id in set i | i in ids;
      }
    }
  }

  /** A probe starts for a current worker that has none, and only then. */
  lemma ProbeBegins(before: seq<Event>, p: nat)
    ensures var st := Run(INITIAL, before); var st' := Step(st, ProbeStarts(p));
      if Current(st, p) && st.placements[p].hibernation.None? then
        && |st'.attempts| == |st.attempts| + 1 && st'.attempts[|st.attempts|] == Attempt(p, false, false)
        && st'.placements[p].hibernation == Some(|st.attempts|)
        && st'.workers == st.workers && st'.sockets == st.sockets
      else st' == st
  {
  }

  /** The worker under probe `a` is current, and that probe is waiting for its answer. */
  predicate Asked(st: State, a: nat) {
    a < |st.attempts| && !st.attempts[a].replied && Current(st, st.attempts[a].placement)
  }

  /**
   * The answer to a probe. If it is a snapshot of exactly the key's live transports and no work came
   * meanwhile, the worker is gone, its snapshot is stored and its sockets wait with all they hold.
   * Otherwise it runs on without the probe and, once ready, sends what was held for it.
   */
  lemma ProbeIsAnswered(before: seq<Event>, a: nat, reply: Reply)
    requires Asked(Run(INITIAL, before), a)
    ensures var st := Run(INITIAL, before); var st' := Step(st, ProbeReplies(a, reply));
      var p := st.attempts[a].placement; var key := st.placements[p].key;
      if reply.Prepared? && !st.attempts[a].canceled && NamesExactly(st.sockets, key, reply.snapshot) then
        && st'.workers == st.workers - {key} && st'.hibernated == st.hibernated[key := reply.snapshot]
        && |st'.sockets| == |st.sockets|
        && forall i :: 0 <= i < |st.sockets| ==>
          st'.sockets[i] == if Live(st.sockets[i], key) then st.sockets[i].(port := None) else st.sockets[i]
      else
        && st'.workers == st.workers && st'.hibernated == st.hibernated && |st'.placements| == |st.placements|
        && st'.placements[p].hibernation.None?
        && (if st.placements[p].readyNow then AllDelivered(st.sockets, st'.sockets, key) else st'.sockets == st.sockets)
  {
    InitialOk();
    RunOk(INITIAL, before);
    hide Run, Step;
    AnswerOutcome(Run(INITIAL, before), a, reply);
    StepIsAnswer(Run(INITIAL, before), a, reply);
    hide Reachable, NamesExactly, AllDelivered;
  }

  lemma StepIsAnswer(st: State, a: nat, reply: Reply)
    ensures Step(st, ProbeReplies(a, reply)) == HibernateReply(st, a, reply)
  {
    hide HibernateReply;
  }

  lemma AnswerOutcome(st: State, a: nat, reply: Reply)
    requires Reachable(st) && Asked(st, a)
    ensures var st' := HibernateReply(st, a, reply);
      var p := st.attempts[a].placement; var key := st.placements[p].key;
      if reply.Prepared? && !st.attempts[a].canceled && NamesExactly(st.sockets, key, reply.snapshot) then
        && st'.workers == st.workers - {key} && st'.hibernated == st.hibernated[key := reply.snapshot]
        && |st'.sockets| == |st.sockets|
        && forall i :: 0 <= i < |st.sockets| ==>
          st'.sockets[i] == if Live(st.sockets[i], key) then st.sockets[i].(port := None) else st.sockets[i]
      else
        && st'.workers == st.workers && st'.hibernated == st.hibernated && |st'.placements| == |st.placements|
        && st'.placements[p].hibernation.None?
        && (if st.placements[p].readyNow then AllDelivered(st.sockets, st'.sockets, key) else st'.sockets == st.sockets)
  {
    var p := st.attempts[a].placement;
    var key := st.placements[p].key;
    CurrentOk(st, p);
    SweepDelivers(st.sockets, key);
    hide Reachable, AllDelivered, Describes, NamesExactly, RunningOk;
    if reply.Prepared? { DescribesIsExact(st.sockets, key, reply.snapshot); }
  }

  /**
   * A client that connects with the id of a live one is turned away with 1012 once the live one, unless
   * it is closing already, heard 1008 and has that close as its last frame.
   */
  lemma ClientSupersedes(before: seq<Event>, key: Key, id: string, s: nat, outcome: Outcome, connectFails: bool)
    requires s < |Run(INITIAL, before).sockets| && Live(Run(INITIAL, before).sockets[s], key)
    requires Run(INITIAL, before).sockets[s].id == id && (outcome.Works? || key in Run(INITIAL, before).workers)
    ensures var st := Run(INITIAL, before); var st' := Step(st, ClientConnects(key, id, outcome, connectFails));
      && |st'.sockets| == |st.sockets| + 1
      && TurnedAway(st'.sockets[|st.sockets|], key, id, [Close(1012, "Previous connection is closing")])
      && (if st.sockets[s].closing then st'.sockets[s] == st.sockets[s]
          else
            && st'.sockets[s].heard == st.sockets[s].heard + [Close(1008, "Connection superseded")]
            && st'.sockets[s].accepted == st.sockets[s].accepted + [Close(1008, "Connection superseded")])
  {
    InitialOk();
    RunOk(INITIAL, before);
    var st := Run(INITIAL, before);
    var close := Close(1008, "Connection superseded");
    FoundIsTheOne(st, key, id, s);
    hide Receive, Reachable, FindLive;
    if !st.sockets[s].closing {
      NotifiedReachable(st, s, close);
      var socket := st.sockets[s];
      var st1 := st.(sockets := st.sockets[s := socket.(closing := true, heard := socket.heard + [close])]);
      FrameIsTaken(st1, s, close, outcome);
      ReceiveLeavesHeard(st1, s, close, outcome);
    }
  }

  lemma FoundIsTheOne(st: State, key: Key, id: string, s: nat)
    requires Reachable(st) && s < |st.sockets| && Live(st.sockets[s], key) && st.sockets[s].id == id
    ensures FindLive(st.sockets, key, id) == Some(s)
  {
    hide BarrierOk, QueueOk;
    assert Distinct(st.sockets);
  }

  lemma NotifiedReachable(st: State, s: nat, close: Frame)
    requires Reachable(st) && s < |st.sockets| && !st.sockets[s].closed
    ensures Reachable(st.(sockets := st.sockets[s := st.sockets[s].(closing := true, heard := st.sockets[s].heard + [close])]))
  {
    hide BarrierOk, QueueOk;
    var closing := st.sockets[s].(closing := true, heard := st.sockets[s].heard + [close]);
    UpdateSocketOk(st, s, closing);
    HarmlessStep(st, st.(sockets := st.sockets[s := closing]));
  }

  lemma ReceiveLeavesHeard(st: State, s: nat, frame: Frame, outcome: Outcome)
    requires Reachable(st) && s < |st.sockets|
    ensures var (st', r) := Receive(st, s, frame, outcome);
      r.Ok? ==> s < |st'.sockets| && st'.sockets[s].heard == st.sockets[s].heard
  {
    EnsureLeavesHeard(st, s, st.sockets[s].key, outcome);
    hide Ensure, Reachable;
  }

  lemma EnsureLeavesHeard(st: State, s: nat, key: Key, outcome: Outcome)
    requires Reachable(st) && s < |st.sockets|
    ensures var (st', r) := Ensure(st, key, outcome);
      |st'.sockets| == |st.sockets| && (r.Ok? ==> st'.sockets[s].heard == st.sockets[s].heard)
  {
    EnsureOk(st, key, outcome);
    hide Ensure, BarrierOk, QueueOk;
  }

  // ---- References and calls ----

  /** A reference carries the epoch its identity has. */
  lemma ReferenceIsCurrent(before: seq<Event>, key: Key)
    ensures var st := Run(INITIAL, before); var st' := Step(st, ReferenceMade(key));
      && |st'.references| == |st.references| + 1 && key in st'.identities
      && st'.references[|st.references|] == Reference(key, st'.identities[key])
      && (key in st.identities ==> st'.identities[key] == st.identities[key])
  {
  }

  /** The call was made through a reference whose epoch has passed. */
  predicate Outdated(st: State, call: Resolve) {
    call.epoch.Some? && (call.key !in st.identities || st.identities[call.key] != call.epoch.value)
  }

  /** The list is of exactly the deletions that cover the key now. */
  ghost predicate ListsBarriers(st: State, key: Key, on: seq<nat>) {
    forall j :: j in on <==> 0 <= j < |st.deletions| && !st.deletions[j].cleared && st.deletions[j].includes(key)
  }

  lemma {:induction false} CoveringLists(st: State, key: Key, from: nat)
    requires from <= |st.deletions|
    ensures forall j :: j in Covering(st, key, from) <==>
      from <= j < |st.deletions| && !st.deletions[j].cleared && st.deletions[j].includes(key)
    decreases |st.deletions| - from
  {
    if from < |st.deletions| { CoveringLists(st, key, from + 1); }
  }

  /** A new call waits for exactly the deletions that cover its key, unless its reference is outdated. */
  lemma CallWaitsForBarriers(before: seq<Event>, e: Event)
    requires e.ResolveBegins? || (e.ReferenceResolves? && e.reference < |Run(INITIAL, before).references|)
    ensures var st := Run(INITIAL, before); var st' := Step(st, e);
      && |st'.resolves| == |st.resolves| + 1
      && var call := st'.resolves[|st.resolves|];
      && (if e.ResolveBegins? then call.key == e.key && call.epoch.None?
          else call.key == st.references[e.reference].key && call.epoch == Some(st.references[e.reference].epoch))
      && (if Outdated(st, call) then call.stage.Rejection?
          else call.stage.AwaitDeletions? && ListsBarriers(st, call.key, call.stage.on))
  {
    var st := Run(INITIAL, before);
    CoveringLists(st, if e.ResolveBegins? then e.key else if e.reference < |st.references| then st.references[e.reference].key else "", 0);
    hide Covering;
  }

  /** Every deletion the call waits for has settled, none of them badly. */
  predicate Passed(st: State, on: seq<nat>) {
    forall j :: j in on ==> j < |st.deletions| && st.deletions[j].progress == Settled(false)
  }

  /**
   * A call whose deletions have settled well looks again; with none left it asks for the key's worker
   * and waits for it to be ready, unless its reference is outdated or the worker cannot be reached.
   */
  lemma CallGoesOn(before: seq<Event>, r: nat, outcome: Outcome)
    requires var st := Run(INITIAL, before);
      r < |st.resolves| && st.resolves[r].stage.AwaitDeletions? && Passed(st, st.resolves[r].stage.on)
    ensures var st := Run(INITIAL, before); var st' := Step(st, ResolveContinues(r, outcome)); var call := st.resolves[r];
      && |st'.resolves| == |st.resolves|
      && var stage := st'.resolves[r].stage;
      && (call.stage.on != [] ==> stage.AwaitDeletions? && ListsBarriers(st, call.key, stage.on))
      && (call.stage.on == [] ==>
          if !Outdated(st, call) && Reaches(st, call.key, outcome)
          then HasWorker(st, st', call.key) && stage == AwaitReady(st'.workers[call.key])
          else stage.Rejection?)
  {
    InitialOk();
    RunOk(INITIAL, before);
    hide Run, Step;
    var st := Run(INITIAL, before);
    var call := st.resolves[r];
    PassedMoves(st, r, outcome);
    EnsureReaches(st, call.key, outcome);
    CoveringLists(st, call.key, 0);
    EnsureRests(st, call.key, outcome);
    StepIsResolve(st, r, outcome);
    hide Ensure, Covering, Reachable, ResolveStep, Continues, Reaches, HasWorker, ListsBarriers;
  }

  lemma StepIsResolve(st: State, r: nat, outcome: Outcome)
    ensures Step(st, ResolveContinues(r, outcome)) == ResolveStep(st, r, outcome)
  {
    hide ResolveStep;
  }

  lemma PassedMoves(st: State, r: nat, outcome: Outcome)
    requires r < |st.resolves| && st.resolves[r].stage.AwaitDeletions? && Passed(st, st.resolves[r].stage.on)
    ensures var call := st.resolves[r]; var (awake, ensured) := Ensure(st, call.key, outcome);
      ResolveStep(st, r, outcome) ==
        if call.stage.on != [] then MoveTo(st, r, AwaitDeletions(Covering(st, call.key, 0)))
        else if Outdated(st, call) then MoveTo(st, r, Rejection)
        else if r >= |awake.resolves| then awake
        else MoveTo(awake, r, if ensured.Ok? then AwaitReady(ensured.value) else Rejection)
  {
    hide Ensure, Covering;
    var on := st.resolves[r].stage.on;
    assert forall i :: 0 <= i < |on| ==> on[i] in on;
  }

  /** A call whose worker is ready is served by it, unless its reference went out of date; a stopped worker rejects it. */
  lemma CallIsServed(before: seq<Event>, r: nat, outcome: Outcome)
    requires var st := Run(INITIAL, before);
      && r < |st.resolves| && st.resolves[r].stage.AwaitReady?
      && st.resolves[r].stage.placement < |st.placements|
    ensures var st := Run(INITIAL, before); var st' := Step(st, ResolveContinues(r, outcome)); var call := st.resolves[r];
      && |st'.resolves| == |st.resolves|
      && st'.resolves[r].stage ==
        match st.placements[call.stage.placement].readiness
        case Pending => call.stage
        case Rejected => Rejection
        case Resolved => if Outdated(st, call) then Rejection else Served(call.stage.placement)
  {
    hide Run, Step;
    StepIsResolve(Run(INITIAL, before), r, outcome);
    ReadyMoves(Run(INITIAL, before), r, outcome);
  }

  lemma ReadyMoves(st: State, r: nat, outcome: Outcome)
    requires r < |st.resolves| && st.resolves[r].stage.AwaitReady? && st.resolves[r].stage.placement < |st.placements|
    ensures var st' := ResolveStep(st, r, outcome); var call := st.resolves[r];
      && |st'.resolves| == |st.resolves|
      && st'.resolves[r].stage ==
        match st.placements[call.stage.placement].readiness
        case Pending => call.stage
        case Rejected => Rejection
        case Resolved => if Outdated(st, call) then Rejection else Served(call.stage.placement)
  {
    hide Ensure, Covering;
  }

  // ---- Storage removal ----

  /** A deletion whose predecessors have all settled removes its first target's storage, or has none to remove. */
  lemma RemovalsStart(before: seq<Event>, j: nat)
    requires var st := Run(INITIAL, before);
      && j < |st.deletions| && st.deletions[j].progress.Waiting?
      && forall i :: 0 <= i < j ==> st.deletions[i].progress.Settled?
    ensures var st := Run(INITIAL, before); var st' := Step(st, RemovalsBegin(j)); var targets := st.deletions[j].targets;
      && |st'.deletions| == |st.deletions|
      && st'.deletions[j].progress == (if targets == [] then Settled(false) else Removing(0, false))
      && st'.removals == st.removals + (if targets == [] then [] else [targets[0]])
  {
    InitialOk();
    RunOk(INITIAL, before);
    hide Run, Step;
    StepIsRemoval(Run(INITIAL, before), j, true);
    StartsRemoving(Run(INITIAL, before), j);
  }

  lemma StepIsRemoval(st: State, j: nat, ok: bool)
    ensures Step(st, RemovalsBegin(j)) == DeletionStart(st, j) && Step(st, RemovalEnds(j, ok)) == RemovalEnd(st, j, ok)
  {
    hide DeletionStart, RemovalEnd;
  }

  lemma StartsRemoving(st: State, j: nat)
    requires QueueOk(st.deletions, st.tail, st.removals) && j < |st.deletions| && st.deletions[j].progress.Waiting?
    requires forall i :: 0 <= i < j ==> st.deletions[i].progress.Settled?
    ensures var st' := DeletionStart(st, j); var targets := st.deletions[j].targets;
      && |st'.deletions| == |st.deletions|
      && st'.deletions[j].progress == (if targets == [] then Settled(false) else Removing(0, false))
      && st'.removals == st.removals + (if targets == [] then [] else [targets[0]])
  {
    hide AllBegun;
    assert DeletionOk(st.deletions[j], j);
  }

  /** When a removal ends, the next target's begins; after the last, the deletion settles, badly if any went badly. */
  lemma RemovalsGoOn(before: seq<Event>, j: nat, ok: bool)
    requires j < |Run(INITIAL, before).deletions| && Run(INITIAL, before).deletions[j].progress.Removing?
    ensures var st := Run(INITIAL, before); var st' := Step(st, RemovalEnds(j, ok));
      var targets, next := st.deletions[j].targets, st.deletions[j].progress.index + 1;
      var failed := st.deletions[j].progress.failed || !ok;
      && |st'.deletions| == |st.deletions|
      && st'.deletions[j].progress == (if next < |targets| then Removing(next, failed) else Settled(failed))
      && st'.removals == st.removals + (if next < |targets| then [targets[next]] else [])
  {
    hide Run, Step;
    StepIsRemoval(Run(INITIAL, before), j, ok);
  }

  /** A settled deletion's barrier falls. */
  lemma BarrierFalls(before: seq<Event>, j: nat)
    requires j < |Run(INITIAL, before).deletions| && Run(INITIAL, before).deletions[j].progress.Settled?
    ensures var st := Run(INITIAL, before); var st' := Step(st, BarrierClears(j));
      && |st'.deletions| == |st.deletions| && st'.deletions[j].cleared
      && st'.workers == st.workers && st'.sockets == st.sockets
  {
  }

  // ---- From end to end ----

  lemma {:induction false} RunsOn(st: State, first: seq<Event>, second: seq<Event>)
    ensures Run(st, first + second) == Run(Run(st, first), second)
    decreases |first|
  {
    hide Step;
    if first == [] {
      assert first + second == second;
    } else {
      assert (first + second)[1..] == first[1..] + second;
      RunsOn(Step(st, first[0]), first[1..], second);
    }
  }

  lemma OneMore(before: seq<Event>, e: Event)
    ensures Run(INITIAL, before + [e]) == Step(Run(INITIAL, before), e)
  {
    hide Step;
    RunsOn(INITIAL, before, [e]);
    assert [e][1..] == [];
    assert Run(Run(INITIAL, before), [e]) == Run(Step(Run(INITIAL, before), e), []);
  }

  /**
   * A call for a key nothing bars is served: it asks for the key's worker, the worker reports ready, and
   * the call goes on with the service of exactly that worker, which is the key's current one.
   */
  lemma ServiceIsReached(before: seq<Event>, key: Key)
    requires !Barred(Run(INITIAL, before), key)
    ensures var r := |Run(INITIAL, before).resolves|;
      var asked := before + [ResolveBegins(key)] + [ResolveContinues(r, Works)];
      && key in Run(INITIAL, asked).workers
      && var p := Run(INITIAL, asked).workers[key];
      var served := Run(INITIAL, asked + [WorkerReady(p)] + [ResolveContinues(r, Works)]);
      && Current(served, p) && served.placements[p].key == key && served.placements[p].readyNow
      && r < |served.resolves| && served.resolves[r] == Resolve(key, None, Served(p))
  {
    hide Run, Step, Reaches, HasWorker;
    var r := |Run(INITIAL, before).resolves|;
    var begun := before + [ResolveBegins(key)];
    OneMore(before, ResolveBegins(key));
    CallBegins(Run(INITIAL, before), key);
    var asked := begun + [ResolveContinues(r, Works)];
    OneMore(begun, ResolveContinues(r, Works));
    CallGoesOn(begun, r, Works);
    ReachesNow(Run(INITIAL, begun), key);
    CallKeeps(begun, r);
    HasWorkerNow(Run(INITIAL, begun), Run(INITIAL, asked), key);
    var p := Run(INITIAL, asked).workers[key];
    var ready := asked + [WorkerReady(p)];
    OneMore(asked, WorkerReady(p));
    ReadyWorkerIsServed(asked, p);
    ReadyKeepsCalls(Run(INITIAL, asked), p);
    OneMore(ready, ResolveContinues(r, Works));
    CallIsServed(ready, r, Works);
    ServedKeeps(Run(INITIAL, ready), r);
  }

  lemma CallBegins(st: State, key: Key)
    requires !Barred(st, key)
    ensures var st' := Step(st, ResolveBegins(key));
      && st'.resolves == st.resolves + [Resolve(key, None, AwaitDeletions([]))]
      && st'.deletions == st.deletions && st'.disposed == st.disposed && !Barred(st', key)
  {
    NoneCover(st, key, 0);
    hide Covering;
  }

  lemma {:induction false} NoneCover(st: State, key: Key, from: nat)
    requires from <= |st.deletions| && !Barred(st, key)
    ensures Covering(st, key, from) == []
    decreases |st.deletions| - from
  {
    if from < |st.deletions| {
      assert st.deletions[from] in st.deletions;
      NoneCover(st, key, from + 1);
    }
  }

  lemma ReachesNow(st: State, key: Key)
    requires !Barred(st, key)
    ensures Reaches(st, key, Works)
  {
  }

  lemma HasWorkerNow(st: State, st': State, key: Key)
    requires HasWorker(st, st', key)
    ensures key in st'.workers && Current(st', st'.workers[key]) && st'.placements[st'.workers[key]].key == key
  {
  }

  lemma CallKeeps(before: seq<Event>, r: nat)
    requires r < |Run(INITIAL, before).resolves|
    ensures var st := Run(INITIAL, before); var st' := Step(st, ResolveContinues(r, Works));
      |st'.resolves| >= |st.resolves| && st'.resolves[r].key == st.resolves[r].key && st'.resolves[r].epoch == st.resolves[r].epoch
  {
    InitialOk();
    RunOk(INITIAL, before);
    hide Run, Step, Reachable;
    StepContinues(Run(INITIAL, before), ResolveContinues(r, Works));
  }

  lemma ReadyKeepsCalls(st: State, p: nat)
    ensures Step(st, WorkerReady(p)).resolves == st.resolves && Step(st, WorkerReady(p)).identities == st.identities
    ensures Current(st, p) ==> Current(Step(st, WorkerReady(p)), p) && Step(st, WorkerReady(p)).placements[p].key == st.placements[p].key
  {
    hide DeliverAll;
  }

  lemma ServedKeeps(st: State, r: nat)
    requires r < |st.resolves| && st.resolves[r].stage.AwaitReady?
    ensures var st' := Step(st, ResolveContinues(r, Works));
      && st'.workers == st.workers && st'.placements == st.placements
      && |st'.resolves| == |st.resolves|
      && st'.resolves[r].key == st.resolves[r].key && st'.resolves[r].epoch == st.resolves[r].epoch
  {
  }

  function Ends(j: nat, results: seq<bool>): seq<Event> {
    seq(|results|, i requires 0 <= i < |results| => RemovalEnds(j, results[i]))
  }

  /**
   * A deletion whose predecessors have settled comes to its end: once each of its targets' removals has
   * begun in order and ended, it has settled, well exactly if they all did, and its barrier falls.
   */
  lemma DeletionComesToItsEnd(before: seq<Event>, j: nat, results: seq<bool>)
    requires var st := Run(INITIAL, before);
      && j < |st.deletions| && st.deletions[j].progress.Waiting? && |results| == |st.deletions[j].targets|
      && forall i :: 0 <= i < j ==> st.deletions[i].progress.Settled?
    ensures var st := Run(INITIAL, before);
      var st' := Run(INITIAL, before + [RemovalsBegin(j)] + Ends(j, results) + [BarrierClears(j)]);
      && j < |st'.deletions| && st'.deletions[j].cleared
      && st'.deletions[j].progress == Settled(exists i :: 0 <= i < |results| && !results[i])
      && st'.removals == st.removals + st.deletions[j].targets
  {
    hide Run, Step;
    var st := Run(INITIAL, before);
    var begun := before + [RemovalsBegin(j)];
    OneMore(before, RemovalsBegin(j));
    RemovalsStart(before, j);
    RemovalKeepsTargets(st, RemovalsBegin(j), j);
    if results != [] {
      RemovalsEndInTurn(begun, j, 0, results, false);
      assert results[0..] == results && st.deletions[j].targets[1..] == st.deletions[j].targets[0 + 1..];
    } else {
      assert begun + Ends(j, results) == begun;
    }
    var ended := begun + Ends(j, results);
    OneMore(ended, BarrierClears(j));
    BarrierFalls(ended, j);
    ClearKeeps(Run(INITIAL, ended), j);
  }

  lemma RemovalKeepsTargets(st: State, e: Event, j: nat)
    requires j < |st.deletions| && (e == RemovalsBegin(j) || (e.RemovalEnds? && e.deletion == j))
    ensures |Step(st, e).deletions| == |st.deletions| && Step(st, e).deletions[j].targets == st.deletions[j].targets
  {
    hide Step;
    StepIsRemoval(st, j, e.RemovalEnds? && e.ok);
  }

  lemma ClearKeeps(st: State, j: nat)
    requires j < |st.deletions|
    ensures var st' := Step(st, BarrierClears(j));
      |st'.deletions| == |st.deletions| && st'.deletions[j].progress == st.deletions[j].progress && st'.removals == st.removals
  {
  }

  lemma {:induction false} RemovalsEndInTurn(before: seq<Event>, j: nat, index: nat, results: seq<bool>, failed: bool)
    requires results != []
    requires var st := Run(INITIAL, before);
      && j < |st.deletions| && st.deletions[j].progress == Removing(index, failed)
      && index + |results| == |st.deletions[j].targets|
    ensures var st := Run(INITIAL, before); var st' := Run(INITIAL, before + Ends(j, results));
      && j < |st'.deletions|
      && st'.deletions[j].progress == Settled(failed || exists i :: 0 <= i < |results| && !results[i])
      && st'.removals == st.removals + st.deletions[j].targets[index + 1..]
    decreases |results|
  {
    hide Run, Step;
    var st := Run(INITIAL, before);
    var targets := st.deletions[j].targets;
    var e := RemovalEnds(j, results[0]);
    OneMore(before, e);
    RemovalsGoOn(before, j, results[0]);
    RemovalKeepsTargets(st, e, j);
    var rest := results[1..];
    assert before + Ends(j, results) == (before + [e]) + Ends(j, rest);
    if rest == [] {
      assert (before + [e]) + Ends(j, rest) == before + [e];
      assert targets[index + 1..] == [];
    } else {
      RemovalsEndInTurn(before + [e], j, index + 1, rest, failed || !results[0]);
      assert targets[index + 1..] == [targets[index + 1]] + targets[index + 2..];
      FirstOrRest(results);
    }
  }

  lemma FirstOrRest(results: seq<bool>)
    requires results != []
    ensures (exists i :: 0 <= i < |results| && !results[i])
      <==> !results[0] || exists i :: 0 <= i < |results[1..]| && !results[1..][i]
  {
    var rest := results[1..];
    assert forall i :: 0 <= i < |rest| ==> rest[i] == results[i + 1];
    if !results[0] {
    } else if exists i :: 0 <= i < |results| && !results[i] {
      var i :| 0 <= i < |results| && !results[i];
      assert !rest[i - 1];
    }
  }
}
