/**
 * `BrowserWorkerSupervisor` itself. Its methods update the fields in place, a stretch of code
 * between two awaits at a time, and each is proved to take the step the model says.
 */
module Supervisor {
  import opened Prelude
  import opened SupervisorModel
  import opened SupervisorInvariant
  import opened SupervisorRuns

  class BrowserWorkerSupervisor {
    var workers: map<Key, nat>
    var placements: seq<Placement>
    var attempts: seq<Attempt>
    var hibernated: map<Key, Snapshot>
    var sockets: seq<Socket>
    var identities: map<Key, nat>
    var known: seq<Key>
    var deletions: seq<Deletion>
    var deletionTail: Option<nat>
    var removals: seq<Key>
    var references: seq<Reference>
    var resolves: seq<Resolve>
    var disposed: bool

    ghost function Model(): State
      reads this
    {
      State(workers, placements, attempts, hibernated, sockets, identities, known,
            deletions, deletionTail, removals, references, resolves, disposed)
    }

    ghost predicate Valid()
      reads this
    {
      Reachable(Model())
    }

    constructor ()
      ensures Valid() && Model() == INITIAL
    {
      workers, placements, attempts, hibernated := map[], [], [], map[];
      sockets, identities, known := [], map[], [];
      deletions, deletionTail, removals := [], None, [];
      references, resolves, disposed := [], [], false;
      new;
      InitialOk();
    }

    // ---- Sockets ----

    method FinishSocket(s: nat, ending: Ending)
      requires s < |sockets|
      modifies this`sockets
      ensures sockets == old(sockets)[s := Finish(old(sockets)[s], ending)]
    {
      if !sockets[s].closed {
        sockets := sockets[s := sockets[s].(closed := true, port := None, ending := Some(ending))];
      }
    }

    /** The supervisor's own end of a socket: peer and port are both told. */
    method EndSocket(s: nat, close: Frame)
      requires s < |sockets|
      modifies this`sockets
      ensures sockets == old(sockets)[s := End(old(sockets)[s], close)]
    {
      var socket := sockets[s];
      socket := socket.(closing := true);
      if socket.port.Some? { socket := socket.(farewell := socket.farewell + [close]); }
      socket := socket.(heard := socket.heard + [close]);
      sockets := sockets[s := socket];
      FinishSocket(s, BySupervisor);
    }

    method EndSockets(key: Key, close: Frame)
      modifies this`sockets
      ensures sockets == EndAll(old(sockets), key, close)
    {
      for i := 0 to |sockets|
        invariant |sockets| == |old(sockets)|
        invariant forall j :: 0 <= j < i ==> sockets[j] == EndAll(old(sockets), key, close)[j]
        invariant forall j :: i <= j < |sockets| ==> sockets[j] == old(sockets)[j]
      {
        if Live(sockets[i], key) { EndSocket(i, close); }
      }
    }

    method AttachPort(s: nat)
      requires s < |sockets|
      modifies this`sockets
      ensures sockets == old(sockets)[s := Attach(old(sockets)[s])]
    {
      sockets := sockets[s := sockets[s].(port := Some(sockets[s].ports), ports := sockets[s].ports + 1)];
    }

    method PostFrame(s: nat, frame: Frame)
      requires s < |sockets|
      modifies this`sockets
      ensures sockets == old(sockets)[s := Post(old(sockets)[s], frame)]
    {
      if sockets[s].port.None? {
        sockets := sockets[s := sockets[s].(pending := sockets[s].pending + [frame])];
        return;
      }
      sockets := sockets[s := sockets[s].(posted := sockets[s].posted + [frame])];
      if frame.Close? { FinishSocket(s, Delivered); }
    }

    method FlushSocket(s: nat)
      requires s < |sockets| && !sockets[s].closed
      modifies this`sockets
      ensures sockets == old(sockets)[s := Deliver(old(sockets)[s])]
    {
      if sockets[s].port.None? { return; }
      var frames := sockets[s].pending;
      sockets := sockets[s := sockets[s].(pending := [])];
      ghost var start := sockets[s];
      var i := 0;
      while i < |frames|
        invariant 0 <= i <= |frames|
        invariant |sockets| == |old(sockets)|
        invariant sockets == old(sockets)[s := sockets[s]] && !sockets[s].closed
        invariant PostAll(start, frames) == PostAll(sockets[s], frames[i..])
      {
        assert frames[i..][1..] == frames[i + 1..];
        PostFrame(s, frames[i]);
        if sockets[s].closed { return; }
        i := i + 1;
      }
    }

    method FlushPlacement(p: nat)
      requires p < |placements|
      modifies this`sockets
      ensures Model() == Flush(old(Model()), p)
    {
      if !placements[p].readyNow || placements[p].hibernation.Some? { return; }
      var key := placements[p].key;
      for i := 0 to |sockets|
        invariant |sockets| == |old(sockets)|
        invariant forall j :: 0 <= j < i ==> sockets[j] == DeliverAll(old(sockets), key)[j]
        invariant forall j :: i <= j < |sockets| ==> sockets[j] == old(sockets)[j]
      {
        if Live(sockets[i], key) { FlushSocket(i); }
      }
      assert sockets == DeliverAll(old(sockets), key);
    }

    /** Gives the sockets the snapshot names fresh ports, in its order; the first name without a socket throws. */
    method Rehydrate(key: Key, snapshot: Snapshot) returns (missing: bool)
      modifies this`sockets
      ensures (sockets, missing) == Rehydrated(old(sockets), key, Ids(snapshot))
    {
      var ids := Ids(snapshot);
      for i := 0 to |ids|
        invariant Rehydrated(old(sockets), key, ids) == Rehydrated(sockets, key, ids[i..])
      {
        assert ids[i..][1..] == ids[i + 1..];
        var s := Transport(sockets, key, ids[i]);
        if s.None? { return true; }
        AttachPort(s.value);
      }
      return false;
    }

    // ---- Placements ----

    /** Takes the worker's ports from its sockets, and ends them unless they wait for the next worker. */
    method ReleaseSockets(key: Key, keepSockets: bool)
      modifies this`sockets
      ensures sockets == if keepSockets then DetachAll(old(sockets), key)
        else EndAll(DetachAll(old(sockets), key), key, Close(1011, "Worker stopped"))
    {
      ghost var detached := DetachAll(old(sockets), key);
      ghost var released := if keepSockets then detached else EndAll(detached, key, Close(1011, "Worker stopped"));
      for i := 0 to |sockets|
        invariant |sockets| == |old(sockets)|
        invariant forall j :: 0 <= j < i ==> sockets[j] == released[j]
        invariant forall j :: i <= j < |sockets| ==> sockets[j] == old(sockets)[j]
      {
        if Live(sockets[i], key) {
          sockets := sockets[i := sockets[i].(port := None)];
          if !keepSockets { EndSocket(i, Close(1011, "Worker stopped")); }
        }
      }
    }

    method DiscardPlacement(p: nat, keepSockets: bool)
      modifies this
      ensures Model() == Discard(old(Model()), p, keepSockets)
    {
      if !(p < |placements| && placements[p].key in workers && workers[placements[p].key] == p) { return; }
      var key := placements[p].key;
      placements := placements[p := placements[p].(hibernation := None)];
      workers := workers - {key};
      if !keepSockets { hibernated := hibernated - {key}; }
      if placements[p].readiness.Pending? { placements := placements[p := placements[p].(readiness := Rejected)]; }
      ReleaseSockets(key, keepSockets);
    }

    method IdentifyKey(key: Key)
      modifies this`identities, this`known
      ensures Model() == Identify(old(Model()), key)
    {
      if key !in identities {
        identities := identities[key := 0];
        known := known + [key];
      }
    }

    /** Hands the key's stored snapshot, if any, to the worker that starts. */
    method RestoreSockets(key: Key, snapshot: Option<Snapshot>) returns (missing: bool)
      modifies this`sockets
      ensures (sockets, missing) == Restored(old(sockets), key, snapshot)
    {
      hide Describes;
      missing := false;
      if snapshot.Some? {
        if Describes(sockets, key, snapshot.value) {
          missing := Rehydrate(key, snapshot.value);
        } else {
          EndSockets(key, Close(1011, "Worker snapshot no longer matches its transports"));
        }
      }
    }

    /** The transports, and whether one is missing, once the key's snapshot, if any, was handed over. */
    static function Restored(sockets: seq<Socket>, key: Key, snapshot: Option<Snapshot>): (seq<Socket>, bool) {
      if snapshot.None? then (sockets, false)
      else if Describes(sockets, key, snapshot.value) then
        Rehydrated(sockets, key, Ids(snapshot.value))
      else (EndAll(sockets, key, Close(1011, "Worker snapshot no longer matches its transports")), false)
    }

    static function StoredSnapshot(st: State, key: Key): Option<Snapshot> {
      if key in st.hibernated then Some(st.hibernated[key]) else None
    }

    static lemma SpawnIs(st: State, key: Key, outcome: Outcome)
      ensures Spawn(st, key, outcome) ==
        if outcome.CreateFails? then (st, Threw)
        else
          var p := |st.placements|;
          var (sockets, missing) := Restored(st.sockets, key, StoredSnapshot(st, key));
          var restored := st.(workers := st.workers[key := p], hibernated := st.hibernated - {key}, sockets := sockets,
                              placements := st.placements + [Placement(key, false, Pending, None)]);
          if missing || outcome.PostFails? then (Discard(restored, p, false), Threw) else (restored, Ok(p))
    {
      hide Discard, Describes, Ids, Rehydrated, EndAll, LiveIds;
    }

    method SpawnWorker(key: Key, outcome: Outcome) returns (r: Result<nat>)
      modifies this
      ensures (Model(), r) == Spawn(old(Model()), key, outcome)
    {
      SpawnIs(Model(), key, outcome);
      hide Discard, Spawn, Restored;
      if outcome.CreateFails? { return Threw; }
      var p := |placements|;
      var snapshot := if key in hibernated then Some(hibernated[key]) else None;
      var missing := RestoreSockets(key, snapshot);
      placements := placements + [Placement(key, false, Pending, None)];
      workers := workers[key := p];
      hibernated := hibernated - {key};
      if missing || outcome.PostFails? {
        DiscardPlacement(p, false);
        return Threw;
      }
      return Ok(p);
    }

    method CancelProbe(p: nat)
      requires p < |placements|
      modifies this`attempts
      ensures Model() == Cancel(old(Model()), p)
    {
      if placements[p].hibernation.Some? {
        var a := placements[p].hibernation.value;
        if a < |attempts| { attempts := attempts[a := attempts[a].(canceled := true)]; }
      }
    }

    method EnsureWorker(key: Key, outcome: Outcome) returns (r: Result<nat>)
      requires Valid()
      modifies this
      ensures (Model(), r) == Ensure(old(Model()), key, outcome)
      ensures Valid()
    {
      ghost var before := Model();
      EnsureKeeps(before, key, outcome);
      WorkerExists(before, key);
      if disposed || exists j :: 0 <= j < |deletions| && !deletions[j].cleared && deletions[j].includes(key) {
        return Threw;
      }
      IdentifyKey(key);
      if key !in workers {
        r := SpawnWorker(key, outcome);
      } else {
        CancelProbe(workers[key]);
        r := Ok(workers[key]);
      }
    }

    static lemma WorkerExists(st: State, key: Key)
      requires Reachable(st)
      ensures key in st.workers ==> st.workers[key] < |st.placements|
    {
      assert KeyOk(st, key);
    }

    // ---- Client transports ----

    method TakeFrame(s: nat, frame: Frame, p: nat)
      requires s < |sockets| && p < |placements|
      modifies this`sockets
      ensures sockets == old(sockets)[s := Receiving(old(sockets)[s], frame, Holding(placements[p]))]
    {
      if sockets[s].port.None? { AttachPort(s); }
      sockets := sockets[s := sockets[s].(accepted := sockets[s].accepted + [frame])];
      if !placements[p].readyNow || placements[p].hibernation.Some? {
        sockets := sockets[s := sockets[s].(pending := sockets[s].pending + [frame])];
      } else {
        PostFrame(s, frame);
      }
    }

    method ReceiveFrame(s: nat, frame: Frame, outcome: Outcome) returns (r: Result<()>)
      requires Valid() && s < |sockets|
      modifies this
      ensures (Model(), r) == Receive(old(Model()), s, frame, outcome)
      ensures Valid() && |sockets| == |old(sockets)|
    {
      ReceiveStepOk(Model(), s, frame, outcome);
      ReceiveKeepsCount(Model(), s, frame, outcome);
      hide Reachable, Ensure, Receiving, Holding;
      if sockets[s].closed || (sockets[s].closing && !frame.Close?) { return Ok(()); }
      var ensured := EnsureWorker(sockets[s].key, outcome);
      if ensured.Threw? { return Threw; }
      if s >= |sockets| || sockets[s].closed || ensured.value >= |placements| { return Ok(()); }
      TakeFrame(s, frame, ensured.value);
      return Ok(());
    }

    static lemma ReceiveKeepsCount(st: State, s: nat, frame: Frame, outcome: Outcome)
      requires Reachable(st) && s < |st.sockets|
      ensures |Receive(st, s, frame, outcome).0.sockets| == |st.sockets|
    {
      hide BarrierOk, QueueOk;
      ReceiveOk(st, s, frame, outcome);
    }

    /** Takes a close as the client's last frame, so an actor that sleeps is woken to hear it. */
    method CloseClient(s: nat, close: Frame, notifyPeer: bool, outcome: Outcome) returns (r: Result<()>)
      requires Valid() && s < |sockets|
      modifies this
      ensures (Model(), r) == CloseSocket(old(Model()), s, close, notifyPeer, outcome)
      ensures Valid()
    {
      ghost var before := Model();
      if sockets[s].closed || sockets[s].closing { return Ok(()); }
      ghost var closing := before.sockets[s].(
        closing := true, heard := if notifyPeer then before.sockets[s].heard + [close] else before.sockets[s].heard);
      var heard := if notifyPeer then sockets[s].heard + [close] else sockets[s].heard;
      sockets := sockets[s := sockets[s].(closing := true, heard := heard)];
      assert Model() == before.(sockets := before.sockets[s := closing]);
      ClosingOk(before, s, closing);
      hide Receive, Reachable;
      r := ReceiveFrame(s, close, outcome);
    }

    static lemma ClosingOk(st: State, s: nat, closing: Socket)
      requires Reachable(st) && s < |st.sockets| && !st.sockets[s].closed
      requires closing == st.sockets[s].(closing := true, heard := closing.heard)
      ensures Reachable(st.(sockets := st.sockets[s := closing]))
    {
      hide BarrierOk, QueueOk;
      UpdateSocketOk(st, s, closing);
      HarmlessStep(st, st.(sockets := st.sockets[s := closing]));
    }

    method ConnectClient(key: Key, id: string, outcome: Outcome, connectFails: bool) returns (r: Result<()>)
      requires Valid()
      modifies this
      ensures (Model(), r) == Connect(old(Model()), key, id, outcome, connectFails)
      ensures Valid()
    {
      ConnectStepOk(Model(), key, id, outcome, connectFails);
      hide Reachable, Ensure, CloseSocket;
      var socket := NewSocket(key, id);
      var previous := FindLive(sockets, key, id);
      if previous.Some? {
        var closed := CloseClient(previous.value, Close(1008, "Connection superseded"), true, outcome);
        if closed.Threw? { return Threw; }
        socket := socket.(heard := [Close(1012, "Previous connection is closing")]);
        sockets := sockets + [Finish(socket, Refused)];
        return Ok(());
      }
      // The new socket joins `sockets` only now that no snapshot can be compared with them.
      var ensured := EnsureWorker(key, outcome);
      if ensured.Threw? || connectFails {
        sockets := sockets + [Finish(socket, Refused)];
        return Threw;
      }
      sockets := sockets + [Attach(socket)];
      return Ok(());
    }

    method ReceivePortMessage(s: nat, port: nat, frame: Frame)
      requires Valid() && s < |sockets|
      modifies this`sockets
      ensures Model() == PortMessage(old(Model()), s, port, frame)
      ensures Valid()
    {
      PortStepOk(Model(), s, port, frame);
      hide Reachable;
      if sockets[s].port != Some(port) { return; }
      sockets := sockets[s := sockets[s].(heard := sockets[s].heard + [frame])];
      if frame.Close? { FinishSocket(s, ByWorker); }
    }

    method CloseKeySockets(key: Key, close: Frame)
      modifies this`hibernated, this`sockets
      ensures Model() == CloseSockets(old(Model()), key, close)
      ensures old(Valid()) ==> Valid()
    {
      if Reachable(Model()) { CloseSocketsStepOk(Model(), key, close); }
      hide Reachable;
      hibernated := hibernated - {key};
      EndSockets(key, close);
    }

    method StopWorker(key: Key, reason: string)
      requires Valid()
      modifies this
      ensures Model() == Stop(old(Model()), key, reason)
      ensures Valid()
    {
      StopStepOk(Model(), key, reason);
      hide Reachable;
      if key in workers {
        DiscardPlacement(workers[key], false);
      } else {
        CloseKeySockets(key, Close(1011, reason));
      }
    }

    // ---- Worker events and hibernation ----

    method OnReady(p: nat)
      requires Valid()
      modifies this`placements, this`sockets
      ensures Model() == Ready(old(Model()), p)
      ensures Valid()
    {
      ReadyStepOk(Model(), p);
      hide Reachable, Flush;
      if !(p < |placements| && placements[p].key in workers && workers[placements[p].key] == p) { return; }
      var readiness := if placements[p].readiness.Pending? then Resolved else placements[p].readiness;
      placements := placements[p := placements[p].(readyNow := true, readiness := readiness)];
      FlushPlacement(p);
    }

    method OnFailed(p: nat)
      requires Valid()
      modifies this
      ensures Model() == Discard(old(Model()), p, false)
      ensures Valid()
    {
      FailStepOk(Model(), p);
      hide Reachable;
      DiscardPlacement(p, false);
    }

    method ReportLifecycleActive(p: nat)
      requires Valid()
      modifies this`attempts
      ensures Model() == ReportActive(old(Model()), p)
      ensures Valid()
    {
      ReadyStepOk(Model(), p);
      hide Reachable;
      if !(p < |placements| && placements[p].key in workers && workers[placements[p].key] == p) { return; }
      CancelProbe(p);
    }

    /** Up to the call of `prepareHibernation()`. */
    method BeginHibernation(p: nat)
      requires Valid()
      modifies this`attempts, this`placements
      ensures Model() == HibernateStart(old(Model()), p)
      ensures Valid()
    {
      ProbeStartOk(Model(), p);
      hide Reachable;
      if !(p < |placements| && placements[p].key in workers && workers[placements[p].key] == p) { return; }
      if placements[p].hibernation.Some? { return; }
      placements := placements[p := placements[p].(hibernation := Some(|attempts|))];
      attempts := attempts + [Attempt(p, false, false)];
    }

    /** The probe is over: what its sockets held goes out. */
    method ResumePlacement(p: nat)
      requires p < |placements|
      modifies this`placements, this`sockets
      ensures Model() == Resume(old(Model()), p)
    {
      hide Flush;
      placements := placements[p := placements[p].(hibernation := None)];
      FlushPlacement(p);
    }

    /** From the answer of `prepareHibernation()`. */
    method EndHibernation(a: nat, reply: Reply) returns (hibernating: bool)
      requires Valid() && a < |attempts| && !attempts[a].replied
      modifies this
      ensures Model() == HibernateReply(old(Model()), a, reply)
      ensures Valid()
    {
      ProbeReplyOk(Model(), a, reply);
      hide Reachable, Resume, Discard, Describes;
      attempts := attempts[a := attempts[a].(replied := true)];
      var p := attempts[a].placement;
      if !(p < |placements| && placements[p].key in workers && workers[placements[p].key] == p) { return false; }
      var key := placements[p].key;
      if !reply.Prepared? || attempts[a].canceled || !Describes(sockets, key, reply.snapshot) {
        ResumePlacement(p);
        return false;
      }
      hibernated := hibernated[key := reply.snapshot];
      DiscardPlacement(p, true);
      return true;
    }

    method EndEverySocket()
      modifies this`sockets
      ensures sockets == DisposeSockets(old(sockets), workers.Keys, hibernated.Keys)
    {
      ghost var released := DisposeSockets(old(sockets), workers.Keys, hibernated.Keys);
      for i := 0 to |sockets|
        invariant |sockets| == |old(sockets)|
        invariant forall j :: 0 <= j < i ==> sockets[j] == released[j]
        invariant forall j :: i <= j < |sockets| ==> sockets[j] == old(sockets)[j]
      {
        if !sockets[i].closed {
          if sockets[i].key in workers {
            sockets := sockets[i := sockets[i].(port := None)];
            EndSocket(i, Close(1011, "Worker stopped"));
          } else if sockets[i].key in hibernated {
            EndSocket(i, Close(1001, "Supervisor disposed"));
          }
        }
      }
    }

    method DisposeAll()
      requires Valid()
      modifies this
      ensures Model() == Dispose(old(Model()))
      ensures Valid()
    {
      ghost var before := Model();
      DisposeStepOk(before);
      DisposeIs(before);
      hide Reachable, Dispose, DisposeSockets, RejectRunning;
      if disposed { return; }
      disposed := true;
      DiscardEverything();
    }

    /** Every worker and every hibernated key goes, with its sockets. */
    method DiscardEverything()
      modifies this`sockets, this`placements, this`workers, this`hibernated
      ensures sockets == DisposeSockets(old(sockets), old(workers.Keys), old(hibernated.Keys))
      ensures placements == RejectRunning(old(placements), old(workers))
      ensures workers == map[] && hibernated == map[]
    {
      hide DisposeSockets, RejectRunning;
      EndEverySocket();
      RejectAll();
      workers, hibernated := map[], map[];
    }

    static lemma DisposeIs(st: State)
      ensures Dispose(st) == if st.disposed then st
        else State(map[], RejectRunning(st.placements, st.workers), st.attempts, map[],
                   DisposeSockets(st.sockets, st.workers.Keys, st.hibernated.Keys), st.identities, st.known,
                   st.deletions, st.tail, st.removals, st.references, st.resolves, true)
    {
      hide DisposeSockets, RejectRunning;
    }

    method RejectAll()
      modifies this`placements
      ensures placements == RejectRunning(old(placements), workers)
    {
      for p := 0 to |placements|
        invariant |placements| == |old(placements)|
        invariant forall q :: 0 <= q < p ==>
          placements[q] ==
            if IsRunning(old(placements)[q], q, workers) then Reject(old(placements)[q]) else old(placements)[q]
        invariant forall q :: p <= q < |placements| ==> placements[q] == old(placements)[q]
      {
        if placements[p].key in workers && workers[placements[p].key] == p {
          placements := placements[p := Reject(placements[p])];
        }
      }
    }

    // ---- Deletion ----

    method TeardownTargets(targets: seq<Key>)
      requires Inv(Model())
      modifies this
      ensures Model() == Teardown(old(Model()), targets)
    {
      hide Inv, Stop, CloseSockets;
      for i := 0 to |targets|
        invariant Teardown(old(Model()), targets) == Teardown(Model(), targets[i..])
      {
        assert targets[i..][0] == targets[i] && targets[i..][1..] == targets[i + 1..];
        CloseKeySockets(targets[i], Close(1001, "Worker deleted"));
        StopTarget(targets[i], "Worker deleted");
      }
    }

    method StopTarget(key: Key, reason: string)
      modifies this
      ensures Model() == Stop(old(Model()), key, reason)
    {
      hide Discard, CloseSockets;
      if key in workers {
        DiscardPlacement(workers[key], false);
      } else {
        CloseKeySockets(key, Close(1011, reason));
      }
    }

    /** Bars the way to everything within the deletion and makes references to it stale. */
    method RaiseBarrier(key: Key, includes: Key -> bool) returns (targets: seq<Key>)
      modifies this`identities, this`known, this`deletions, this`deletionTail
      ensures Model() == Fenced(old(Model()), key, includes)
      ensures targets == Filter(known, Within(key, includes))
    {
      IdentifyKey(key);
      var within := Within(key, includes);
      targets := Filter(known, within);
      // Up before anything stops, so nothing covered can start again.
      deletions := deletions + [Deletion(within, targets, deletionTail, Waiting, false)];
      deletionTail := Some(|deletions| - 1);
      identities := map k | k in identities :: if within(k) then identities[k] + 1 else identities[k];
    }

    method DeleteStorage(key: Key, includes: Key -> bool)
      requires Valid()
      modifies this
      ensures Model() == Delete(old(Model()), key, includes)
      ensures Valid()
    {
      DeleteOk(Model(), key, includes);
      FencedOk(Model(), key, includes);
      hide Reachable, Teardown, Inv;
      var targets := RaiseBarrier(key, includes);
      TeardownTargets(targets);
    }

    /** The deletion's turn has come, or one of its removals ended. */
    method Progress(j: nat, index: nat, failed: bool)
      requires j < |deletions|
      modifies this`deletions, this`removals
      ensures Model() == Progressed(old(Model()), j, index, failed)
    {
      var targets := deletions[j].targets;
      if index < |targets| {
        deletions := deletions[j := deletions[j].(progress := Removing(index, failed))];
        removals := removals + [targets[index]];
      } else {
        deletions := deletions[j := deletions[j].(progress := Settled(failed))];
      }
    }

    method BeginRemovals(j: nat)
      requires Valid()
      modifies this`deletions, this`removals
      ensures Model() == DeletionStart(old(Model()), j)
      ensures Valid()
    {
      DeletionStartOk(Model(), j);
      hide Reachable;
      if j >= |deletions| || !deletions[j].progress.Waiting? { return; }
      var after := deletions[j].after;
      if after.None? || (after.value < |deletions| && deletions[after.value].progress.Settled?) {
        Progress(j, 0, false);
      }
    }

    method EndRemoval(j: nat, ok: bool)
      requires Valid()
      modifies this`deletions, this`removals
      ensures Model() == RemovalEnd(old(Model()), j, ok)
      ensures Valid()
    {
      RemovalEndOk(Model(), j, ok);
      hide Reachable;
      if j < |deletions| && deletions[j].progress.Removing? {
        Progress(j, deletions[j].progress.index + 1, deletions[j].progress.failed || !ok);
      }
    }

    method ClearDeletion(j: nat)
      requires Valid()
      modifies this`deletions
      ensures Model() == DeletionClear(old(Model()), j)
      ensures Valid()
    {
      ClearOk(Model(), j);
      hide Reachable;
      if j < |deletions| && deletions[j].progress.Settled? {
        deletions := deletions[j := deletions[j].(cleared := true)];
      }
    }

    // ---- References and resolve ----

    method TakeReference(key: Key) returns (reference: nat)
      requires Valid()
      modifies this`identities, this`known, this`references
      ensures Model() == MakeReference(old(Model()), key) && reference == |old(references)|
      ensures Valid()
    {
      MakeReferenceOk(Model(), key);
      hide Reachable;
      IdentifyKey(key);
      reference := |references|;
      references := references + [Reference(key, identities[key])];
    }

    static lemma CoveringNext(st: State, key: Key, j: nat, on: seq<nat>)
      requires j < |st.deletions|
      ensures on + Covering(st, key, j) ==
        (if !st.deletions[j].cleared && st.deletions[j].includes(key) then on + [j] else on) + Covering(st, key, j + 1)
    {
    }

    /** The deletions that cover the key now, which a `resolve()` call waits for together. */
    method PendingDeletions(key: Key) returns (on: seq<nat>)
      ensures on == Covering(Model(), key, 0)
    {
      on := [];
      for j := 0 to |deletions|
        invariant Covering(Model(), key, 0) == on + Covering(Model(), key, j)
      {
        CoveringNext(Model(), key, j, on);
        if !deletions[j].cleared && deletions[j].includes(key) { on := on + [j]; }
      }
    }

    method BeginResolve(key: Key, epoch: Option<nat>)
      requires Valid()
      modifies this`resolves
      ensures Model() == ResolveStart(old(Model()), key, epoch)
      ensures Valid()
    {
      ResolveStartOk(Model(), key, epoch);
      hide Reachable;
      if epoch.Some? && (key !in identities || identities[key] != epoch.value) {
        resolves := resolves + [Resolve(key, epoch, Rejection)];
        return;
      }
      var on := PendingDeletions(key);
      resolves := resolves + [Resolve(key, epoch, AwaitDeletions(on))];
    }

    method SetStage(r: nat, stage: Stage)
      requires r < |resolves|
      modifies this`resolves
      ensures Model() == MoveTo(old(Model()), r, stage)
    {
      resolves := resolves[r := resolves[r].(stage := stage)];
    }

    method ContinueResolve(r: nat, outcome: Outcome)
      requires Valid()
      modifies this
      ensures Model() == ResolveStep(old(Model()), r, outcome)
      ensures Valid()
    {
      ResolveStepOk(Model(), r, outcome);
      hide Reachable, Ensure;
      if r >= |resolves| { return; }
      var call := resolves[r];
      match call.stage
      case AwaitDeletions(on) =>
        ContinueAfterDeletions(r, on, outcome);
      case AwaitReady(p) =>
        if p >= |placements| || placements[p].readiness.Pending? { return; }
        var stale := call.epoch.Some? && (call.key !in identities || identities[call.key] != call.epoch.value);
        if placements[p].readiness.Rejected? || stale { SetStage(r, Rejection); } else { SetStage(r, Served(p)); }
      case _ =>
    }

    method ContinueAfterDeletions(r: nat, on: seq<nat>, outcome: Outcome)
      requires Valid() && r < |resolves| && resolves[r].stage == AwaitDeletions(on)
      modifies this
      ensures Model() == ResolveStep(old(Model()), r, outcome)
    {
      hide Reachable, Ensure;
      var call := resolves[r];
      if exists i :: 0 <= i < |on| && on[i] < |deletions| && deletions[on[i]].progress == Settled(true) {
        SetStage(r, Rejection);
        return;
      }
      if exists i :: 0 <= i < |on| && !(on[i] < |deletions| && deletions[on[i]].progress.Settled?) { return; }
      if on != [] {
        var more := PendingDeletions(call.key);
        SetStage(r, AwaitDeletions(more));
        return;
      }
      if call.epoch.Some? && (call.key !in identities || identities[call.key] != call.epoch.value) {
        SetStage(r, Rejection);
        return;
      }
      EnsureKeeps(Model(), call.key, outcome);
      var ensured := EnsureWorker(call.key, outcome);
      SetStage(r, if ensured.Ok? then AwaitReady(ensured.value) else Rejection);
    }
  }
}
