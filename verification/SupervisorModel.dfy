/**
 * The worker supervisor of `src/browser/worker-supervisor.ts` as a state machine: one step for each
 * stretch of code between two awaits. Placements, sockets, hibernation attempts, deletions and
 * pending `resolve` calls are objects the source holds by reference; here a reference is an index
 * into the sequence of every object of that kind ever made.
 */
module SupervisorModel {
  import opened Prelude

  type Key = string

  datatype Frame = Data(payload: string) | Close(code: int, reason: string)

  /** Why a socket is over. */
  datatype Ending =
    | Delivered     // a close frame from its peer, or from `close()`, reached its port
    | ByWorker      // its worker closed it
    | BySupervisor  // its worker stopped, or the supervisor ended it
    | Refused       // it was never registered

  datatype Socket = Socket(
    key: Key, id: string,
    pending: seq<Frame>, closing: bool, closed: bool,
    port: Option<nat>,   // its current port, numbered by attachment
    ports: nat,          // attachments so far
    // What a bystander sees:
    accepted: seq<Frame>,  // frames taken from the peer or from `close()`
    posted: seq<Frame>,    // frames posted to its successive ports
    farewell: seq<Frame>,  // closes the supervisor itself posted to a port
    heard: seq<Frame>,     // frames sent to the peer
    ending: Option<Ending>)

  datatype Readiness = Pending | Resolved | Rejected

  datatype Placement = Placement(key: Key, readyNow: bool, readiness: Readiness, hibernation: Option<nat>)

  /** A hibernation probe, waiting for `prepareHibernation()` until `replied`. */
  datatype Attempt = Attempt(placement: nat, canceled: bool, replied: bool)

  /** The transport ids a snapshot names, in the root container and in each facet. */
  datatype Snapshot = Snapshot(root: seq<string>, facets: seq<seq<string>>)

  datatype Reply = Busy | Failed | Malformed | Prepared(snapshot: Snapshot)

  datatype Progress = Waiting | Removing(index: nat, failed: bool) | Settled(failed: bool)

  datatype Deletion = Deletion(
    includes: Key -> bool, targets: seq<Key>, after: Option<nat>, progress: Progress, cleared: bool)

  /** A capability from `reference()`: the identity's epoch when it was made. */
  datatype Reference = Reference(key: Key, epoch: nat)

  datatype Stage = AwaitDeletions(on: seq<nat>) | AwaitReady(placement: nat) | Served(placement: nat) | Rejection

  datatype Resolve = Resolve(key: Key, epoch: Option<nat>, stage: Stage)

  datatype State = State(
    workers: map<Key, nat>, placements: seq<Placement>, attempts: seq<Attempt>,
    hibernated: map<Key, Snapshot>, sockets: seq<Socket>,
    identities: map<Key, nat>, known: seq<Key>,
    deletions: seq<Deletion>, tail: Option<nat>, removals: seq<Key>,
    references: seq<Reference>, resolves: seq<Resolve>, disposed: bool)

  const INITIAL := State(map[], [], [], map[], [], map[], [], [], None, [], [], [], false)

  /** How creating a worker and posting to it turn out; both belong to the platform. */
  datatype Outcome = Works | CreateFails | PostFails

  // ---- Sockets ----

  function NewSocket(key: Key, id: string): Socket {
    Socket(key, id, [], false, false, None, 0, [], [], [], [], None)
  }

  predicate Live(socket: Socket, key: Key) {
    socket.key == key && !socket.closed
  }

  function Attach(socket: Socket): Socket {
    socket.(port := Some(socket.ports), ports := socket.ports + 1)
  }

  function Finish(socket: Socket, ending: Ending): Socket {
    if socket.closed then socket else socket.(closed := true, port := None, ending := Some(ending))
  }

  function End(socket: Socket, close: Frame): Socket {
    Finish(socket.(
      closing := true,
      farewell := if socket.port.Some? then socket.farewell + [close] else socket.farewell,
      heard := socket.heard + [close]), BySupervisor)
  }

  function Post(socket: Socket, frame: Frame): Socket {
    if socket.port.None? then socket.(pending := socket.pending + [frame])
    else
      var sent := socket.(posted := socket.posted + [frame]);
      if frame.Close? then Finish(sent, Delivered) else sent
  }

  /** Posts `frames` until one of them closes the socket; the rest are dropped. */
  function PostAll(socket: Socket, frames: seq<Frame>): Socket
    decreases |frames|
  {
    if frames == [] || socket.closed then socket else PostAll(Post(socket, frames[0]), frames[1..])
  }

  function Deliver(socket: Socket): Socket {
    if socket.port.None? then socket else PostAll(socket.(pending := []), socket.pending)
  }

  function DeliverAll(sockets: seq<Socket>, key: Key): (r: seq<Socket>)
    ensures |r| == |sockets|
    ensures forall i :: 0 <= i < |r| ==> r[i] == if Live(sockets[i], key) then Deliver(sockets[i]) else sockets[i]
  {
    seq(|sockets|, i requires 0 <= i < |sockets| => if Live(sockets[i], key) then Deliver(sockets[i]) else sockets[i])
  }

  function EndAll(sockets: seq<Socket>, key: Key, close: Frame): (r: seq<Socket>)
    ensures |r| == |sockets|
    ensures forall i :: 0 <= i < |r| ==> r[i] == if Live(sockets[i], key) then End(sockets[i], close) else sockets[i]
  {
    seq(|sockets|, i requires 0 <= i < |sockets| => if Live(sockets[i], key) then End(sockets[i], close) else sockets[i])
  }

  function DetachAll(sockets: seq<Socket>, key: Key): (r: seq<Socket>)
    ensures |r| == |sockets|
    ensures forall i :: 0 <= i < |r| ==> r[i] == if Live(sockets[i], key) then sockets[i].(port := None) else sockets[i]
  {
    seq(|sockets|, i requires 0 <= i < |sockets| =>
      if Live(sockets[i], key) then sockets[i].(port := None) else sockets[i])
  }

  function LiveIds(sockets: seq<Socket>, key: Key): set<string> {
    set i | 0 <= i < |sockets| && Live(sockets[i], key) :: sockets[i].id
  }

  /** The first live socket of `key` with this id. */
  function FindLive(sockets: seq<Socket>, key: Key, id: string): (r: Option<nat>)
    ensures r.Some? ==> r.value < |sockets| && Live(sockets[r.value], key) && sockets[r.value].id == id
    ensures r.None? ==> forall i :: 0 <= i < |sockets| && Live(sockets[i], key) ==> sockets[i].id != id
  {
    FindLiveFrom(sockets, key, id, 0)
  }

  function FindLiveFrom(sockets: seq<Socket>, key: Key, id: string, from: nat): (r: Option<nat>)
    requires from <= |sockets|
    ensures r.Some? ==> from <= r.value < |sockets| && Live(sockets[r.value], key) && sockets[r.value].id == id
    ensures r.Some? ==> forall i :: from <= i < r.value && Live(sockets[i], key) ==> sockets[i].id != id
    ensures r.None? ==> forall i :: from <= i < |sockets| && Live(sockets[i], key) ==> sockets[i].id != id
    decreases |sockets| - from
  {
    if from == |sockets| then None
    else if Live(sockets[from], key) && sockets[from].id == id then Some(from)
    else FindLiveFrom(sockets, key, id, from + 1)
  }

  /** The transport a lookup by id finds: the last live socket of `key` with this id. */
  function Transport(sockets: seq<Socket>, key: Key, id: string): (r: Option<nat>)
    ensures r.Some? ==> r.value < |sockets| && Live(sockets[r.value], key) && sockets[r.value].id == id
    ensures r.None? <==> id !in LiveIds(sockets, key)
  {
    TransportBefore(sockets, key, id, |sockets|)
  }

  function TransportBefore(sockets: seq<Socket>, key: Key, id: string, before: nat): (r: Option<nat>)
    requires before <= |sockets|
    ensures r.Some? ==> r.value < before && Live(sockets[r.value], key) && sockets[r.value].id == id
    ensures r.None? ==> forall i :: 0 <= i < before && Live(sockets[i], key) ==> sockets[i].id != id
  {
    if before == 0 then None
    else if Live(sockets[before - 1], key) && sockets[before - 1].id == id then Some(before - 1)
    else TransportBefore(sockets, key, id, before - 1)
  }

  /** Attaches the transports a snapshot names, in its order, up to the first that is missing. */
  function Rehydrated(sockets: seq<Socket>, key: Key, ids: seq<string>): (seq<Socket>, bool)
    decreases |ids|
  {
    if ids == [] then (sockets, false)
    else
      var s := Transport(sockets, key, ids[0]);
      if s.None? then (sockets, true)
      else Rehydrated(sockets[s.value := Attach(sockets[s.value])], key, ids[1..])
  }

  // ---- Snapshots ----

  function Flatten(parts: seq<seq<string>>): seq<string> {
    if parts == [] then [] else parts[0] + Flatten(parts[1..])
  }

  function Ids(snapshot: Snapshot): seq<string> {
    snapshot.root + Flatten(snapshot.facets)
  }

  /** No live transport of the key is missing from the snapshot, repeated in it, or unknown to it. */
  predicate Describes(sockets: seq<Socket>, key: Key, snapshot: Snapshot) {
    var ids := Ids(snapshot);
    var live := LiveIds(sockets, key);
    && |ids| == |set id | id in ids|
    && |ids| == |live|
    && forall id :: id in ids ==> id in live
  }

  // ---- Placements ----

  predicate Current(st: State, p: nat) {
    p < |st.placements| && st.placements[p].key in st.workers && st.workers[st.placements[p].key] == p
  }

  function Reject(placement: Placement): Placement {
    placement.(hibernation := None, readiness := if placement.readiness.Pending? then Rejected else placement.readiness)
  }

  function Discard(st: State, p: nat, keepSockets: bool): State {
    if !Current(st, p) then st
    else
      var key := st.placements[p].key;
      var detached := DetachAll(st.sockets, key);
      st.(
        workers := st.workers - {key},
        placements := st.placements[p := Reject(st.placements[p])],
        hibernated := if keepSockets then st.hibernated else st.hibernated - {key},
        sockets := if keepSockets then detached else EndAll(detached, key, Close(1011, "Worker stopped")))
  }

  function Cancel(st: State, p: nat): State
    requires p < |st.placements|
  {
    match st.placements[p].hibernation
    case None => st
    case Some(a) => if a < |st.attempts| then st.(attempts := st.attempts[a := st.attempts[a].(canceled := true)]) else st
  }

  function Flush(st: State, p: nat): State
    requires p < |st.placements|
  {
    var placement := st.placements[p];
    if !placement.readyNow || placement.hibernation.Some? then st
    else st.(sockets := DeliverAll(st.sockets, placement.key))
  }

  function Resume(st: State, p: nat): State
    requires p < |st.placements|
  {
    Flush(st.(placements := st.placements[p := st.placements[p].(hibernation := None)]), p)
  }

  function Identify(st: State, key: Key): State {
    if key in st.identities then st else st.(identities := st.identities[key := 0], known := st.known + [key])
  }

  /** A worker starts for `key`; a stored snapshot reattaches the sockets it names. */
  function Spawn(st: State, key: Key, outcome: Outcome): (State, Result<nat>) {
    if outcome.CreateFails? then (st, Threw)
    else
      var p := |st.placements|;
      var started := st.(
        workers := st.workers[key := p],
        placements := st.placements + [Placement(key, false, Pending, None)],
        hibernated := st.hibernated - {key});
      var (restored, missing) :=
        if key !in st.hibernated then (started, false)
        else if !Describes(st.sockets, key, st.hibernated[key]) then
          (started.(sockets :=
            EndAll(st.sockets, key, Close(1011, "Worker snapshot no longer matches its transports"))), false)
        else
          var (sockets, missing) := Rehydrated(st.sockets, key, Ids(st.hibernated[key]));
          (started.(sockets := sockets), missing);
      if missing || outcome.PostFails? then (Discard(restored, p, false), Threw) else (restored, Ok(p))
  }

  predicate Covered(st: State, key: Key) {
    exists j :: 0 <= j < |st.deletions| && !st.deletions[j].cleared && st.deletions[j].includes(key)
  }

  /** The key's worker, started if there is none; new work cancels a probe. */
  function Ensure(st: State, key: Key, outcome: Outcome): (State, Result<nat>) {
    if st.disposed || Covered(st, key) then (st, Threw)
    else
      var known := Identify(st, key);
      if key !in st.workers then Spawn(known, key, outcome)
      else if st.workers[key] < |st.placements| then (Cancel(known, st.workers[key]), Ok(st.workers[key]))
      else (known, Ok(st.workers[key]))
  }

  // ---- Client transports ----

  /** Whether frames for a worker wait: while it starts, and while a probe runs. */
  predicate Holding(placement: Placement) {
    !placement.readyNow || placement.hibernation.Some?
  }

  /** A socket once one more frame of its peer is taken. */
  function Receiving(socket: Socket, frame: Frame, held: bool): Socket {
    var attached := if socket.port.None? then Attach(socket) else socket;
    var taken := attached.(accepted := attached.accepted + [frame]);
    if held then taken.(pending := taken.pending + [frame]) else Post(taken, frame)
  }

  function Receive(st: State, s: nat, frame: Frame, outcome: Outcome): (State, Result<()>)
    requires s < |st.sockets|
  {
    var socket := st.sockets[s];
    if socket.closed || (socket.closing && !frame.Close?) then (st, Ok(()))
    else
      var (awake, ensured) := Ensure(st, socket.key, outcome);
      if ensured.Threw? then (awake, Threw)
      else if s >= |awake.sockets| || awake.sockets[s].closed || ensured.value >= |awake.placements| then (awake, Ok(()))
      else
        var after := Receiving(awake.sockets[s], frame, Holding(awake.placements[ensured.value]));
        (awake.(sockets := awake.sockets[s := after]), Ok(()))
  }

  /** A close from outside is the client's last frame. */
  function CloseSocket(st: State, s: nat, close: Frame, notifyPeer: bool, outcome: Outcome): (State, Result<()>)
    requires s < |st.sockets|
  {
    var socket := st.sockets[s];
    if socket.closed || socket.closing then (st, Ok(()))
    else
      var closing := socket.(closing := true, heard := if notifyPeer then socket.heard + [close] else socket.heard);
      Receive(st.(sockets := st.sockets[s := closing]), s, close, outcome)
  }

  /** A client connects. `connectFails`: posting the port to the running worker throws. */
  function Connect(st: State, key: Key, id: string, outcome: Outcome, connectFails: bool): (State, Result<()>) {
    var joining := NewSocket(key, id);
    var previous := FindLive(st.sockets, key, id);
    if previous.Some? then
      var (closed, result) := CloseSocket(st, previous.value, Close(1008, "Connection superseded"), true, outcome);
      if result.Threw? then (closed, Threw)
      else
        var refused := joining.(heard := [Close(1012, "Previous connection is closing")]);
        (closed.(sockets := closed.sockets + [Finish(refused, Refused)]), Ok(()))
    else
      var (awake, ensured) := Ensure(st, key, outcome);
      if ensured.Threw? || connectFails then
        (awake.(sockets := awake.sockets + [Finish(joining, Refused)]), Threw)
      else
        (awake.(sockets := awake.sockets + [Attach(joining)]), Ok(()))
  }

  function PortMessage(st: State, s: nat, port: nat, frame: Frame): State
    requires s < |st.sockets|
  {
    var socket := st.sockets[s];
    if socket.port != Some(port) then st
    else
      var told := socket.(heard := socket.heard + [frame]);
      st.(sockets := st.sockets[s := if frame.Close? then Finish(told, ByWorker) else told])
  }

  function CloseSockets(st: State, key: Key, close: Frame): State {
    st.(hibernated := st.hibernated - {key}, sockets := EndAll(st.sockets, key, close))
  }

  function Stop(st: State, key: Key, reason: string): State {
    if key in st.workers then Discard(st, st.workers[key], false)
    else CloseSockets(st, key, Close(1011, reason))
  }

  // ---- Worker events and hibernation ----

  function Ready(st: State, p: nat): State {
    if !Current(st, p) then st
    else
      var placement := st.placements[p];
      Flush(st.(placements := st.placements[p := placement.(
        readyNow := true,
        readiness := if placement.readiness.Pending? then Resolved else placement.readiness)]), p)
  }

  function ReportActive(st: State, p: nat): State {
    if Current(st, p) then Cancel(st, p) else st
  }

  function HibernateStart(st: State, p: nat): State {
    if !Current(st, p) || st.placements[p].hibernation.Some? then st
    else st.(
      attempts := st.attempts + [Attempt(p, false, false)],
      placements := st.placements[p := st.placements[p].(hibernation := Some(|st.attempts|))])
  }

  /** `prepareHibernation()` settled for attempt `a`. */
  function HibernateReply(st: State, a: nat, reply: Reply): State {
    if a >= |st.attempts| || st.attempts[a].replied then st
    else
      var attempt := st.attempts[a];
      var answered := st.(attempts := st.attempts[a := attempt.(replied := true)]);
      var p := attempt.placement;
      if !Current(answered, p) then answered
      else
        var key := st.placements[p].key;
        if !reply.Prepared? || attempt.canceled || !Describes(st.sockets, key, reply.snapshot) then Resume(answered, p)
        else Discard(answered.(hibernated := st.hibernated[key := reply.snapshot]), p, true)
  }

  function Dispose(st: State): State {
    if st.disposed then st
    else st.(
      disposed := true,
      workers := map[],
      hibernated := map[],
      placements := RejectRunning(st.placements, st.workers),
      sockets := DisposeSockets(st.sockets, st.workers.Keys, st.hibernated.Keys))
  }

  predicate IsRunning(placement: Placement, p: nat, workers: map<Key, nat>) {
    placement.key in workers && workers[placement.key] == p
  }

  function RejectRunning(placements: seq<Placement>, workers: map<Key, nat>): (r: seq<Placement>)
    ensures |r| == |placements|
  {
    seq(|placements|, p requires 0 <= p < |placements| =>
      if IsRunning(placements[p], p, workers) then Reject(placements[p]) else placements[p])
  }

  function DisposeSockets(sockets: seq<Socket>, running: set<Key>, hibernated: set<Key>): (r: seq<Socket>)
    ensures |r| == |sockets|
  {
    seq(|sockets|, i requires 0 <= i < |sockets| =>
      var socket := sockets[i];
      if socket.closed then socket
      else if socket.key in running then End(socket.(port := None), Close(1011, "Worker stopped"))
      else if socket.key in hibernated then End(socket, Close(1001, "Supervisor disposed"))
      else socket)
  }

  // ---- Deletion ----

  function Within(key: Key, includes: Key -> bool): Key -> bool {
    candidate => candidate == key || includes(candidate)
  }

  function Filter(keys: seq<Key>, includes: Key -> bool): (r: seq<Key>)
    ensures forall key :: key in r <==> key in keys && includes(key)
  {
    if keys == [] then []
    else (if includes(keys[0]) then [keys[0]] else []) + Filter(keys[1..], includes)
  }

  function Teardown(st: State, targets: seq<Key>): State
    decreases |targets|
  {
    if targets == [] then st
    else Teardown(Stop(CloseSockets(st, targets[0], Close(1001, "Worker deleted")), targets[0], "Worker deleted"), targets[1..])
  }

  /** The synchronous part of `delete()`: the barrier goes up, references go stale, workers stop. */
  function Delete(st: State, key: Key, includes: Key -> bool): State {
    var known := Identify(st, key);
    var within := Within(key, includes);
    var targets := Filter(known.known, within);
    var deletion := Deletion(within, targets, st.tail, Waiting, false);
    Teardown(known.(
      deletions := st.deletions + [deletion],
      tail := Some(|st.deletions|),
      identities := map k | k in known.identities :: if within(k) then known.identities[k] + 1 else known.identities[k]),
      targets)
  }

  predicate HasSettled(st: State, j: Option<nat>) {
    j.Some? ==> j.value < |st.deletions| && st.deletions[j.value].progress.Settled?
  }

  function Progressed(st: State, j: nat, index: nat, failed: bool): State
    requires j < |st.deletions|
  {
    var deletion := st.deletions[j];
    if index < |deletion.targets| then st.(
      deletions := st.deletions[j := deletion.(progress := Removing(index, failed))],
      removals := st.removals + [deletion.targets[index]])
    else st.(deletions := st.deletions[j := deletion.(progress := Settled(failed))])
  }

  /** The previous deletion settled: this one removes its first target's storage. */
  function DeletionStart(st: State, j: nat): State {
    if j < |st.deletions| && st.deletions[j].progress.Waiting? && HasSettled(st, st.deletions[j].after)
    then Progressed(st, j, 0, false) else st
  }

  /** A `removeStorage()` call ended; a failure does not stop the others. */
  function RemovalEnd(st: State, j: nat, ok: bool): State {
    if j < |st.deletions| && st.deletions[j].progress.Removing?
    then Progressed(st, j, st.deletions[j].progress.index + 1, st.deletions[j].progress.failed || !ok) else st
  }

  function DeletionClear(st: State, j: nat): State {
    if j < |st.deletions| && st.deletions[j].progress.Settled?
    then st.(deletions := st.deletions[j := st.deletions[j].(cleared := true)]) else st
  }

  // ---- Resolving a service ----

  predicate Stale(st: State, key: Key, epoch: Option<nat>) {
    epoch.Some? && (key !in st.identities || st.identities[key] != epoch.value)
  }

  /** The indexes of the deletions that cover `key` now. */
  function Covering(st: State, key: Key, from: nat): seq<nat>
    requires from <= |st.deletions|
    decreases |st.deletions| - from
  {
    if from == |st.deletions| then []
    else (if !st.deletions[from].cleared && st.deletions[from].includes(key) then [from] else []) + Covering(st, key, from + 1)
  }

  function MakeReference(st: State, key: Key): State {
    var known := Identify(st, key);
    known.(references := known.references + [Reference(key, known.identities[key])])
  }

  function ResolveStart(st: State, key: Key, epoch: Option<nat>): State {
    var stage := if Stale(st, key, epoch) then Rejection else AwaitDeletions(Covering(st, key, 0));
    st.(resolves := st.resolves + [Resolve(key, epoch, stage)])
  }

  function MoveTo(st: State, r: nat, stage: Stage): State
    requires r < |st.resolves|
  {
    st.(resolves := st.resolves[r := st.resolves[r].(stage := stage)])
  }

  /** The promise a `resolve` call is suspended on has settled. */
  function ResolveStep(st: State, r: nat, outcome: Outcome): State {
    if r >= |st.resolves| then st
    else
      var call := st.resolves[r];
      match call.stage
      case AwaitDeletions(on) =>
        if exists i :: 0 <= i < |on| && on[i] < |st.deletions| && st.deletions[on[i]].progress == Settled(true) then
          MoveTo(st, r, Rejection)
        else if exists i :: 0 <= i < |on| && !HasSettled(st, Some(on[i])) then st
        else if on != [] then MoveTo(st, r, AwaitDeletions(Covering(st, call.key, 0)))
        else if Stale(st, call.key, call.epoch) then MoveTo(st, r, Rejection)
        else
          var (awake, ensured) := Ensure(st, call.key, outcome);
          if r >= |awake.resolves| then awake
          else MoveTo(awake, r, if ensured.Ok? then AwaitReady(ensured.value) else Rejection)
      case AwaitReady(p) =>
        if p >= |st.placements| || st.placements[p].readiness.Pending? then st
        else if st.placements[p].readiness.Rejected? || Stale(st, call.key, call.epoch) then MoveTo(st, r, Rejection)
        else MoveTo(st, r, Served(p))
      case Served(_) => st
      case Rejection => st
  }

  // ---- Runs ----

  datatype Event =
    | EnsureWorker(key: Key, outcome: Outcome)
    | ClientConnects(key: Key, id: string, outcome: Outcome, connectFails: bool)
    | ClientSends(socket: nat, frame: Frame, outcome: Outcome)
    | ClientControlCloses(socket: nat, close: Frame, outcome: Outcome)
    | HostClosesSockets(key: Key, close: Frame)
    | HostStops(key: Key, reason: string)
    | HostDeletes(key: Key, includes: Key -> bool)
    | HostDisposes
    | WorkerReady(placement: nat)
    | WorkerFails(placement: nat)
    | WorkerActive(placement: nat)
    | WorkerPosts(socket: nat, port: nat, frame: Frame)
    | ProbeStarts(placement: nat)
    | ProbeReplies(attempt: nat, reply: Reply)
    | RemovalsBegin(deletion: nat)
    | RemovalEnds(deletion: nat, ok: bool)
    | BarrierClears(deletion: nat)
    | ReferenceMade(key: Key)
    | ResolveBegins(key: Key)
    | ReferenceResolves(reference: nat)
    | ResolveContinues(call: nat, outcome: Outcome)

  function Step(st: State, e: Event): State {
    match e
    case EnsureWorker(key, outcome) => Ensure(st, key, outcome).0
    case ClientConnects(key, id, outcome, connectFails) => Connect(st, key, id, outcome, connectFails).0
    case ClientSends(s, frame, outcome) => if s < |st.sockets| then Receive(st, s, frame, outcome).0 else st
    case ClientControlCloses(s, close, outcome) =>
      if s < |st.sockets| && close.Close? then CloseSocket(st, s, close, false, outcome).0 else st
    case HostClosesSockets(key, close) => if close.Close? then CloseSockets(st, key, close) else st
    case HostStops(key, reason) => Stop(st, key, reason)
    case HostDeletes(key, includes) => Delete(st, key, includes)
    case HostDisposes => Dispose(st)
    case WorkerReady(p) => Ready(st, p)
    case WorkerFails(p) => Discard(st, p, false)
    case WorkerActive(p) => ReportActive(st, p)
    case WorkerPosts(s, port, frame) => if s < |st.sockets| then PortMessage(st, s, port, frame) else st
    case ProbeStarts(p) => HibernateStart(st, p)
    case ProbeReplies(a, reply) => HibernateReply(st, a, reply)
    case RemovalsBegin(j) => DeletionStart(st, j)
    case RemovalEnds(j, ok) => RemovalEnd(st, j, ok)
    case BarrierClears(j) => DeletionClear(st, j)
    case ReferenceMade(key) => MakeReference(st, key)
    case ResolveBegins(key) => ResolveStart(st, key, None)
    case ReferenceResolves(r) =>
      if r < |st.references| then ResolveStart(st, st.references[r].key, Some(st.references[r].epoch)) else st
    case ResolveContinues(r, outcome) => ResolveStep(st, r, outcome)
  }

  function Run(st: State, events: seq<Event>): State
    decreases |events|
  {
    if events == [] then st else Run(Step(st, events[0]), events[1..])
  }
}
