/** What holds of the worker supervisor in every run. */
module SupervisorRuns {
  import opened Prelude
  import opened SupervisorModel
  import opened SupervisorInvariant

  // ---- The deletion barrier and the removal queue ----

  ghost predicate BarrierOk(st: State) {
    forall key :: st.disposed || Covered(st, key) ==> Quiet(st, key)
  }

  /** The storage removals a deletion has begun. */
  function Begun(deletion: Deletion): seq<Key> {
    match deletion.progress
    case Waiting => []
    case Removing(index, _) => if index < |deletion.targets| then deletion.targets[..index + 1] else []
    case Settled(_) => deletion.targets
  }

  function AllBegun(deletions: seq<Deletion>): seq<Key> {
    if deletions == [] then []
    else AllBegun(deletions[..|deletions| - 1]) + Begun(deletions[|deletions| - 1])
  }

  /** Each deletion waits for the one before it, and removals begin in call order. */
  ghost predicate QueueOk(ds: seq<Deletion>, tail: Option<nat>, removals: seq<Key>) {
    && tail == (if |ds| == 0 then None else Some(|ds| - 1))
    && ChainOk(ds)
    && removals == AllBegun(ds)
  }

  ghost predicate ChainOk(ds: seq<Deletion>) {
    && (forall j :: 0 <= j < |ds| ==> DeletionOk(ds[j], j))
    && (forall i, j :: 0 <= i < j < |ds| && !ds[j].progress.Waiting? ==> ds[i].progress.Settled?)
  }

  predicate DeletionOk(deletion: Deletion, j: nat) {
    && deletion.after == (if j == 0 then None else Some(j - 1))
    && (deletion.cleared ==> deletion.progress.Settled?)
    && (deletion.progress.Removing? ==> deletion.progress.index < |deletion.targets|)
  }

  ghost predicate Reachable(st: State) {
    Inv(st) && BarrierOk(st) && QueueOk(st.deletions, st.tail, st.removals)
  }

  /** A step that leaves deletion alone, and wakes at most a key it may wake. */
  lemma OrdinaryStep(st: State, st': State, key: Key)
    requires Reachable(st) && Inv(st') && StaysQuietExcept(st, st', key)
    requires st'.deletions == st.deletions && st'.disposed == st.disposed
    requires st'.tail == st.tail && st'.removals == st.removals
    requires st.disposed || Covered(st, key) ==> Quiet(st', key)
    ensures Reachable(st')
  {
    forall other | st'.disposed || Covered(st', other) ensures Quiet(st', other) {
      assert Covered(st', other) == Covered(st, other);
    }
  }

  lemma HarmlessStep(st: State, st': State)
    requires Reachable(st) && Inv(st') && StaysQuiet(st, st')
    requires st'.deletions == st.deletions && st'.disposed == st.disposed
    requires st'.tail == st.tail && st'.removals == st.removals
    ensures Reachable(st')
  {
    OrdinaryStep(st, st', "");
  }

  lemma {:induction false} TeardownOk(st: State, targets: seq<Key>)
    requires Inv(st)
    ensures var st' := Teardown(st, targets);
      Inv(st') && SameControl(st, st') && StaysQuiet(st, st') && forall key :: key in targets ==> Quiet(st', key)
    decreases |targets|
  {
    if targets != [] {
      var closed := CloseSockets(st, targets[0], Close(1001, "Worker deleted"));
      var stopped := Stop(closed, targets[0], "Worker deleted");
      CloseSocketsOk(st, targets[0], Close(1001, "Worker deleted"));
      StopOk(closed, targets[0], "Worker deleted");
      TeardownOk(stopped, targets[1..]);
    }
  }

  /** The state in which `delete()` tears its targets down: barrier up, references stale. */
  function Fenced(st: State, key: Key, includes: Key -> bool): State {
    var known := Identify(st, key);
    var within := Within(key, includes);
    known.(
      deletions := st.deletions + [Deletion(within, Filter(known.known, within), st.tail, Waiting, false)],
      tail := Some(|st.deletions|),
      identities := map k | k in known.identities :: if within(k) then known.identities[k] + 1 else known.identities[k])
  }

  lemma FencedOk(st: State, key: Key, includes: Key -> bool)
    requires Inv(st)
    ensures var fenced := Fenced(st, key, includes); Inv(fenced) && StaysQuiet(st, fenced)
    ensures forall other :: Within(key, includes)(other) && other !in Identify(st, key).known ==> Quiet(st, other)
  {
    var known, fenced := Identify(st, key), Fenced(st, key, includes);
    IdentifyOk(st, key);
    forall other ensures KeyOk(fenced, other) { assert KeyOk(known, other); }
    forall r | 0 <= r < |fenced.references|
      ensures fenced.references[r].key in fenced.identities
      ensures fenced.references[r].epoch <= fenced.identities[fenced.references[r].key]
    {
      assert known.references[r].epoch <= known.identities[known.references[r].key];
    }
    forall other | other !in known.known ensures Quiet(st, other) { assert KeyOk(st, other); assert other !in known.identities; }
  }

  lemma DeleteOk(st: State, key: Key, includes: Key -> bool)
    requires Reachable(st)
    ensures var st' := Delete(st, key, includes);
      Reachable(st') && SameControl(Fenced(st, key, includes), st')
  {
    var known, within, fenced := Identify(st, key), Within(key, includes), Fenced(st, key, includes);
    var targets := Filter(known.known, within);
    FencedOk(st, key, includes);
    TeardownOk(fenced, targets);
    QueueGrows(st, fenced);
    hide Inv, QueueOk;
    DeletedQuiet(st, key, includes);
  }

  /** What a deletion covers is quiet once its targets are torn down. */
  lemma DeletedQuiet(st: State, key: Key, includes: Key -> bool)
    requires Inv(st) && BarrierOk(st)
    ensures BarrierOk(Delete(st, key, includes))
  {
    var known, within, fenced := Identify(st, key), Within(key, includes), Fenced(st, key, includes);
    var targets := Filter(known.known, within);
    FencedOk(st, key, includes);
    TeardownOk(fenced, targets);
    hide Inv;
    var st' := Delete(st, key, includes);
    assert st' == Teardown(fenced, targets);
    hide Teardown;
    forall other | st'.disposed || Covered(st', other) ensures Quiet(st', other) {
      if st.disposed || Covered(st, other) {
        assert Quiet(st, other);
        assert Quiet(fenced, other);
      } else {
        assert within(other);
        if other in known.known { assert other in targets; } else { assert Quiet(fenced, other); }
      }
    }
  }

  lemma QueueGrows(st: State, fenced: State)
    requires QueueOk(st.deletions, st.tail, st.removals)
    requires |fenced.deletions| == |st.deletions| + 1 && fenced.deletions[..|st.deletions|] == st.deletions
    requires fenced.deletions[|st.deletions|].progress.Waiting? && !fenced.deletions[|st.deletions|].cleared
    requires fenced.deletions[|st.deletions|].after == st.tail
    requires fenced.tail == Some(|st.deletions|) && fenced.removals == st.removals
    ensures QueueOk(fenced.deletions, fenced.tail, fenced.removals)
  {
    var ds, ds' := st.deletions, fenced.deletions;
    forall j | 0 <= j < |ds'| ensures DeletionOk(ds'[j], j) { if j < |ds| { assert ds'[j] == ds[j]; } }
    forall i, j | 0 <= i < j < |ds'| && !ds'[j].progress.Waiting? ensures ds'[i].progress.Settled? {
      assert ds'[i] == ds[i] && ds'[j] == ds[j];
    }
  }

  // ---- Storage removal steps ----

  lemma WaitingBegunNothing(deletion: Deletion)
    ensures deletion.progress.Waiting? ==> Begun(deletion) == []
  {
  }

  /** With nothing begun behind it, a deletion's removals are the last begun. */
  lemma {:induction false} NoneBehind(ds: seq<Deletion>, j: nat)
    requires j < |ds| && forall i :: j < i < |ds| ==> ds[i].progress.Waiting?
    ensures AllBegun(ds) == AllBegun(ds[..j]) + Begun(ds[j])
    decreases |ds|
  {
    LastBegun(ds);
    hide AllBegun;
    var last := |ds| - 1;
    if j < last {
      NoneBehind(ds[..last], j);
      assert ds[..last][..j] == ds[..j];
      WaitingBegunNothing(ds[last]);
    }
  }

  lemma BegunAt(before: seq<Deletion>, after: seq<Deletion>, j: nat, more: seq<Key>)
    requires j < |before| == |after|
    requires forall i :: 0 <= i < |before| && i != j ==> after[i] == before[i]
    requires forall i :: j < i < |before| ==> before[i].progress.Waiting?
    requires Begun(after[j]) == Begun(before[j]) + more
    ensures AllBegun(after) == AllBegun(before) + more
  {
    hide AllBegun, Begun;
    NoneBehind(before, j);
    NoneBehind(after, j);
    assert after[..j] == before[..j];
    assert (AllBegun(before[..j]) + Begun(before[j])) + more == AllBegun(before[..j]) + (Begun(before[j]) + more);
  }

  lemma LastBegun(ds: seq<Deletion>)
    requires ds != []
    ensures AllBegun(ds) == AllBegun(ds[..|ds| - 1]) + Begun(ds[|ds| - 1])
  {
  }

  lemma EarlierSettled(ds: seq<Deletion>, j: nat)
    requires ChainOk(ds) && j < |ds|
    requires ds[j].progress.Waiting? ==> j == 0 || ds[j - 1].progress.Settled?
    ensures forall i :: 0 <= i < j ==> ds[i].progress.Settled?
    ensures !ds[j].progress.Settled? ==> forall i :: j < i < |ds| ==> ds[i].progress.Waiting?
  {
    forall i | 0 <= i < j ensures ds[i].progress.Settled? {
      if ds[j].progress.Waiting? && i < j - 1 { assert !ds[j - 1].progress.Waiting?; }
    }
  }

  lemma ChainProgress(ds: seq<Deletion>, j: nat, progress: Progress)
    requires ChainOk(ds) && j < |ds| && !ds[j].progress.Settled?
    requires ds[j].progress.Waiting? ==> j == 0 || ds[j - 1].progress.Settled?
    requires progress.Removing? ==> progress.index < |ds[j].targets|
    requires !progress.Waiting?
    ensures ChainOk(ds[j := ds[j].(progress := progress)])
  {
    EarlierSettled(ds, j);
  }

  lemma ProgressedQueue(ds: seq<Deletion>, tail: Option<nat>, removals: seq<Key>, j: nat, index: nat, progress: Progress)
    requires QueueOk(ds, tail, removals) && j < |ds| && !ds[j].progress.Settled? && index <= |ds[j].targets|
    requires ds[j].progress.Waiting? ==> index == 0 && (j == 0 || ds[j - 1].progress.Settled?)
    requires ds[j].progress.Removing? ==> index == ds[j].progress.index + 1
    requires if index < |ds[j].targets| then progress.Removing? && progress.index == index else progress.Settled?
    ensures QueueOk(ds[j := ds[j].(progress := progress)], tail,
      removals + if index < |ds[j].targets| then [ds[j].targets[index]] else [])
  {
    var ds' := ds[j := ds[j].(progress := progress)];
    var more := if index < |ds[j].targets| then [ds[j].targets[index]] else [];
    EarlierSettled(ds, j);
    ChainProgress(ds, j, progress);
    BegunMore(ds[j], ds'[j], index, more);
    BegunAt(ds, ds', j, more);
  }

  lemma ProgressedOk(st: State, j: nat, index: nat, failed: bool)
    requires Reachable(st) && j < |st.deletions| && !st.deletions[j].progress.Settled?
    requires st.deletions[j].progress.Waiting? ==> index == 0 && HasSettled(st, st.deletions[j].after)
    requires st.deletions[j].progress.Removing? ==> index == st.deletions[j].progress.index + 1
    ensures Reachable(Progressed(st, j, index, failed))
  {
    var ds, st' := st.deletions, Progressed(st, j, index, failed);
    assert DeletionOk(ds[j], j);
    var progress := if index < |ds[j].targets| then Removing(index, failed) else Settled(failed);
    ProgressedQueue(ds, st.tail, st.removals, j, index, progress);
    assert st'.deletions == ds[j := ds[j].(progress := progress)];
    assert st.removals + [] == st.removals;
    SameWorld(st, st');
  }

  lemma BegunMore(before: Deletion, after: Deletion, index: nat, more: seq<Key>)
    requires before.targets == after.targets && index <= |before.targets|
    requires before.progress.Waiting? ==> index == 0
    requires before.progress.Removing? ==> index == before.progress.index + 1
    requires !before.progress.Settled?
    requires after.progress.Removing? ==> index < |after.targets| && after.progress.index == index
    requires after.progress.Settled? ==> index == |after.targets|
    requires !after.progress.Waiting?
    requires more == if index < |before.targets| then [before.targets[index]] else []
    ensures Begun(after) == Begun(before) + more
  {
    assert Begun(before) == before.targets[..index];
  }

  /** Changing a deletion's progress changes no worker, socket or identity, and uncovers nothing. */
  lemma SameWorld(st: State, st': State)
    requires Reachable(st)
    requires st' == st.(deletions := st'.deletions, removals := st'.removals)
    requires |st'.deletions| == |st.deletions|
    requires forall j :: 0 <= j < |st.deletions| ==>
      st'.deletions[j].includes == st.deletions[j].includes && (st.deletions[j].cleared ==> st'.deletions[j].cleared)
    ensures Inv(st') && BarrierOk(st')
  {
    forall key ensures KeyOk(st', key) { assert KeyOk(st, key); }
    forall key | st'.disposed || Covered(st', key) ensures Quiet(st', key) {
      assert st.disposed || Covered(st, key);
      assert Quiet(st, key);
    }
  }

  lemma ClearedQueue(ds: seq<Deletion>, tail: Option<nat>, removals: seq<Key>, j: nat)
    requires QueueOk(ds, tail, removals) && j < |ds| && ds[j].progress.Settled?
    ensures QueueOk(ds[j := ds[j].(cleared := true)], tail, removals)
  {
    assert DeletionOk(ds[j], j);
    SameBegun(ds, ds[j := ds[j].(cleared := true)]);
  }

  lemma ClearOk(st: State, j: nat)
    requires Reachable(st)
    ensures Reachable(DeletionClear(st, j))
  {
    if j < |st.deletions| && st.deletions[j].progress.Settled? {
      ClearedQueue(st.deletions, st.tail, st.removals, j);
      SameWorld(st, DeletionClear(st, j));
    }
  }

  lemma {:induction false} SameBegun(a: seq<Deletion>, b: seq<Deletion>)
    requires |a| == |b|
    requires forall i :: 0 <= i < |a| ==> a[i].progress == b[i].progress && a[i].targets == b[i].targets
    ensures AllBegun(a) == AllBegun(b)
    decreases |a|
  {
    if a != [] { SameBegun(a[..|a| - 1], b[..|b| - 1]); }
  }

  // ---- Calls in flight ----

  lemma OnlyCallsChange(st: State, st': State)
    requires Reachable(st)
    requires st' == st.(resolves := st'.resolves, references := st'.references)
    requires forall r :: 0 <= r < |st'.references| ==>
      st'.references[r].key in st.identities && st'.references[r].epoch <= st.identities[st'.references[r].key]
    ensures Reachable(st')
  {
    forall key ensures KeyOk(st', key) { assert KeyOk(st, key); }
    forall key | st'.disposed || Covered(st', key) ensures Quiet(st', key) { assert Quiet(st, key); }
  }

  lemma EnsureKeeps(st: State, key: Key, outcome: Outcome)
    requires Reachable(st)
    ensures Reachable(Ensure(st, key, outcome).0) && ControlGrows(st, Ensure(st, key, outcome).0)
  {
    EnsureOk(st, key, outcome);
    var st' := Ensure(st, key, outcome).0;
    if st.disposed || Covered(st, key) { assert st' == st; } else { OrdinaryStep(st, st', key); }
  }

  lemma MoveToOk(st: State, r: nat, stage: Stage)
    requires Reachable(st) && r < |st.resolves|
    ensures Reachable(MoveTo(st, r, stage))
  {
    OnlyCallsChange(st, MoveTo(st, r, stage));
  }

  lemma AwakenOk(st: State, r: nat, outcome: Outcome)
    requires Reachable(st) && r < |st.resolves|
    ensures var (awake, ensured) := Ensure(st, st.resolves[r].key, outcome);
      && |awake.resolves| == |st.resolves|
      && Reachable(MoveTo(awake, r, if ensured.Ok? then AwaitReady(ensured.value) else Rejection))
  {
    var call := st.resolves[r];
    EnsureKeeps(st, call.key, outcome);
    var (awake, ensured) := Ensure(st, call.key, outcome);
    MoveToOk(awake, r, if ensured.Ok? then AwaitReady(ensured.value) else Rejection);
  }

  lemma ResolveStepOk(st: State, r: nat, outcome: Outcome)
    requires Reachable(st)
    ensures Reachable(ResolveStep(st, r, outcome))
  {
    hide Inv, BarrierOk, QueueOk, Ensure, Covering;
    if r < |st.resolves| {
      var call := st.resolves[r];
      match call.stage
      case AwaitDeletions(on) =>
        AwakenOk(st, r, outcome);
        MoveToOk(st, r, Rejection);
        MoveToOk(st, r, AwaitDeletions(Covering(st, call.key, 0)));
      case AwaitReady(p) =>
        MoveToOk(st, r, Rejection);
        MoveToOk(st, r, Served(p));
      case _ =>
    }
  }

  lemma MakeReferenceOk(st: State, key: Key)
    requires Reachable(st)
    ensures Reachable(MakeReference(st, key))
  {
    var known := Identify(st, key);
    IdentifyOk(st, key);
    HarmlessStep(st, known);
    OnlyCallsChange(known, MakeReference(st, key));
  }

  // ---- Every step ----

  predicate ClientEvent(e: Event) {
    e.EnsureWorker? || e.ClientConnects? || e.ClientSends? || e.ClientControlCloses?
  }

  predicate HostEvent(e: Event) {
    e.HostClosesSockets? || e.HostStops? || e.HostDeletes? || e.HostDisposes?
  }

  predicate WorkerEvent(e: Event) {
    e.WorkerReady? || e.WorkerFails? || e.WorkerActive? || e.WorkerPosts?
  }

  predicate DeletionEvent(e: Event) {
    e.RemovalsBegin? || e.RemovalEnds? || e.BarrierClears?
  }

  lemma ConnectStepOk(st: State, key: Key, id: string, outcome: Outcome, connectFails: bool)
    requires Reachable(st)
    ensures Reachable(Connect(st, key, id, outcome, connectFails).0)
  {
    ConnectOk(st, key, id, outcome, connectFails);
    OrdinaryStep(st, Connect(st, key, id, outcome, connectFails).0, key);
  }

  lemma ReceiveStepOk(st: State, s: nat, frame: Frame, outcome: Outcome)
    requires Reachable(st) && s < |st.sockets|
    ensures Reachable(Receive(st, s, frame, outcome).0)
  {
    ReceiveOk(st, s, frame, outcome);
    HarmlessStep(st, Receive(st, s, frame, outcome).0);
  }

  lemma CloseSocketStepOk(st: State, s: nat, close: Frame, outcome: Outcome)
    requires Reachable(st) && s < |st.sockets|
    ensures Reachable(CloseSocket(st, s, close, false, outcome).0)
  {
    CloseSocketOk(st, s, close, false, outcome);
    HarmlessStep(st, CloseSocket(st, s, close, false, outcome).0);
  }

  lemma ClientStepOk(st: State, e: Event)
    requires Reachable(st) && ClientEvent(e)
    ensures Reachable(Step(st, e))
  {
    hide Inv, BarrierOk, QueueOk;
    match e
    case EnsureWorker(key, outcome) => EnsureKeeps(st, key, outcome);
    case ClientConnects(key, id, outcome, connectFails) => ConnectStepOk(st, key, id, outcome, connectFails);
    case ClientSends(s, frame, outcome) => if s < |st.sockets| { ReceiveStepOk(st, s, frame, outcome); }
    case ClientControlCloses(s, close, outcome) =>
      if s < |st.sockets| && close.Close? { CloseSocketStepOk(st, s, close, outcome); }
  }

  lemma DisposeStepOk(st: State)
    requires Reachable(st)
    ensures Reachable(Dispose(st))
  {
    DisposeOk(st);
  }

  lemma StopStepOk(st: State, key: Key, reason: string)
    requires Reachable(st)
    ensures Reachable(Stop(st, key, reason))
  {
    StopOk(st, key, reason);
    HarmlessStep(st, Stop(st, key, reason));
  }

  lemma CloseSocketsStepOk(st: State, key: Key, close: Frame)
    requires Reachable(st)
    ensures Reachable(CloseSockets(st, key, close))
  {
    CloseSocketsOk(st, key, close);
    HarmlessStep(st, CloseSockets(st, key, close));
  }

  lemma HostStepOk(st: State, e: Event)
    requires Reachable(st) && HostEvent(e)
    ensures Reachable(Step(st, e))
  {
    hide Inv, BarrierOk, QueueOk;
    match e
    case HostClosesSockets(key, close) => CloseSocketsStepOk(st, key, close);
    case HostStops(key, reason) => StopStepOk(st, key, reason);
    case HostDeletes(key, includes) => DeleteOk(st, key, includes);
    case HostDisposes => DisposeStepOk(st);
  }

  lemma FailStepOk(st: State, p: nat)
    requires Reachable(st)
    ensures Reachable(Discard(st, p, false))
  {
    if Current(st, p) {
      DiscardOk(st, p, false);
      DiscardStaysQuiet(st, p, false);
      HarmlessStep(st, Discard(st, p, false));
    }
  }

  lemma ReadyStepOk(st: State, p: nat)
    requires Reachable(st)
    ensures Reachable(Ready(st, p)) && Reachable(ReportActive(st, p))
  {
    ReadyOk(st, p);
    HarmlessStep(st, Ready(st, p));
    ReportActiveOk(st, p);
    HarmlessStep(st, ReportActive(st, p));
  }

  lemma PortStepOk(st: State, s: nat, port: nat, frame: Frame)
    requires Reachable(st) && s < |st.sockets|
    ensures Reachable(PortMessage(st, s, port, frame))
  {
    PortMessageOk(st, s, port, frame);
    HarmlessStep(st, PortMessage(st, s, port, frame));
  }

  lemma WorkerStepOk(st: State, e: Event)
    requires Reachable(st) && WorkerEvent(e)
    ensures Reachable(Step(st, e))
  {
    hide Inv, BarrierOk, QueueOk;
    match e
    case WorkerReady(p) => ReadyStepOk(st, p);
    case WorkerFails(p) => FailStepOk(st, p);
    case WorkerActive(p) => ReadyStepOk(st, p);
    case WorkerPosts(s, port, frame) => if s < |st.sockets| { PortStepOk(st, s, port, frame); }
  }

  lemma ProbeStartOk(st: State, p: nat)
    requires Reachable(st)
    ensures Reachable(HibernateStart(st, p))
  {
    HibernateStartOk(st, p);
    HarmlessStep(st, HibernateStart(st, p));
  }

  lemma ProbeReplyOk(st: State, a: nat, reply: Reply)
    requires Reachable(st)
    ensures Reachable(HibernateReply(st, a, reply))
  {
    HibernateReplyOk(st, a, reply);
    HarmlessStep(st, HibernateReply(st, a, reply));
  }

  lemma DeletionStartOk(st: State, j: nat)
    requires Reachable(st)
    ensures Reachable(DeletionStart(st, j))
  {
    if j < |st.deletions| && st.deletions[j].progress.Waiting? && HasSettled(st, st.deletions[j].after) {
      ProgressedOk(st, j, 0, false);
    }
  }

  lemma RemovalEndOk(st: State, j: nat, ok: bool)
    requires Reachable(st)
    ensures Reachable(RemovalEnd(st, j, ok))
  {
    hide Inv, BarrierOk, QueueOk, Progressed;
    if j < |st.deletions| && st.deletions[j].progress.Removing? {
      ProgressedOk(st, j, st.deletions[j].progress.index + 1, st.deletions[j].progress.failed || !ok);
    }
  }

  lemma DeletionStepOk(st: State, e: Event)
    requires Reachable(st) && DeletionEvent(e)
    ensures Reachable(Step(st, e))
  {
    hide Inv, BarrierOk, QueueOk;
    match e
    case RemovalsBegin(j) => DeletionStartOk(st, j);
    case RemovalEnds(j, ok) => RemovalEndOk(st, j, ok);
    case BarrierClears(j) => ClearOk(st, j);
  }

  lemma ResolveStartOk(st: State, key: Key, epoch: Option<nat>)
    requires Reachable(st)
    ensures Reachable(ResolveStart(st, key, epoch))
  {
    OnlyCallsChange(st, ResolveStart(st, key, epoch));
  }

  lemma StepOk(st: State, e: Event)
    requires Reachable(st)
    ensures Reachable(Step(st, e))
  {
    hide Inv, BarrierOk, QueueOk;
    if ClientEvent(e) { ClientStepOk(st, e); }
    else if HostEvent(e) { HostStepOk(st, e); }
    else if WorkerEvent(e) { WorkerStepOk(st, e); }
    else if DeletionEvent(e) { DeletionStepOk(st, e); }
    else {
      match e
      case ProbeStarts(p) => ProbeStartOk(st, p);
      case ProbeReplies(a, reply) => ProbeReplyOk(st, a, reply);
      case ReferenceMade(key) => MakeReferenceOk(st, key);
      case ResolveBegins(key) => ResolveStartOk(st, key, None);
      case ReferenceResolves(r) =>
        if r < |st.references| { ResolveStartOk(st, st.references[r].key, Some(st.references[r].epoch)); }
      case ResolveContinues(r, outcome) => ResolveStepOk(st, r, outcome);
    }
  }

  lemma InitialOk()
    ensures Reachable(INITIAL)
  {
  }

  lemma {:induction false} RunOk(st: State, events: seq<Event>)
    requires Reachable(st)
    ensures Reachable(Run(st, events))
    decreases |events|
  {
    if events != [] {
      StepOk(st, events[0]);
      RunOk(Step(st, events[0]), events[1..]);
    }
  }
}
