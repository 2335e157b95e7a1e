/** What every step of the worker supervisor keeps. */
module SupervisorInvariant {
  import opened Prelude
  import opened SupervisorModel

  // ---- One socket ----

  ghost predicate NoClose(frames: seq<Frame>) {
    forall i :: 0 <= i < |frames| ==> !frames[i].Close?
  }

  ghost predicate EndsWithClose(frames: seq<Frame>) {
    frames != [] && frames[|frames| - 1].Close?
  }

  /** Nothing lost, duplicated or reordered; nothing posted after a close. */
  ghost predicate SocketOk(s: Socket) {
    && (s.port.Some? ==> !s.closed && s.port.value < s.ports)
    && (s.closed <==> s.ending.Some?)
    && (!s.closed ==> s.posted + s.pending == s.accepted && NoClose(s.posted))
    && s.posted <= s.accepted
    && (forall i :: 0 <= i < |s.posted| - 1 ==> !s.posted[i].Close?)
    && (s.ending == Some(Delivered) <==> EndsWithClose(s.posted))
  }

  lemma EndOk(s: Socket, close: Frame)
    requires SocketOk(s) && !s.closed
    ensures SocketOk(End(s, close)) && End(s, close).closed
  {
  }

  lemma {:induction false} PostAllOk(s: Socket, frames: seq<Frame>)
    requires !s.closed && s.port.Some? && s.port.value < s.ports && s.ending.None? && s.pending == []
    requires s.posted + frames == s.accepted && NoClose(s.posted)
    ensures var r := PostAll(s, frames);
      && SocketOk(r) && r.pending == [] && r.key == s.key && r.id == s.id
      && (!r.closed ==> r.port == s.port)
      && r.accepted == s.accepted
    decreases |frames|
  {
    if frames != [] {
      var next := Post(s, frames[0]);
      assert s.posted + frames == (s.posted + [frames[0]]) + frames[1..];
      if next.closed {
        assert PostAll(next, frames[1..]) == next;
      } else {
        PostAllOk(next, frames[1..]);
      }
    }
  }

  lemma DeliverOk(s: Socket)
    requires SocketOk(s) && !s.closed
    ensures var r := Deliver(s);
      && SocketOk(r) && r.key == s.key && r.id == s.id
      && (s.port.Some? ==> r.pending == [])
      && (s.port.Some? && !r.closed ==> r.port.Some?)
      && (s.port.None? ==> r == s)
  {
    if s.port.Some? { PostAllOk(s.(pending := []), s.pending); }
  }

  // ---- One key ----

  /** Live sockets of one key have distinct ids. */
  ghost predicate Distinct(sockets: seq<Socket>) {
    forall i, j :: 0 <= i < j < |sockets| && !sockets[i].closed && !sockets[j].closed && sockets[i].key == sockets[j].key
      ==> sockets[i].id != sockets[j].id
  }

  ghost predicate SocketsOk(sockets: seq<Socket>) {
    Distinct(sockets) && forall i :: 0 <= i < |sockets| ==> SocketOk(sockets[i])
  }

  /** A running worker has a port to every live socket, and holds no frames unless it starts or hibernates. */
  ghost predicate RunningOk(st: State, key: Key, p: nat) {
    && p < |st.placements| && st.placements[p].key == key && key !in st.hibernated
    && (st.placements[p].readyNow <==> st.placements[p].readiness.Resolved?)
    && !st.placements[p].readiness.Rejected?
    && (match st.placements[p].hibernation
        case None => true
        case Some(a) => a < |st.attempts| && st.attempts[a].placement == p && !st.attempts[a].replied)
    && (forall i :: 0 <= i < |st.sockets| && Live(st.sockets[i], key) ==>
        && st.sockets[i].port.Some?
        && (st.placements[p].readyNow && st.placements[p].hibernation.None? ==> st.sockets[i].pending == []))
  }

  /** Without a worker, live sockets wait portless behind a snapshot that names exactly them. */
  ghost predicate AbsentOk(st: State, key: Key) {
    && (key in st.hibernated ==> Describes(st.sockets, key, st.hibernated[key]))
    && (forall i :: 0 <= i < |st.sockets| && Live(st.sockets[i], key) ==> key in st.hibernated && st.sockets[i].port.None?)
  }

  ghost predicate KeyOk(st: State, key: Key) {
    if key in st.workers then RunningOk(st, key, st.workers[key]) else AbsentOk(st, key)
  }

  ghost predicate AttemptsOk(st: State) {
    forall a :: 0 <= a < |st.attempts| && !st.attempts[a].replied ==>
      && st.attempts[a].placement < |st.placements|
      && (Current(st, st.attempts[a].placement) ==> st.placements[st.attempts[a].placement].hibernation == Some(a))
  }

  ghost predicate IdentitiesOk(st: State) {
    && (forall key :: key in st.identities <==> key in st.known)
    && st.workers.Keys <= st.identities.Keys
    && st.hibernated.Keys <= st.identities.Keys
    && (forall i :: 0 <= i < |st.sockets| && !st.sockets[i].closed ==> st.sockets[i].key in st.identities)
    && (forall r :: 0 <= r < |st.references| ==>
        st.references[r].key in st.identities && st.references[r].epoch <= st.identities[st.references[r].key])
  }

  ghost predicate Inv(st: State) {
    && SocketsOk(st.sockets)
    && (forall key :: KeyOk(st, key))
    && AttemptsOk(st)
    && IdentitiesOk(st)
  }

  /** No worker, no snapshot and no live socket. */
  ghost predicate Quiet(st: State, key: Key) {
    key !in st.workers && key !in st.hibernated
    && forall i :: 0 <= i < |st.sockets| ==> !Live(st.sockets[i], key)
  }

  ghost predicate StaysQuiet(st: State, st': State) {
    forall key :: Quiet(st, key) ==> Quiet(st', key)
  }

  /** Nothing about deletion, references or resolve calls changed. */
  ghost predicate SameControl(st: State, st': State) {
    && st'.deletions == st.deletions && st'.tail == st.tail && st'.removals == st.removals
    && st'.references == st.references && st'.resolves == st.resolves && st'.disposed == st.disposed
    && st'.identities == st.identities && st'.known == st.known
  }

  // ---- Steps that touch one key leave the others alone ----

  ghost predicate SameSockets(a: seq<Socket>, b: seq<Socket>, key: Key) {
    && |a| <= |b|
    && (forall i :: 0 <= i < |a| && (Live(a[i], key) || Live(b[i], key)) ==> a[i] == b[i])
    && (forall i :: |a| <= i < |b| ==> !Live(b[i], key))
  }

  lemma SameLiveIds(a: seq<Socket>, b: seq<Socket>, key: Key)
    requires SameSockets(a, b, key)
    ensures LiveIds(a, key) == LiveIds(b, key)
  {
    forall id | id in LiveIds(a, key) ensures id in LiveIds(b, key) {
      var i :| 0 <= i < |a| && Live(a[i], key) && a[i].id == id;
      assert Live(b[i], key) && b[i].id == id;
    }
    forall id | id in LiveIds(b, key) ensures id in LiveIds(a, key) {
      var i :| 0 <= i < |b| && Live(b[i], key) && b[i].id == id;
      assert Live(a[i], key) && a[i].id == id;
    }
  }

  ghost predicate SameForKey(st: State, st': State, key: Key) {
    && (key in st.workers <==> key in st'.workers)
    && (key in st.workers ==>
        && st.workers[key] == st'.workers[key]
        && st.workers[key] < |st.placements| && st.workers[key] < |st'.placements|
        && st.placements[st.workers[key]] == st'.placements[st.workers[key]])
    && (key in st.hibernated <==> key in st'.hibernated)
    && (key in st.hibernated ==> st.hibernated[key] == st'.hibernated[key])
    && SameSockets(st.sockets, st'.sockets, key)
  }

  /** Attempts keep their placement; only attempts of `p` may be answered. */
  ghost predicate AttemptsKept(st: State, st': State, p: nat) {
    && |st.attempts| <= |st'.attempts|
    && forall a :: 0 <= a < |st.attempts| ==>
      && st'.attempts[a].placement == st.attempts[a].placement
      && (st.attempts[a].placement != p ==> st'.attempts[a].replied == st.attempts[a].replied)
  }

  lemma KeyFrame(st: State, st': State, key: Key, p: nat)
    requires KeyOk(st, key) && SameForKey(st, st', key) && AttemptsKept(st, st', p)
    requires key in st.workers ==> st.workers[key] != p
    ensures KeyOk(st', key)
  {
    SameLiveIds(st.sockets, st'.sockets, key);
  }

  // ---- Sweeps over a key's sockets ----

  ghost predicate OthersSame(a: seq<Socket>, b: seq<Socket>, key: Key) {
    && |a| == |b|
    && (forall i :: 0 <= i < |a| && a[i].key != key ==> b[i] == a[i])
    && (forall i :: 0 <= i < |a| ==> b[i].key == a[i].key && (a[i].closed ==> b[i] == a[i]))
  }

  lemma OthersSameFrame(a: seq<Socket>, b: seq<Socket>, key: Key, other: Key)
    requires OthersSame(a, b, key) && other != key
    ensures SameSockets(a, b, other)
  {
  }

  lemma EndAllOk(sockets: seq<Socket>, key: Key, close: Frame)
    requires SocketsOk(sockets)
    ensures var r := EndAll(sockets, key, close);
      && SocketsOk(r) && OthersSame(sockets, r, key)
      && (forall i :: 0 <= i < |r| ==> !Live(r[i], key))
      && (forall i :: 0 <= i < |r| && !r[i].closed ==> r[i] == sockets[i])
  {
    var r := EndAll(sockets, key, close);
    forall i | 0 <= i < |r| ensures SocketOk(r[i]) {
      if Live(sockets[i], key) { EndOk(sockets[i], close); }
    }
  }

  lemma DetachAllOk(sockets: seq<Socket>, key: Key)
    requires SocketsOk(sockets)
    ensures var r := DetachAll(sockets, key);
      && SocketsOk(r) && OthersSame(sockets, r, key) && LiveIds(r, key) == LiveIds(sockets, key)
      && (forall i :: 0 <= i < |r| ==> r[i].closed == sockets[i].closed && (Live(r[i], key) ==> r[i].port.None?))
  {
    var r := DetachAll(sockets, key);
    SameIds(sockets, r, key);
  }

  lemma SameIds(a: seq<Socket>, b: seq<Socket>, key: Key)
    requires |a| == |b| && forall i :: 0 <= i < |a| ==> Live(a[i], key) == Live(b[i], key) && a[i].id == b[i].id
    ensures LiveIds(a, key) == LiveIds(b, key)
  {
    assert forall id :: id in LiveIds(a, key) <==> exists i :: 0 <= i < |a| && Live(a[i], key) && a[i].id == id;
    assert forall id :: id in LiveIds(b, key) <==> exists i :: 0 <= i < |b| && Live(b[i], key) && b[i].id == id;
  }

  lemma DeliverAllOk(sockets: seq<Socket>, key: Key)
    requires SocketsOk(sockets)
    requires forall i :: 0 <= i < |sockets| && Live(sockets[i], key) ==> sockets[i].port.Some?
    ensures var r := DeliverAll(sockets, key);
      && SocketsOk(r) && OthersSame(sockets, r, key)
      && (forall i :: 0 <= i < |r| ==> r[i].id == sockets[i].id && (sockets[i].closed ==> r[i].closed))
      && (forall i :: 0 <= i < |r| && Live(r[i], key) ==> r[i].port.Some? && r[i].pending == [])
  {
    var r := DeliverAll(sockets, key);
    forall i | 0 <= i < |r|
      ensures SocketOk(r[i]) && r[i].key == sockets[i].key && r[i].id == sockets[i].id
      ensures sockets[i].closed ==> r[i] == sockets[i]
      ensures Live(r[i], key) ==> r[i].port.Some? && r[i].pending == []
    {
      if Live(sockets[i], key) { DeliverOk(sockets[i]); }
    }
  }

  // ---- Discarding a worker ----

  /** Everything but `key` is in order; `key`'s worker may be in any condition. */
  ghost predicate InvExcept(st: State, key: Key) {
    && SocketsOk(st.sockets)
    && (forall other :: other != key ==> KeyOk(st, other))
    && AttemptsOk(st)
    && IdentitiesOk(st)
  }

  lemma DiscardOthers(st: State, p: nat, keepSockets: bool, other: Key)
    requires Current(st, p) && InvExcept(st, st.placements[p].key) && other != st.placements[p].key
    ensures KeyOk(Discard(st, p, keepSockets), other)
  {
    var key, st' := st.placements[p].key, Discard(st, p, keepSockets);
    DetachAllOk(st.sockets, key);
    EndAllOk(DetachAll(st.sockets, key), key, Close(1011, "Worker stopped"));
    assert OthersSame(st.sockets, st'.sockets, key);
    OthersSameFrame(st.sockets, st'.sockets, key, other);
    assert KeyOk(st, other);
    KeyFrame(st, st', other, p);
  }

  lemma DiscardOk(st: State, p: nat, keepSockets: bool)
    requires Current(st, p) && InvExcept(st, st.placements[p].key)
    requires keepSockets ==>
      var key := st.placements[p].key;
      key in st.hibernated && Describes(st.sockets, key, st.hibernated[key])
    ensures var st' := Discard(st, p, keepSockets);
      Inv(st') && SameControl(st, st') && (!keepSockets ==> Quiet(st', st.placements[p].key))
  {
    var key, st' := st.placements[p].key, Discard(st, p, keepSockets);
    DetachAllOk(st.sockets, key);
    EndAllOk(DetachAll(st.sockets, key), key, Close(1011, "Worker stopped"));
    forall other ensures KeyOk(st', other) {
      if other != key { DiscardOthers(st, p, keepSockets, other); }
    }
  }

  lemma DiscardStaysQuiet(st: State, p: nat, keepSockets: bool)
    ensures StaysQuiet(st, Discard(st, p, keepSockets))
  {
    forall key | Quiet(st, key) ensures Quiet(Discard(st, p, keepSockets), key) {
      var st' := Discard(st, p, keepSockets);
      assert forall i :: 0 <= i < |st'.sockets| && Live(st'.sockets[i], key) ==> Live(st.sockets[i], key);
    }
  }

  // ---- Starting a worker ----

  ghost predicate StaysQuietExcept(st: State, st': State, key: Key) {
    forall other :: other != key && Quiet(st, other) ==> Quiet(st', other)
  }

  /** Only `identities` may have grown. */
  ghost predicate ControlGrows(st: State, st': State) {
    && st'.deletions == st.deletions && st'.tail == st.tail && st'.removals == st.removals
    && st'.references == st.references && st'.resolves == st.resolves && st'.disposed == st.disposed
    && (forall key :: key in st.identities ==> key in st'.identities && st'.identities[key] == st.identities[key])
  }

  lemma IdentifyOk(st: State, key: Key)
    requires Inv(st)
    ensures Inv(Identify(st, key)) && ControlGrows(st, Identify(st, key)) && key in Identify(st, key).identities
  {
    forall other ensures KeyOk(Identify(st, key), other) { assert KeyOk(st, other); }
  }

  /** The sockets after a spawn: each live socket of the key has a fresh port, nothing else changed. */
  ghost predicate Reattached(a: seq<Socket>, b: seq<Socket>, key: Key) {
    && |a| == |b|
    && forall i :: 0 <= i < |a| ==> b[i] == if Live(a[i], key) then Attach(a[i]) else a[i]
  }

  /** Each live socket of the key that is named gets a fresh port. */
  function AttachAll(sockets: seq<Socket>, key: Key, ids: seq<string>): (r: seq<Socket>)
    ensures |r| == |sockets|
    ensures forall i :: 0 <= i < |r| ==>
      r[i] == if Live(sockets[i], key) && sockets[i].id in ids then Attach(sockets[i]) else sockets[i]
  {
    seq(|sockets|, i requires 0 <= i < |sockets| =>
      if Live(sockets[i], key) && sockets[i].id in ids then Attach(sockets[i]) else sockets[i])
  }

  lemma AttachOneKeeps(sockets: seq<Socket>, key: Key, s: nat)
    requires Distinct(sockets) && s < |sockets|
    ensures var next := sockets[s := Attach(sockets[s])];
      Distinct(next) && LiveIds(next, key) == LiveIds(sockets, key)
  {
    SameIds(sockets, sockets[s := Attach(sockets[s])], key);
  }

  lemma AttachOneMore(sockets: seq<Socket>, key: Key, ids: seq<string>, s: nat)
    requires Distinct(sockets) && s < |sockets| && Live(sockets[s], key)
    requires ids != [] && sockets[s].id == ids[0] && ids[0] !in ids[1..]
    ensures AttachAll(sockets[s := Attach(sockets[s])], key, ids[1..]) == AttachAll(sockets, key, ids)
  {
    var next, rest := sockets[s := Attach(sockets[s])], ids[1..];
    forall i | 0 <= i < |sockets| ensures AttachAll(next, key, rest)[i] == AttachAll(sockets, key, ids)[i] {
      if i != s && Live(sockets[i], key) {
        assert sockets[i].id != ids[0];
        assert sockets[i].id in ids <==> sockets[i].id in rest by { assert ids == [ids[0]] + rest; }
      }
    }
  }

  /** Names that are distinct and all live are all attached, each once. */
  lemma {:induction false} RehydratedAttaches(sockets: seq<Socket>, key: Key, ids: seq<string>)
    requires Distinct(sockets)
    requires forall i, j :: 0 <= i < j < |ids| ==> ids[i] != ids[j]
    requires forall id :: id in ids ==> id in LiveIds(sockets, key)
    ensures Rehydrated(sockets, key, ids) == (AttachAll(sockets, key, ids), false)
    decreases |ids|
  {
    hide AttachAll, Distinct, LiveIds, Transport, Attach;
    if ids != [] {
      assert ids[0] in ids;
      var s := Transport(sockets, key, ids[0]).value;
      AttachOneKeeps(sockets, key, s);
      AttachOneMore(sockets, key, ids, s);
      RehydratedAttaches(sockets[s := Attach(sockets[s])], key, ids[1..]);
    } else {
      assert AttachAll(sockets, key, ids) == sockets;
    }
  }

  /** Before posting to the worker: a stored snapshot named exactly the live sockets, so all are reattached. */
  lemma RestoreReattaches(st: State, key: Key)
    requires AbsentOk(st, key) && Distinct(st.sockets)
    ensures key in st.hibernated ==>
      && Describes(st.sockets, key, st.hibernated[key])
      && var (sockets, missing) := Rehydrated(st.sockets, key, Ids(st.hibernated[key]));
      !missing && Reattached(st.sockets, sockets, key)
    ensures key !in st.hibernated ==> Reattached(st.sockets, st.sockets, key)
  {
    if key in st.hibernated {
      DescribedExactly(st.sockets, key, st.hibernated[key]);
      var ids := Ids(st.hibernated[key]);
      RehydratedAttaches(st.sockets, key, ids);
      forall i | 0 <= i < |st.sockets| && Live(st.sockets[i], key) ensures st.sockets[i].id in ids {
        assert st.sockets[i].id in LiveIds(st.sockets, key);
      }
    }
  }

  /** `Describes` compares counts; they pin down the set of ids. */
  lemma DescribedExactly(sockets: seq<Socket>, key: Key, snapshot: Snapshot)
    requires Describes(sockets, key, snapshot)
    ensures (set id | id in Ids(snapshot)) == LiveIds(sockets, key)
    ensures forall i, j :: 0 <= i < j < |Ids(snapshot)| ==> Ids(snapshot)[i] != Ids(snapshot)[j]
  {
    var ids, live := Ids(snapshot), LiveIds(sockets, key);
    var named := set id | id in ids;
    assert named <= live;
    SubsetOfSameSize(named, live);
    NoRepeats(ids);
  }

  lemma {:induction false} SubsetOfSameSize(a: set<string>, b: set<string>)
    requires a <= b && |a| == |b|
    ensures a == b
  {
    if a != {} {
      var x :| x in a;
      SubsetOfSameSize(a - {x}, b - {x});
    }
  }

  lemma {:induction false} NoRepeats(ids: seq<string>)
    requires |ids| == |set id | id in ids|
    ensures forall i, j :: 0 <= i < j < |ids| ==> ids[i] != ids[j]
  {
    if ids != [] {
      var first, rest := ids[0], ids[1..];
      var whole, smaller := (set id | id in ids), (set id | id in rest);
      assert whole == smaller + {first};
      AtMostLength(rest);
      NoRepeats(rest);
      assert first !in smaller;
    }
  }

  lemma {:induction false} AtMostLength(ids: seq<string>)
    ensures |set id | id in ids| <= |ids|
  {
    if ids != [] {
      AtMostLength(ids[1..]);
      assert (set id | id in ids) == {ids[0]} + (set id | id in ids[1..]);
    }
  }

  /** The state between registering the worker and posting to it. */
  function Started(st: State, key: Key, sockets: seq<Socket>): State {
    st.(
      workers := st.workers[key := |st.placements|],
      placements := st.placements + [Placement(key, false, Pending, None)],
      hibernated := st.hibernated - {key},
      sockets := sockets)
  }

  lemma ReattachedOk(a: seq<Socket>, b: seq<Socket>, key: Key)
    requires SocketsOk(a) && Reattached(a, b, key)
    ensures SocketsOk(b) && OthersSame(a, b, key)
    ensures forall i :: 0 <= i < |b| ==> b[i].closed == a[i].closed && b[i].id == a[i].id && (Live(b[i], key) ==> b[i].port.Some?)
  {
  }

  lemma StartedOk(st: State, key: Key, sockets: seq<Socket>)
    requires Inv(st) && key !in st.workers && key in st.identities
    requires Reattached(st.sockets, sockets, key)
    requires key !in st.hibernated ==> sockets == st.sockets
    ensures var st' := Started(st, key, sockets);
      Inv(st') && SameControl(st, st') && Current(st', |st.placements|) && StaysQuietExcept(st, st', key)
  {
    var st' := Started(st, key, sockets);
    ReattachedOk(st.sockets, sockets, key);
    assert AbsentOk(st, key) by { assert KeyOk(st, key); }
    forall other ensures KeyOk(st', other) {
      assert KeyOk(st, other);
      if other != key {
        OthersSameFrame(st.sockets, st'.sockets, key, other);
        KeyFrame(st, st', other, |st.placements|);
      }
    }
  }

  lemma SpawnOk(st: State, key: Key, outcome: Outcome)
    requires Inv(st) && key !in st.workers && key in st.identities
    ensures var (st', r) := Spawn(st, key, outcome);
      && Inv(st') && SameControl(st, st') && StaysQuietExcept(st, st', key)
      && (r.Ok? <==> outcome.Works?)
      && (r.Ok? ==> Current(st', r.value) && st'.placements[r.value].key == key && Reattached(st.sockets, st'.sockets, key))
      && (r.Threw? && Quiet(st, key) ==> Quiet(st', key))
      && |st'.sockets| == |st.sockets|
  {
    if !outcome.CreateFails? {
      assert KeyOk(st, key);
      RestoreReattaches(st, key);
      var sockets := if key in st.hibernated then Rehydrated(st.sockets, key, Ids(st.hibernated[key])).0 else st.sockets;
      var started := Started(st, key, sockets);
      StartedOk(st, key, sockets);
      if outcome.PostFails? {
        DiscardOk(started, |st.placements|, false);
        DiscardStaysQuiet(started, |st.placements|, false);
        assert Spawn(st, key, outcome).0 == Discard(started, |st.placements|, false);
      } else {
        assert Spawn(st, key, outcome).0 == started;
      }
    }
  }

  lemma CancelOk(st: State, p: nat)
    requires Inv(st) && p < |st.placements|
    ensures Inv(Cancel(st, p)) && SameControl(st, Cancel(st, p))
    ensures Cancel(st, p).sockets == st.sockets && Cancel(st, p).workers == st.workers && Cancel(st, p).placements == st.placements
    ensures Cancel(st, p).hibernated == st.hibernated
  {
    var st' := Cancel(st, p);
    forall key ensures KeyOk(st', key) { assert KeyOk(st, key); }
  }

  lemma EnsureOk(st: State, key: Key, outcome: Outcome)
    requires Inv(st)
    ensures var (st', r) := Ensure(st, key, outcome);
      && Inv(st') && ControlGrows(st, st') && StaysQuietExcept(st, st', key)
      && |st'.sockets| == |st.sockets|
      && (r.Ok? ==> !st.disposed && !Covered(st, key))
      && (r.Ok? ==> Current(st', r.value) && st'.placements[r.value].key == key)
      && (r.Ok? ==> forall i :: 0 <= i < |st.sockets| ==>
          st'.sockets[i] == st.sockets[i] || (Live(st.sockets[i], key) && st'.sockets[i] == Attach(st.sockets[i])))
      && (r.Threw? && Quiet(st, key) ==> Quiet(st', key))
  {
    hide Spawn, Cancel, Distinct, LiveIds, AttemptsOk, IdentitiesOk;
    if !st.disposed && !Covered(st, key) {
      var known := Identify(st, key);
      IdentifyOk(st, key);
      assert KeyOk(known, key);
      if key in st.workers { CancelOk(known, st.workers[key]); } else { SpawnOk(known, key, outcome); }
    }
  }

  // ---- Client transports ----

  /** One socket changes without coming back to life. */
  ghost predicate SocketMay(st: State, s: nat, after: Socket)
    requires s < |st.sockets|
  {
    var before := st.sockets[s];
    && after.key == before.key && after.id == before.id && SocketOk(after)
    && (before.closed ==> after.closed)
    && (after.closed && !before.closed ==> before.key in st.workers)
    && (!after.closed ==>
        && after.port.Some? == before.port.Some?
        && (before.pending == [] && before.key in st.workers && st.workers[before.key] < |st.placements|
            && st.placements[st.workers[before.key]].readyNow && st.placements[st.workers[before.key]].hibernation.None?
            ==> after.pending == []))
  }

  lemma UpdateSocketOk(st: State, s: nat, after: Socket)
    requires Inv(st) && s < |st.sockets| && SocketMay(st, s, after)
    ensures var st' := st.(sockets := st.sockets[s := after]);
      Inv(st') && SameControl(st, st') && StaysQuiet(st, st')
  {
    var st' := st.(sockets := st.sockets[s := after]);
    var key := st.sockets[s].key;
    forall other ensures KeyOk(st', other) {
      assert KeyOk(st, other);
      if other != key {
        assert SameSockets(st.sockets, st'.sockets, other);
        SameLiveIds(st.sockets, st'.sockets, other);
      } else if key !in st.workers {
        SameIds(st.sockets, st'.sockets, key);
      }
    }
    forall other | Quiet(st, other) ensures Quiet(st', other) { assert !Live(st.sockets[s], other); }
  }

  lemma ReceiveOk(st: State, s: nat, frame: Frame, outcome: Outcome)
    requires Inv(st) && s < |st.sockets|
    ensures var (st', r) := Receive(st, s, frame, outcome);
      && Inv(st') && ControlGrows(st, st') && |st'.sockets| == |st.sockets|
      && StaysQuiet(st, st')
  {
    hide Ensure, KeyOk, Distinct, LiveIds, AttemptsOk, IdentitiesOk;
    var socket := st.sockets[s];
    if !(socket.closed || (socket.closing && !frame.Close?)) {
      var (awake, ensured) := Ensure(st, socket.key, outcome);
      EnsureOk(st, socket.key, outcome);
      assert !Quiet(st, socket.key);
      assert StaysQuiet(st, awake);
      if ensured.Ok? { TakeOk(awake, s, frame, ensured.value); }
    }
  }

  function Taken(awake: State, s: nat, frame: Frame, p: nat): Socket
    requires s < |awake.sockets| && p < |awake.placements|
  {
    Receiving(awake.sockets[s], frame, Holding(awake.placements[p]))
  }

  lemma ReceivingOk(socket: Socket, frame: Frame, held: bool)
    requires SocketOk(socket) && !socket.closed && socket.port.Some? && (!held ==> socket.pending == [])
    ensures var after := Receiving(socket, frame, held);
      && SocketOk(after) && after.key == socket.key && after.id == socket.id
      && (!after.closed ==> after.port.Some? && (!held ==> after.pending == []))
  {
    assert socket.posted + (socket.pending + [frame]) == (socket.posted + socket.pending) + [frame];
  }

  lemma TakeOk(awake: State, s: nat, frame: Frame, p: nat)
    requires Inv(awake) && s < |awake.sockets| && !awake.sockets[s].closed
    requires Current(awake, p) && awake.placements[p].key == awake.sockets[s].key
    ensures awake.sockets[s].port.Some?
    ensures var st' := awake.(sockets := awake.sockets[s := Taken(awake, s, frame, p)]);
      Inv(st') && SameControl(awake, st') && StaysQuiet(awake, st')
  {
    var socket, after := awake.sockets[s], Taken(awake, s, frame, p);
    assert KeyOk(awake, socket.key);
    ReceivingOk(socket, frame, Holding(awake.placements[p]));
    hide Receiving, SocketOk, Distinct, LiveIds, AttemptsOk, IdentitiesOk;
    UpdateSocketOk(awake, s, after);
  }

  lemma CloseSocketOk(st: State, s: nat, close: Frame, notifyPeer: bool, outcome: Outcome)
    requires Inv(st) && s < |st.sockets|
    ensures var (st', r) := CloseSocket(st, s, close, notifyPeer, outcome);
      && Inv(st') && ControlGrows(st, st') && |st'.sockets| == |st.sockets| && StaysQuiet(st, st')
  {
    var socket := st.sockets[s];
    if !socket.closed && !socket.closing {
      var closing := socket.(closing := true, heard := if notifyPeer then socket.heard + [close] else socket.heard);
      UpdateSocketOk(st, s, closing);
      ReceiveOk(st.(sockets := st.sockets[s := closing]), s, close, outcome);
    }
  }

  lemma AppendClosedOk(st: State, socket: Socket)
    requires Inv(st) && socket.closed && SocketOk(socket)
    ensures var st' := st.(sockets := st.sockets + [socket]);
      Inv(st') && SameControl(st, st') && StaysQuiet(st, st')
  {
    var st' := st.(sockets := st.sockets + [socket]);
    forall key ensures KeyOk(st', key) {
      assert KeyOk(st, key);
      assert SameSockets(st.sockets, st'.sockets, key);
      SameLiveIds(st.sockets, st'.sockets, key);
    }
  }

  lemma AppendLiveOk(st: State, socket: Socket)
    requires Inv(st) && !socket.closed && SocketOk(socket) && socket.port.Some? && socket.pending == []
    requires socket.key in st.workers
    requires forall i :: 0 <= i < |st.sockets| && Live(st.sockets[i], socket.key) ==> st.sockets[i].id != socket.id
    ensures var st' := st.(sockets := st.sockets + [socket]);
      Inv(st') && SameControl(st, st') && StaysQuiet(st, st')
  {
    var st' := st.(sockets := st.sockets + [socket]);
    forall key ensures KeyOk(st', key) {
      assert KeyOk(st, key);
      if key != socket.key {
        assert SameSockets(st.sockets, st'.sockets, key);
        SameLiveIds(st.sockets, st'.sockets, key);
      }
    }
  }

  lemma ConnectOk(st: State, key: Key, id: string, outcome: Outcome, connectFails: bool)
    requires Inv(st)
    ensures var (st', r) := Connect(st, key, id, outcome, connectFails);
      Inv(st') && ControlGrows(st, st') && StaysQuietExcept(st, st', key)
    ensures Quiet(st, key) && (st.disposed || Covered(st, key)) ==> Quiet(Connect(st, key, id, outcome, connectFails).0, key)
  {
    hide Ensure, CloseSocket, KeyOk, Distinct, LiveIds, AttemptsOk, IdentitiesOk;
    var joining := NewSocket(key, id);
    var previous := FindLive(st.sockets, key, id);
    if previous.Some? {
      var close := Close(1008, "Connection superseded");
      var (closed, result) := CloseSocket(st, previous.value, close, true, outcome);
      CloseSocketOk(st, previous.value, close, true, outcome);
      if result.Ok? {
        AppendClosedOk(closed, Finish(joining.(heard := [Close(1012, "Previous connection is closing")]), Refused));
      }
    } else {
      var (awake, ensured) := Ensure(st, key, outcome);
      EnsureOk(st, key, outcome);
      if ensured.Threw? || connectFails {
        AppendClosedOk(awake, Finish(joining, Refused));
      } else {
        AppendLiveOk(awake, Attach(joining));
      }
    }
  }

  lemma PortMessageOk(st: State, s: nat, port: nat, frame: Frame)
    requires Inv(st) && s < |st.sockets|
    ensures var st' := PortMessage(st, s, port, frame);
      Inv(st') && SameControl(st, st') && StaysQuiet(st, st')
  {
    var socket := st.sockets[s];
    if socket.port == Some(port) {
      var told := socket.(heard := socket.heard + [frame]);
      assert KeyOk(st, socket.key);
      UpdateSocketOk(st, s, if frame.Close? then Finish(told, ByWorker) else told);
    }
  }

  lemma CloseSocketsOk(st: State, key: Key, close: Frame)
    requires Inv(st)
    ensures var st' := CloseSockets(st, key, close);
      && Inv(st') && SameControl(st, st') && StaysQuiet(st, st')
      && (key !in st.workers ==> Quiet(st', key)) && st'.workers == st.workers && st'.placements == st.placements
  {
    var st' := CloseSockets(st, key, close);
    EndAllOk(st.sockets, key, close);
    forall other ensures KeyOk(st', other) {
      assert KeyOk(st, other);
      if other != key {
        OthersSameFrame(st.sockets, st'.sockets, key, other);
        SameLiveIds(st.sockets, st'.sockets, other);
      }
    }
    forall other | Quiet(st, other) ensures Quiet(st', other) {
      assert forall i :: 0 <= i < |st'.sockets| && Live(st'.sockets[i], other) ==> Live(st.sockets[i], other);
    }
  }

  lemma StopOk(st: State, key: Key, reason: string)
    requires Inv(st)
    ensures var st' := Stop(st, key, reason);
      Inv(st') && SameControl(st, st') && StaysQuiet(st, st') && Quiet(st', key)
  {
    assert KeyOk(st, key);
    if key in st.workers {
      DiscardOk(st, st.workers[key], false);
      DiscardStaysQuiet(st, st.workers[key], false);
    } else {
      CloseSocketsOk(st, key, Close(1011, reason));
    }
  }

  // ---- Worker events and hibernation ----

  /** Clearing the probe, or becoming ready, and then delivering what was held. */
  lemma ServeOk(st: State, p: nat, placement: Placement)
    requires InvExcept(st, placement.key) && Current(st, p) && placement.key == st.placements[p].key
    requires RunningOk(st.(placements := st.placements[p := placement.(readyNow := false, readiness := Pending)]), placement.key, p)
    requires (placement.readyNow <==> placement.readiness.Resolved?) && !placement.readiness.Rejected?
    requires forall a :: 0 <= a < |st.attempts| && !st.attempts[a].replied && st.attempts[a].placement == p ==> placement.hibernation == Some(a)
    ensures var st' := Flush(st.(placements := st.placements[p := placement]), p);
      Inv(st') && SameControl(st, st') && StaysQuiet(st, st')
  {
    var key := placement.key;
    var mid := st.(placements := st.placements[p := placement]);
    var st' := Flush(mid, p);
    DeliverAllOk(st.sockets, key);
    forall other ensures KeyOk(st', other) {
      if other != key {
        assert KeyOk(st, other);
        if st'.sockets != st.sockets { OthersSameFrame(st.sockets, st'.sockets, key, other); }
        KeyFrame(st, st', other, p);
      }
    }
    forall other | Quiet(st, other) ensures Quiet(st', other) {
      assert forall i :: 0 <= i < |st'.sockets| && Live(st'.sockets[i], other) ==> Live(st.sockets[i], other);
    }
  }

  lemma ReadyOk(st: State, p: nat)
    requires Inv(st)
    ensures var st' := Ready(st, p);
      Inv(st') && SameControl(st, st') && StaysQuiet(st, st')
  {
    if Current(st, p) {
      var placement := st.placements[p];
      assert KeyOk(st, placement.key);
      ServeOk(st, p, placement.(readyNow := true,
        readiness := if placement.readiness.Pending? then Resolved else placement.readiness));
    }
  }

  lemma ReportActiveOk(st: State, p: nat)
    requires Inv(st)
    ensures var st' := ReportActive(st, p);
      Inv(st') && SameControl(st, st') && StaysQuiet(st, st')
  {
    if Current(st, p) { CancelOk(st, p); }
  }

  lemma HibernateStartOk(st: State, p: nat)
    requires Inv(st)
    ensures var st' := HibernateStart(st, p);
      Inv(st') && SameControl(st, st') && StaysQuiet(st, st')
  {
    if Current(st, p) && st.placements[p].hibernation.None? {
      var st' := HibernateStart(st, p);
      forall key ensures KeyOk(st', key) {
        assert KeyOk(st, key);
        if key != st.placements[p].key { KeyFrame(st, st', key, p); }
      }
    }
  }

  function Answered(st: State, a: nat): State
    requires a < |st.attempts|
  {
    st.(attempts := st.attempts[a := st.attempts[a].(replied := true)])
  }

  /** Marking an attempt answered disturbs no key but its placement's. */
  lemma AnsweredOthers(st: State, a: nat, other: Key)
    requires Inv(st) && a < |st.attempts|
    requires other in st.workers ==> st.workers[other] != st.attempts[a].placement
    ensures KeyOk(Answered(st, a), other)
  {
    assert KeyOk(st, other);
    KeyFrame(st, Answered(st, a), other, st.attempts[a].placement);
  }

  lemma AnsweredOk(st: State, a: nat)
    requires Inv(st) && a < |st.attempts| && !st.attempts[a].replied
    ensures Current(st, st.attempts[a].placement) ==>
      InvExcept(Answered(st, a), st.placements[st.attempts[a].placement].key)
    ensures !Current(st, st.attempts[a].placement) ==> Inv(Answered(st, a))
  {
    var p := st.attempts[a].placement;
    forall other | !(Current(st, p) && other == st.placements[p].key) ensures KeyOk(Answered(st, a), other) {
      assert KeyOk(st, other);
      AnsweredOthers(st, a, other);
    }
  }

  lemma ResumeOk(st: State, a: nat)
    requires Inv(st) && a < |st.attempts| && !st.attempts[a].replied && Current(st, st.attempts[a].placement)
    ensures var st' := Resume(Answered(st, a), st.attempts[a].placement);
      Inv(st') && SameControl(st, st') && StaysQuiet(st, st')
  {
    var p := st.attempts[a].placement;
    AnsweredOk(st, a);
    assert KeyOk(st, st.placements[p].key);
    ServeOk(Answered(st, a), p, st.placements[p].(hibernation := None));
  }

  lemma HibernatedOk(st: State, a: nat, snapshot: Snapshot)
    requires Inv(st) && a < |st.attempts| && !st.attempts[a].replied && Current(st, st.attempts[a].placement)
    requires Describes(st.sockets, st.placements[st.attempts[a].placement].key, snapshot)
    ensures var p := st.attempts[a].placement;
      var stored := Answered(st, a).(hibernated := st.hibernated[st.placements[p].key := snapshot]);
      var st' := Discard(stored, p, true);
      Inv(st') && SameControl(st, st') && StaysQuiet(st, st')
  {
    var p := st.attempts[a].placement;
    var key := st.placements[p].key;
    var stored := Answered(st, a).(hibernated := st.hibernated[key := snapshot]);
    AnsweredOk(st, a);
    forall other | other != key ensures KeyOk(stored, other) {
      assert KeyOk(Answered(st, a), other);
      KeyFrame(Answered(st, a), stored, other, p);
    }
    DiscardOk(stored, p, true);
    DiscardStaysQuiet(stored, p, true);
    forall other | Quiet(st, other) ensures Quiet(stored, other) { assert other != key; }
  }

  lemma HibernateReplyOk(st: State, a: nat, reply: Reply)
    requires Inv(st)
    ensures var st' := HibernateReply(st, a, reply);
      Inv(st') && SameControl(st, st') && StaysQuiet(st, st')
  {
    if a < |st.attempts| && !st.attempts[a].replied {
      var p := st.attempts[a].placement;
      AnsweredOk(st, a);
      if Current(st, p) {
        if !reply.Prepared? || st.attempts[a].canceled || !Describes(st.sockets, st.placements[p].key, reply.snapshot) {
          ResumeOk(st, a);
        } else {
          HibernatedOk(st, a, reply.snapshot);
        }
      }
    }
  }

  lemma DisposeOk(st: State)
    requires Inv(st)
    ensures var st' := Dispose(st);
      && Inv(st') && StaysQuiet(st, st') && st'.disposed && st'.deletions == st.deletions && st'.identities == st.identities
      && (!st.disposed ==> forall key :: Quiet(st', key))
  {
    if !st.disposed {
      var st' := Dispose(st);
      forall i | 0 <= i < |st.sockets| ensures st'.sockets[i].closed && SocketOk(st'.sockets[i]) {
        assert KeyOk(st, st.sockets[i].key);
      }
    }
  }
}
