/**
 * The slots of the SAH pool behind `backends/sqlite-wasm.ts`. A step is what runs between two
 * `await`s. The files are those of any number of prefixes; every open and every import goes through
 * the pool's queue, and everything else may happen at any moment.
 */
module HeadroomModel {
  /** A pool file: a database, or the rollback journal of one. */
  datatype File = Database(id: nat) | Journal(id: nat)

  /** What a queued step will add. */
  datatype Job =
    | OpenJob(database: nat)
    | ImportJob(replacement: set<nat>, images: nat)  // `images` is the number of databases imported

  datatype Stage =
    | Idle
    | Reserving(job: Job, listed: set<File>, counted: nat)  // awaiting `reserveMinimumCapacity`
    | Reserved(job: Job, listed: set<File>, counted: nat)   // it returned, `run` is about to start
    | Replacing(names: set<File>)                           // `replacePoolFiles` over these names

  datatype State = State(
    capacity: nat,
    files: set<File>,
    connections: map<nat, nat>,  // each open connection's database
    queue: seq<Job>,
    stage: Stage,
    refused: nat)                // file creations that found no slot

  datatype Event =
    | Enqueue(job: Job)
    | Begin
    | Grow(slots: nat)
    | ReserveReturned
    | ReserveFailed
    | RunOpen(connection: nat, creates: bool, opens: bool)
    | RunImport(prefix: set<File>)
    | ImportFile(file: File)
    | EndImport
    | FirstWrite(connection: nat)
    | EndTransaction(connection: nat)
    | Close(connection: nat, leavesJournal: bool)
    | Reset(connection: nat, unlinks: bool, reopens: bool)
    | Unlink(file: File)
    | Crash

  function Adding(job: Job, listed: set<File>): nat {
    match job
    case OpenJob(database) => (if Database(database) in listed then 0 else 1) + 1
    case ImportJob(_, images) => images
  }

  function Target(job: Job, listed: set<File>, counted: nat): nat {
    |listed| + Adding(job, listed) + counted
  }

  /** SQLite or an import creates `file`, if a slot is left for it. */
  function Create(s: State, file: File): State {
    if file in s.files then s
    else if |s.files| < s.capacity then s.(files := s.files + {file})
    else s.(refused := s.refused + 1)
  }

  function Databases(ids: set<nat>): set<File> {
    set id | id in ids :: Database(id)
  }

  predicate Enabled(s: State, event: Event) {
    match event
    // The names of one import are distinct, so there is an image for each.
    case Enqueue(job) => job.ImportJob? ==> |job.replacement| == job.images
    case Begin => s.stage.Idle? && s.queue != []
    case Grow(_) => true
    case ReserveReturned => s.stage.Reserving? && s.capacity >= Target(s.stage.job, s.stage.listed, s.stage.counted)
    case ReserveFailed => s.stage.Reserving?
    case RunOpen(connection, creates, opens) =>
      && s.stage.Reserved? && s.stage.job.OpenJob? && connection !in s.connections
      && (opens ==> creates)
    case RunImport(prefix) =>
      && s.stage.Reserved? && s.stage.job.ImportJob? && prefix <= s.files
      && (forall f :: f in prefix ==> f.Database?)  // a sidecar is refused first
    case ImportFile(file) => s.stage.Replacing? && file in s.stage.names
    case EndImport => s.stage.Replacing? || (s.stage.Reserved? && s.stage.job.ImportJob?)
    case FirstWrite(connection) => connection in s.connections
    case EndTransaction(connection) => connection in s.connections
    case Close(connection, _) => connection in s.connections
    case Reset(connection, _, _) => connection in s.connections
    case Unlink(_) => true
    case Crash => true
  }

  function Step(s: State, event: Event): State
    requires Enabled(s, event)
  {
    match event
    case Enqueue(job) => s.(queue := s.queue + [job])
    case Begin =>
      s.(queue := s.queue[1..], stage := Reserving(s.queue[0], s.files, |s.connections|))
    case Grow(slots) => s.(capacity := s.capacity + slots)
    case ReserveReturned => s.(stage := Reserved(s.stage.job, s.stage.listed, s.stage.counted))
    case ReserveFailed => s.(stage := Idle)
    case RunOpen(connection, creates, opens) =>
      var file := Database(s.stage.job.database);
      var created := if creates then Create(s, file) else s;
      if opens && file in created.files
      then created.(stage := Idle, connections := s.connections[connection := s.stage.job.database])
      else created.(stage := Idle)
    case RunImport(prefix) => s.(stage := Replacing(prefix + Databases(s.stage.job.replacement)))
    case ImportFile(file) => Create(s, file)
    case EndImport => s.(stage := Idle)
    case FirstWrite(connection) => Create(s, Journal(s.connections[connection]))
    case EndTransaction(connection) => s.(files := s.files - {Journal(s.connections[connection])})
    case Close(connection, leavesJournal) =>
      s.(connections := s.connections - {connection},
         files := if leavesJournal then s.files else s.files - {Journal(s.connections[connection])})
    case Reset(connection, unlinks, reopens) =>
      // Closing the handle ends its transaction; the unlinked file's slot is free for the new one.
      var file := Database(s.connections[connection]);
      var closed := s.(files := s.files - {Journal(s.connections[connection])});
      if file !in closed.files || !unlinks then closed
      else if reopens then Create(closed.(files := closed.files - {file}), file)
      else closed.(files := closed.files - {file})
    case Unlink(file) => s.(files := s.files - {file})
    case Crash => s.(connections := map[], queue := [], stage := Idle)
  }

  /** A pool as a worker finds it: whatever files an earlier worker left, each in a slot. */
  predicate Initial(s: State) {
    && |s.files| <= s.capacity
    && s.connections == map[] && s.queue == [] && s.stage == Idle && s.refused == 0
  }

  predicate Possible(s: State, events: seq<Event>)
    decreases |events|
  {
    events == [] || (Enabled(s, events[0]) && Possible(Step(s, events[0]), events[1..]))
  }

  function Run(s: State, events: seq<Event>): State
    requires Possible(s, events)
    decreases |events|
  {
    if events == [] then s else Run(Step(s, events[0]), events[1..])
  }
}

module HeadroomTheorems {
  import opened HeadroomModel

  /** The journals a connection holding one of these databases may have. */
  function OpenJournals(connections: map<nat, nat>): set<File> {
    set c | c in connections :: Journal(connections[c])
  }

  /** Files that are not an open connection's journal. */
  function Stored(s: State): set<File> {
    s.files - OpenJournals(s.connections)
  }

  /** The slots spoken for when the step in progress may also create `names`. */
  function Load(s: State, names: set<File>): nat {
    |Stored(s) + names| + |s.connections|
  }

  /** The names a reserving step found listed and may create again, should they be unlinked meanwhile. */
  function Listed(job: Job, listed: set<File>): set<File> {
    match job
    case OpenJob(database) => if Database(database) in listed then {Database(database)} else {}
    case ImportJob(_, _) => {}
  }

  ghost predicate StageFits(s: State) {
    match s.stage
    case Idle => true
    case Reserving(job, listed, counted) =>
      JobFits(job) && Load(s, Listed(job, listed)) <= |listed| + counted
    case Reserved(job, listed, counted) =>
      && JobFits(job)
      && Load(s, Listed(job, listed)) <= |listed| + counted
      && Target(job, listed, counted) <= s.capacity
    case Replacing(names) => Load(s, names) <= s.capacity
  }

  predicate JobFits(job: Job) {
    job.ImportJob? ==> |job.replacement| == job.images
  }

  ghost predicate Inv(s: State) {
    && Load(s, {}) <= s.capacity
    && StageFits(s)
    && (forall j :: j in s.queue ==> JobFits(j))
    && s.refused == 0
  }

  // ---------- Counting

  lemma SubsetCount<T>(a: set<T>, b: set<T>)
    requires a <= b
    ensures |a| <= |b|
  {
    assert |b| == |a| + |b - a| by { assert b == a + (b - a); }
  }

  lemma UnionCount<T>(a: set<T>, b: set<T>)
    ensures |a + b| <= |a| + |b|
  {
    assert a + b == a + (b - a);
    SubsetCount(b - a, b);
  }

  lemma OpenJournalsWithout(connections: map<nat, nat>, c: nat)
    requires c in connections
    ensures OpenJournals(connections) == OpenJournals(connections - {c}) + {Journal(connections[c])}
    ensures |connections - {c}| == |connections| - 1
  {
    var rest := connections - {c};
    forall f | f in OpenJournals(connections) ensures f in OpenJournals(rest) + {Journal(connections[c])} {
      var d :| d in connections && f == Journal(connections[d]);
      assert d == c || d in rest;
    }
    forall f | f in OpenJournals(rest) ensures f in OpenJournals(connections) {
      var d :| d in rest && f == Journal(rest[d]);
      assert d in connections;
    }
    assert rest.Keys == connections.Keys - {c};
    assert |rest.Keys| == |rest| && |connections.Keys| == |connections|;
  }

  lemma {:induction false} OpenJournalsCount(connections: map<nat, nat>)
    ensures |OpenJournals(connections)| <= |connections|
    decreases |connections|
  {
    if connections == map[] {
      assert OpenJournals(connections) == {};
    } else {
      var c :| c in connections;
      var rest := connections - {c};
      OpenJournalsWithout(connections, c);
      OpenJournalsCount(rest);
      UnionCount(OpenJournals(rest), {Journal(connections[c])});
    }
  }

  lemma {:induction false} DatabasesCount(ids: set<nat>)
    ensures |Databases(ids)| <= |ids|
    decreases ids
  {
    if ids == {} {
      assert Databases(ids) == {};
    } else {
      var id :| id in ids;
      DatabasesCount(ids - {id});
      assert Databases(ids) == Databases(ids - {id}) + {Database(id)};
      UnionCount(Databases(ids - {id}), {Database(id)});
    }
  }

  /** What every step that is not an open or an import does to the slots spoken for. */
  lemma LoadFalls(s: State, t: State, names: set<File>, freed: set<File>)
    requires Stored(t) <= Stored(s) + freed
    requires |t.connections| + |freed| <= |s.connections|
    ensures Load(t, names) <= Load(s, names)
  {
    SubsetCount(Stored(t) + names, (Stored(s) + names) + freed);
    UnionCount(Stored(s) + names, freed);
  }

  lemma LoadGrowsBy(s: State, t: State, old_: set<File>, names: set<File>, added: set<File>)
    requires Stored(t) + names <= Stored(s) + old_ + added
    ensures Load(t, names) <= Load(s, old_) + |added| + |t.connections| - |s.connections|
  {
    SubsetCount(Stored(t) + names, (Stored(s) + old_) + added);
    UnionCount(Stored(s) + old_, added);
  }

  /** A file the step in progress may create, or an open connection's journal, finds a slot. */
  lemma SlotIsFree(s: State, names: set<File>, file: File)
    requires Load(s, names) <= s.capacity
    requires file !in s.files
    requires file in names || file in OpenJournals(s.connections)
    ensures |s.files| < s.capacity
  {
    var journals := OpenJournals(s.connections);
    OpenJournalsCount(s.connections);
    if file in journals {
      assert s.files <= Stored(s) + (journals - {file});
      SubsetCount(s.files, Stored(s) + (journals - {file}));
      UnionCount(Stored(s), journals - {file});
      SubsetCount(Stored(s), Stored(s) + names);
    } else {
      assert s.files <= ((Stored(s) + names) - {file}) + journals;
      SubsetCount(s.files, ((Stored(s) + names) - {file}) + journals);
      UnionCount((Stored(s) + names) - {file}, journals);
    }
  }

  // ---------- Steps

  /** The steps that may fall between the steps of a queued job. */
  predicate Concurrent(event: Event) {
    event.FirstWrite? || event.EndTransaction? || event.Close? || event.Reset? || event.Unlink? || event.Grow?
  }

  /** The journal a closing connection may leave behind. */
  function Freed(s: State, event: Event): set<File> {
    if event.Close? && event.connection in s.connections then {Journal(s.connections[event.connection])} else {}
  }

  lemma ConcurrentFrees(s: State, event: Event)
    requires Enabled(s, event) && Concurrent(event) && !event.Close?
    ensures Step(s, event).connections == s.connections
    ensures Step(s, event).files <= s.files + OpenJournals(s.connections)
  {
    match event
    case Reset(_, _, _) => ResetFrees(s, event);
    case FirstWrite(c) => assert Journal(s.connections[c]) in OpenJournals(s.connections);
    case _ =>
  }

  lemma ResetFrees(s: State, event: Event)
    requires Enabled(s, event) && event.Reset?
    ensures Step(s, event).connections == s.connections && Step(s, event).files <= s.files
  {
  }

  lemma ConcurrentFalls(s: State, event: Event, names: set<File>)
    requires Enabled(s, event) && Concurrent(event)
    ensures Load(Step(s, event), names) <= Load(s, names)
  {
    if event.Close? {
      OpenJournalsWithout(s.connections, event.connection);
    } else {
      ConcurrentFrees(s, event);
    }
    LoadFalls(s, Step(s, event), names, Freed(s, event));
  }

  lemma ConcurrentRefusesNothing(s: State, event: Event)
    requires Inv(s) && Enabled(s, event) && Concurrent(event)
    ensures Step(s, event).refused == 0
  {
    if event.FirstWrite? {
      var journal := Journal(s.connections[event.connection]);
      assert journal in OpenJournals(s.connections);
      if journal !in s.files {
        SlotIsFree(s, {}, journal);
      }
    } else if event.Reset? {
      var file := Database(s.connections[event.connection]);
      var closed := s.files - {Journal(s.connections[event.connection])};
      if file in closed {
        OpenJournalsCount(s.connections);
        SubsetCount(s.files, Stored(s) + OpenJournals(s.connections));
        UnionCount(Stored(s), OpenJournals(s.connections));
        assert Stored(s) + {} == Stored(s);
        assert |closed - {file}| == |closed| - 1;
        SubsetCount(closed, s.files);
      }
    }
  }

  lemma ConcurrentKeepsInv(s: State, event: Event)
    requires Inv(s) && Enabled(s, event) && Concurrent(event)
    ensures Inv(Step(s, event))
  {
    var t := Step(s, event);
    ConcurrentRefusesNothing(s, event);
    ConcurrentFalls(s, event, {});
    assert t.stage == s.stage && t.queue == s.queue && t.capacity >= s.capacity;
    match s.stage
    case Idle =>
    case Reserving(job, listed, _) => ConcurrentFalls(s, event, Listed(job, listed));
    case Reserved(job, listed, _) => ConcurrentFalls(s, event, Listed(job, listed));
    case Replacing(names) => ConcurrentFalls(s, event, names);
  }

  lemma BeginKeepsInv(s: State)
    requires Inv(s) && Enabled(s, Begin)
    ensures Inv(Step(s, Begin))
  {
    var t := Step(s, Begin);
    var names := Listed(s.queue[0], s.files);
    assert Stored(t) == Stored(s);
    SubsetCount(Stored(s) + names, s.files);
  }

  /** Once the reserve returned, the database's slot and its connection's journal are covered. */
  lemma OpenIsCovered(s: State)
    requires StageFits(s) && s.stage.Reserved? && s.stage.job.OpenJob?
    ensures Load(s, {Database(s.stage.job.database)}) + 1 <= s.capacity
  {
    var file := Database(s.stage.job.database);
    var names := Listed(s.stage.job, s.stage.listed);
    if names == {file} {
    } else {
      LoadGrowsBy(s, s, names, {file}, {file});
    }
  }

  /** What an open leaves: at most its file and its connection more, and nothing refused. */
  lemma OpenAddsItsOwn(s: State, event: Event)
    requires Inv(s) && Enabled(s, event) && event.RunOpen?
    ensures var t := Step(s, event); var database := s.stage.job.database;
      && t.capacity == s.capacity && t.queue == s.queue && t.stage == Idle && t.refused == 0
      && t.files <= s.files + {Database(database)}
      && (t.connections == s.connections || t.connections == s.connections[event.connection := database])
  {
    var file := Database(s.stage.job.database);
    OpenIsCovered(s);
    if file !in s.files {
      SlotIsFree(s, {file}, file);
    }
  }

  lemma OpenKeepsInv(s: State, event: Event)
    requires Inv(s) && Enabled(s, event) && event.RunOpen?
    ensures Inv(Step(s, event))
  {
    OpenIsCovered(s);
    OpenAddsItsOwn(s, event);
    OpenLoad(s, Step(s, event), event.connection, s.stage.job.database);
  }

  lemma OpenLoad(s: State, t: State, connection: nat, database: nat)
    requires connection !in s.connections
    requires t.files <= s.files + {Database(database)}
    requires t.connections == s.connections || t.connections == s.connections[connection := database]
    ensures Load(t, {}) <= Load(s, {Database(database)}) + 1
  {
    var grown := s.connections[connection := database];
    assert |grown| == |s.connections| + 1 by {
      assert grown.Keys == s.connections.Keys + {connection};
      assert |grown.Keys| == |grown| && |s.connections.Keys| == |s.connections|;
    }
    OpenJournalsGrow(s.connections, connection, database);
    assert Stored(t) + {} <= Stored(s) + {Database(database)} + {};
    LoadGrowsBy(s, t, {Database(database)}, {}, {});
  }

  lemma OpenJournalsGrow(connections: map<nat, nat>, c: nat, database: nat)
    requires c !in connections
    ensures OpenJournals(connections) <= OpenJournals(connections[c := database])
  {
    var grown := connections[c := database];
    forall f | f in OpenJournals(connections) ensures f in OpenJournals(grown) {
      var d :| d in connections && f == Journal(connections[d]);
      assert d in grown && grown[d] == connections[d];
    }
  }

  lemma RunImportKeepsInv(s: State, event: Event)
    requires Inv(s) && Enabled(s, event) && event.RunImport?
    ensures Inv(Step(s, event))
  {
    var t := Step(s, event);
    var replacement := Databases(s.stage.job.replacement);
    DatabasesCount(s.stage.job.replacement);
    LoadGrowsBy(s, t, {}, event.prefix + replacement, replacement);
    LoadGrowsBy(s, t, {}, {}, {});
  }

  lemma ImportFileKeepsInv(s: State, event: Event)
    requires Inv(s) && Enabled(s, event) && event.ImportFile?
    ensures Inv(Step(s, event))
  {
    var t := Step(s, event);
    if event.file !in s.files {
      SlotIsFree(s, s.stage.names, event.file);
    }
    LoadGrowsBy(s, t, s.stage.names, s.stage.names, {});
    LoadGrowsBy(t, t, s.stage.names, {}, {});
  }

  /** A crash turns open journals into stored files, one for a connection at most. */
  lemma CrashKeepsInv(s: State)
    requires Inv(s)
    ensures Inv(Step(s, Crash))
  {
    OpenJournalsCount(s.connections);
    LoadFalls(s, Step(s, Crash), {}, OpenJournals(s.connections));
  }

  lemma WaitingKeepsInv(s: State, event: Event)
    requires Inv(s) && Enabled(s, event)
    requires event.Enqueue? || event.ReserveReturned? || event.ReserveFailed? || event.EndImport?
    ensures Inv(Step(s, event))
  {
    var t := Step(s, event);
    assert Stored(t) == Stored(s);
  }

  lemma StepKeepsInv(s: State, event: Event)
    requires Inv(s) && Enabled(s, event)
    ensures Inv(Step(s, event))
  {
    if Concurrent(event) {
      ConcurrentKeepsInv(s, event);
    } else {
      match event
      case Begin => BeginKeepsInv(s);
      case RunOpen(_, _, _) => OpenKeepsInv(s, event);
      case RunImport(_) => RunImportKeepsInv(s, event);
      case ImportFile(_) => ImportFileKeepsInv(s, event);
      case Crash => CrashKeepsInv(s);
      case _ => WaitingKeepsInv(s, event);
    }
  }

  lemma InitialInv(s: State)
    requires Initial(s)
    ensures Inv(s)
  {
    assert Stored(s) + {} == s.files;
  }

  lemma {:induction false} RunKeepsInv(s: State, events: seq<Event>)
    requires Inv(s) && Possible(s, events)
    ensures Inv(Run(s, events))
    decreases |events|
  {
    if events == [] {
    } else {
      StepKeepsInv(s, events[0]);
      RunKeepsInv(Step(s, events[0]), events[1..]);
    }
  }

  // ---------- Theorems

  /** The stated inequality, over every interleaving and every crash. */
  lemma CapacityCoversFilesAndConnections(start: State, events: seq<Event>)
    requires Initial(start) && Possible(start, events)
    ensures var s := Run(start, events); |Stored(s)| + |s.connections| <= s.capacity
  {
    InitialInv(start);
    RunKeepsInv(start, events);
    var s := Run(start, events);
    assert Stored(s) + {} == Stored(s);
  }

  /** No first write, no open, no import and no rollback of one ever runs out of slots. */
  lemma NothingRunsOutOfSlots(start: State, events: seq<Event>)
    requires Initial(start) && Possible(start, events)
    ensures Run(start, events).refused == 0
  {
    InitialInv(start);
    RunKeepsInv(start, events);
  }

  /** A connection's first write finds a slot, in whatever state the other users left the pool. */
  lemma FirstWriteFindsASlot(start: State, events: seq<Event>, connection: nat)
    requires Initial(start) && Possible(start, events)
    requires connection in Run(start, events).connections
    ensures var s := Run(start, events); var journal := Journal(s.connections[connection]);
      && Enabled(s, FirstWrite(connection))
      && Step(s, FirstWrite(connection)).files == s.files + {journal}
      && (journal in s.files || |s.files| < s.capacity)
  {
    InitialInv(start);
    RunKeepsInv(start, events);
    var s := Run(start, events);
    var journal := Journal(s.connections[connection]);
    assert journal in OpenJournals(s.connections);
    if journal !in s.files {
      SlotIsFree(s, {}, journal);
    }
  }

  /** While files are replaced, every name of the replacement or of the originals can be imported. */
  lemma ImportFindsASlot(start: State, events: seq<Event>, file: File)
    requires Initial(start) && Possible(start, events)
    requires Run(start, events).stage.Replacing? && file in Run(start, events).stage.names
    ensures Step(Run(start, events), ImportFile(file)).files == Run(start, events).files + {file}
  {
    InitialInv(start);
    RunKeepsInv(start, events);
    SlotWhileReplacing(Run(start, events), file);
  }

  lemma SlotWhileReplacing(s: State, file: File)
    requires Inv(s) && s.stage.Replacing? && file in s.stage.names
    ensures Step(s, ImportFile(file)).files == s.files + {file}
  {
    hide Load, OpenJournals;
    assert Step(s, ImportFile(file)) == Create(s, file);
    hide Step;
    if file !in s.files {
      SlotIsFree(s, s.stage.names, file);
    }
  }

  /** Every open connection with its transaction begun. */
  function AllWriting(s: State): set<File> {
    s.files + OpenJournals(s.connections)
  }

  predicate OneConnectionEach(connections: map<nat, nat>) {
    forall c, d :: c in connections && d in connections && connections[c] == connections[d] ==> c == d
  }

  lemma {:induction false} OneJournalEach(connections: map<nat, nat>)
    requires OneConnectionEach(connections)
    ensures |OpenJournals(connections)| == |connections|
    decreases |connections|
  {
    if connections == map[] {
      assert OpenJournals(connections) == {};
    } else {
      var c :| c in connections;
      var rest := connections - {c};
      OpenJournalsWithout(connections, c);
      OneJournalEach(rest);
      assert Journal(connections[c]) !in OpenJournals(rest);
    }
  }

  /**
   * The inequality asks for no more than is needed: while each database has one connection, it holds
   * exactly when the pool has room for every connection to be writing at once.
   */
  lemma InequalityIsExact(s: State)
    requires OneConnectionEach(s.connections)
    ensures |Stored(s)| + |s.connections| <= s.capacity <==> |AllWriting(s)| <= s.capacity
  {
    OneJournalEach(s.connections);
    assert AllWriting(s) == Stored(s) + OpenJournals(s.connections);
    assert Stored(s) !! OpenJournals(s.connections);
  }
}

/** `withHeadroom` and the connections of `backends/sqlite-wasm.ts`, over the pool they share. */
module PoolHeadroom {
  import opened HeadroomModel

  class Pool {
    var capacity: nat
    var files: set<File>
    var openConnections: nat
    var queue: seq<Job>
    var stage: Stage
    ghost var connections: map<nat, nat>
    ghost var refused: nat

    ghost function Model(): State
      reads this
    {
      State(capacity, files, connections, queue, stage, refused)
    }

    /** The module counts its connections; the model knows which they are. */
    ghost predicate Valid()
      reads this
    {
      openConnections == |connections|
    }

    constructor (capacity: nat, files: set<File>)
      requires |files| <= capacity
      ensures Valid() && Initial(Model()) && Model().files == files && Model().capacity == capacity
    {
      this.capacity, this.files := capacity, files;
      openConnections, queue, stage, connections, refused := 0, [], Idle, map[], 0;
    }

    method WithHeadroom(job: Job)
      requires Valid() && Enabled(Model(), Enqueue(job))
      modifies this`queue
      ensures Valid() && Model() == Step(old(Model()), Enqueue(job))
    {
      queue := queue + [job];
    }

    /** The queue reached its next step, which asks the driver for `minimum` slots. */
    method BeginStep() returns (minimum: nat)
      requires Valid() && Enabled(Model(), Begin)
      modifies this`queue, this`stage
      ensures Valid() && Model() == Step(old(Model()), Begin)
      ensures minimum == Target(old(queue)[0], files, |connections|)
    {
      var job := queue[0];
      var adding;
      match job {
        case OpenJob(database) => adding := (if Database(database) in files then 0 else 1) + 1;
        case ImportJob(_, images) => adding := images;
      }
      minimum := |files| + adding + openConnections;
      queue, stage := queue[1..], Reserving(job, files, openConnections);
    }

    /** The driver's file creation: a full pool fails it. */
    method CreateFile(file: File)
      requires Valid()
      modifies this`files, this`refused
      ensures Valid() && Model() == Create(old(Model()), file)
    {
      if file !in files {
        if |files| < capacity {
          files := files + {file};
        } else {
          refused := refused + 1;
        }
      }
    }

    /** `new SqliteWasmDatabase`: an open that fails leaves no connection behind. */
    method OpenDatabase(ghost connection: nat, creates: bool, opens: bool) returns (isOpen: bool)
      requires Valid() && Enabled(Model(), RunOpen(connection, creates, opens))
      modifies this
      ensures Valid() && Model() == Step(old(Model()), RunOpen(connection, creates, opens))
      ensures isOpen <==> connection in connections
    {
      var database := stage.job.database;
      if creates {
        CreateFile(Database(database));
      }
      stage := Idle;
      isOpen := opens && Database(database) in files;
      if isOpen {
        openConnections := openConnections + 1;
        connections := connections[connection := database];
      }
    }

    method CloseConnection(ghost connection: nat, database: nat, leavesJournal: bool)
      requires Valid() && Enabled(Model(), Close(connection, leavesJournal)) && connections[connection] == database
      modifies this
      ensures Valid() && Model() == Step(old(Model()), Close(connection, leavesJournal))
    {
      if !leavesJournal {
        files := files - {Journal(database)};
      }
      assert (connections - {connection}).Keys == connections.Keys - {connection};
      assert |connections| == |connections.Keys| && |connections - {connection}| == |(connections - {connection}).Keys|;
      openConnections := openConnections - 1;
      connections := connections - {connection};
    }

    method ResetConnection(ghost connection: nat, database: nat, unlinks: bool, reopens: bool)
      requires Valid() && Enabled(Model(), Reset(connection, unlinks, reopens)) && connections[connection] == database
      modifies this
      ensures Valid() && Model() == Step(old(Model()), Reset(connection, unlinks, reopens))
    {
      files := files - {Journal(database)};
      if Database(database) in files && unlinks {
        files := files - {Database(database)};
        if reopens {
          CreateFile(Database(database));
        }
      }
    }
  }
}
