/** What the steps of the shared pool achieve: opens, imports and resets go through. */
module HeadroomOutcomes {
  import opened HeadroomModel
  import opened HeadroomTheorems

  lemma {:induction false} RunMore(s: State, events: seq<Event>, event: Event)
    requires Possible(s, events) && Enabled(Run(s, events), event)
    ensures Possible(s, events + [event]) && Run(s, events + [event]) == Step(Run(s, events), event)
    decreases |events|
  {
    hide Step, Enabled;
    if events == [] {
      assert [event][1..] == [];
      assert events + [event] == [event];
    } else {
      assert (events + [event])[1..] == events[1..] + [event];
      RunMore(Step(s, events[0]), events[1..], event);
    }
  }

  /** The first queued step begins, and waits until the pool has grown to what it asked for. */
  lemma StepIsReserved(start: State, events: seq<Event>, slots: nat)
    requires Possible(start, events) && Enabled(Run(start, events), Begin)
    requires var s := Run(start, events);
      s.capacity + slots >= |s.files| + Adding(s.queue[0], s.files) + |s.connections|
    ensures var s := Run(start, events); var whole := events + [Begin] + [Grow(slots)] + [ReserveReturned];
      && Possible(start, whole)
      && Run(start, whole) == s.(
           queue := s.queue[1..], capacity := s.capacity + slots,
           stage := Reserved(s.queue[0], s.files, |s.connections|))
  {
    hide Run, Possible, Adding;
    RunMore(start, events, Begin);
    RunMore(start, events + [Begin], Grow(slots));
    RunMore(start, events + [Begin] + [Grow(slots)], ReserveReturned);
  }

  /** An open whose turn it is and that SQLite does not fail has its file, counts as open, and frees the queue. */
  lemma OpenGoesThrough(start: State, events: seq<Event>, slots: nat, connection: nat)
    requires Initial(start) && Possible(start, events) && Enabled(Run(start, events), Begin)
    requires var s := Run(start, events);
      && s.queue[0].OpenJob? && connection !in s.connections
      && s.capacity + slots >= |s.files| + Adding(s.queue[0], s.files) + |s.connections|
    ensures var s := Run(start, events); var database := s.queue[0].database;
      var whole := events + [Begin] + [Grow(slots)] + [ReserveReturned] + [RunOpen(connection, true, true)];
      && Possible(start, whole)
      && var t := Run(start, whole);
      && t.connections == s.connections[connection := database]
      && t.files == s.files + {Database(database)}
      && t.stage == Idle && t.queue == s.queue[1..]
  {
    hide Run, Possible, Adding;
    StepIsReserved(start, events, slots);
    var reserved := events + [Begin] + [Grow(slots)] + [ReserveReturned];
    var open := RunOpen(connection, true, true);
    RunMore(start, reserved, open);
    NothingRunsOutOfSlots(start, reserved);
    NothingRunsOutOfSlots(start, reserved + [open]);
  }

  /** An import whose turn it is goes on to replace its placement's files and its own, each with a slot. */
  lemma ImportGoesAhead(start: State, events: seq<Event>, slots: nat, prefix: set<File>)
    requires Initial(start) && Possible(start, events) && Enabled(Run(start, events), Begin)
    requires var s := Run(start, events);
      && s.queue[0].ImportJob? && prefix <= s.files && (forall f :: f in prefix ==> f.Database?)
      && s.capacity + slots >= |s.files| + Adding(s.queue[0], s.files) + |s.connections|
    ensures var s := Run(start, events);
      var whole := events + [Begin] + [Grow(slots)] + [ReserveReturned] + [RunImport(prefix)];
      && Possible(start, whole)
      && var t := Run(start, whole); var names := prefix + Databases(s.queue[0].replacement);
      && t.stage == Replacing(names) && t.files == s.files
      && forall file :: file in names ==> Step(t, ImportFile(file)).files == t.files + {file}
  {
    StepIsReserved(start, events, slots);
    var reserved := events + [Begin] + [Grow(slots)] + [ReserveReturned];
    RunMore(start, reserved, RunImport(prefix));
    hide Run, Possible, Adding;
    var t := Run(start, reserved + [RunImport(prefix)]);
    forall file | file in t.stage.names ensures Step(t, ImportFile(file)).files == t.files + {file} {
      ImportFindsASlot(start, reserved + [RunImport(prefix)], file);
    }
  }

  /** A reset that unlinks and reopens its database leaves it there, without its journal, and stays open. */
  lemma ResetReopens(start: State, events: seq<Event>, connection: nat)
    requires Initial(start) && Possible(start, events) && connection in Run(start, events).connections
    requires Database(Run(start, events).connections[connection]) in Run(start, events).files
    ensures var s := Run(start, events); var t := Step(s, Reset(connection, true, true));
      && t.files == s.files - {Journal(s.connections[connection])}
      && t.connections == s.connections && t.refused == 0
  {
    RunMore(start, events, Reset(connection, true, true));
    NothingRunsOutOfSlots(start, events);
    NothingRunsOutOfSlots(start, events + [Reset(connection, true, true)]);
    hide Run, Possible;
  }

  /** A transaction's end gives its journal's slot back, and a close gives back the connection as well. */
  lemma SlotsComeBack(start: State, events: seq<Event>, connection: nat)
    requires Possible(start, events) && connection in Run(start, events).connections
    ensures var s := Run(start, events); var journal := Journal(s.connections[connection]);
      && Step(s, EndTransaction(connection)) == s.(files := s.files - {journal})
      && Step(s, Close(connection, false)) == s.(files := s.files - {journal}, connections := s.connections - {connection})
      && Step(s, Close(connection, true)) == s.(connections := s.connections - {connection})
  {
    hide Run;
  }

  /**
   * A step joins the queue's end; one whose reservation failed, or whose import ended, leaves the queue
   * to the next; and an unlinked file is gone.
   */
  lemma QueueGoesOn(start: State, events: seq<Event>, job: Job, file: File)
    requires Possible(start, events)
    ensures var s := Run(start, events);
      && (Enabled(s, Enqueue(job)) ==> Step(s, Enqueue(job)) == s.(queue := s.queue + [job]))
      && (Enabled(s, ReserveFailed) ==> var t := Step(s, ReserveFailed);
            t == s.(stage := Idle) && (Enabled(t, Begin) <==> s.queue != []))
      && (Enabled(s, EndImport) ==> var t := Step(s, EndImport);
            t == s.(stage := Idle) && (Enabled(t, Begin) <==> s.queue != []))
      && file !in Step(s, Unlink(file)).files && Step(s, Unlink(file)).files + {file} == s.files + {file}
  {
    hide Run;
  }
}
