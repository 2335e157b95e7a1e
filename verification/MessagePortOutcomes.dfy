/** What the calls of a MessagePort socket achieve: frames are posted and delivered, and it opens and closes. */
module MessagePortOutcomes {
  import opened Prelude
  import opened MessagePortModel
  import opened MessagePortTheorems

  // ---------- Opening

  predicate Opens(event: Event) {
    event.CallOpen? || (event.Deliver? && event.wire.WireOpen?)
  }

  /** A connecting socket opens, by either side, and says so once; any other stays as it is. */
  lemma ConnectingOpens(events: seq<Event>, event: Event)
    requires Possible(INITIAL, events) && Enabled(Run(INITIAL, events), event) && Opens(event)
    ensures var s := Run(INITIAL, events); var t := Step(s, event);
      if s.readyState == Connecting
      then t.readyState == Open && t.emitted == s.emitted + [Opened] && t.queued == s.queued && t.posted == s.posted
      else t == s
  {
    hide Run;
  }

  // ---------- Sending

  /** An open socket posts what it is given, and no other socket posts anything. */
  lemma OpenSocketPosts(events: seq<Event>, data: nat)
    requires Possible(INITIAL, events)
    ensures var s := Run(INITIAL, events); var t := Step(s, CallSend(data));
      t == s.(posted := s.posted + (if s.readyState == Open then [Data(data)] else []))
  {
    hide Run;
  }

  // ---------- Receiving

  /** A frame is delivered at once by an open socket whose queue is flushed, and waits before that. */
  lemma FrameIsDeliveredOrWaits(events: seq<Event>, data: nat)
    requires Possible(INITIAL, events) && Enabled(Run(INITIAL, events), Deliver(WireData(data)))
    ensures var s := Run(INITIAL, events); var t := Step(s, Deliver(WireData(data)));
      match s.readyState
      case Closed => t.emitted == s.emitted && t.received == s.received
      case Connecting => t.emitted == s.emitted && t.received == s.received + [data] && t.queued == s.queued + [data]
      case Open =>
        && t.received == s.received + [data]
        && (if s.flushPending then t.emitted == s.emitted && t.queued == s.queued + [data]
            else t.emitted == s.emitted + [Message(data)] && t.queued == s.queued)
  {
    hide Run;
  }

  function Messages(frames: seq<nat>): seq<Emitted> {
    if frames == [] then [] else [Message(frames[0])] + Messages(frames[1..])
  }

  function Returns(count: nat): seq<Event> {
    if count == 0 then [] else [HandlersReturn] + Returns(count - 1)
  }

  lemma {:induction false} LoopDelivers(s: State, frames: seq<nat>)
    requires s.readyState == Open
    ensures var t := FlushFrom(s, frames); var rest := Returns(|frames|);
      Possible(t, rest) && Run(t, rest) == s.(flushPending := false, emitted := s.emitted + Messages(frames))
    decreases |frames|
  {
    if frames == [] {
      assert s.emitted + [] == s.emitted;
    } else {
      var told := s.(emitted := s.emitted + [Message(frames[0])]);
      var t := FlushFrom(s, frames);
      LoopDelivers(told, frames[1..]);
      assert t.stack[..|t.stack| - 1] == s.stack;
      assert Step(t, HandlersReturn) == FlushFrom(told, frames[1..]);
      assert Returns(|frames|)[1..] == Returns(|frames[1..]|);
      assert told.emitted + Messages(frames[1..]) == s.emitted + Messages(frames);
    }
  }

  /**
   * The flush delivers every frame that waited, in order: when it runs and the handlers of each message
   * return, the queue is empty and everything received was delivered.
   */
  lemma FlushDeliversAll(events: seq<Event>)
    requires Possible(INITIAL, events) && Enabled(Run(INITIAL, events), Flush)
    requires Run(INITIAL, events).readyState == Open
    ensures var s := Run(INITIAL, events); var whole := events + ([Flush] + Returns(|s.queued|));
      && Possible(INITIAL, whole)
      && var t := Run(INITIAL, whole);
      && t.emitted == s.emitted + Messages(s.queued) && t.queued == [] && t.readyState == Open
      && Delivered(t.emitted) == t.received == s.received
  {
    var s := Run(INITIAL, events);
    var taken := s.(queued := [], flushScheduled := false);
    var rest := Returns(|s.queued|);
    LoopDelivers(taken, s.queued);
    assert ([Flush] + rest)[1..] == rest;
    assert Possible(s, [Flush] + rest) && Run(s, [Flush] + rest) == Run(Step(s, Flush), rest);
    RunsOn(INITIAL, events, [Flush] + rest);
    hide Run, Possible, Delivered;
    NothingStaysQueued(events + ([Flush] + rest));
  }

  lemma {:induction false} RunsOn(s: State, first: seq<Event>, second: seq<Event>)
    requires Possible(s, first) && Possible(Run(s, first), second)
    ensures Possible(s, first + second) && Run(s, first + second) == Run(Run(s, first), second)
    decreases |first|
  {
    hide Step, Enabled;
    if first == [] {
      assert first + second == second;
    } else {
      assert (first + second)[1..] == first[1..] + second;
      RunsOn(Step(s, first[0]), first[1..], second);
    }
  }

  // ---------- Closing

  /** Closing a socket, opened or not, posts one close frame and ends it cleanly; a closed one stays as it is. */
  lemma CloseIsPosted(events: seq<Event>, code: int, reason: string)
    requires Possible(INITIAL, events)
    ensures var s := Run(INITIAL, events); var t := Step(s, CallClose(code, reason));
      if s.readyState == Closed then t == s
      else && t.readyState == Closed && t.queued == []
           && t.posted == s.posted + [CloseFrame(code, reason)]
           && t.emitted == s.emitted + [Ended(code, reason, true)]
  {
    hide Run;
  }

  /** What the other side, or the port, closes is ended in its words, and nothing is posted. */
  lemma ClosedByTheOtherSide(events: seq<Event>, event: Event)
    requires Possible(INITIAL, events) && Enabled(Run(INITIAL, events), event)
    requires event.Disconnect? || (event.Deliver? && event.wire.WireClose?)
    ensures var s := Run(INITIAL, events); var t := Step(s, event);
      var ended := if event.Disconnect? then Ended(event.code, event.reason, false)
                   else Ended(event.wire.code, event.wire.reason, CleanWireClose(event.wire.code, event.wire.reason));
      if s.readyState == Closed then t == s
      else t.readyState == Closed && t.queued == [] && t.posted == s.posted && t.emitted == s.emitted + [ended]
  {
    hide Run, CleanWireClose;
  }

  /** What cannot be parsed closes the socket with 1002, which the other side is sent. */
  lemma UnparseableCloses(events: seq<Event>)
    requires Possible(INITIAL, events) && Enabled(Run(INITIAL, events), Deliver(Unparseable))
    ensures var s := Run(INITIAL, events); var t := Step(s, Deliver(Unparseable));
      t == Step(s, CallClose(1002, "Invalid MessagePort WebSocket message"))
  {
    hide Run;
  }

  /** A failed connection says so, and when those handlers return it has ended uncleanly, if it had not closed. */
  lemma FailureEnds(events: seq<Event>, code: int, reason: string)
    requires Possible(INITIAL, events)
    ensures var s := Run(INITIAL, events); var failed := Step(s, Fail(code, reason));
      && Enabled(failed, HandlersReturn)
      && var t := Step(failed, HandlersReturn);
      && t.readyState == Closed && t.posted == s.posted && t.stack == s.stack
      && t.emitted == s.emitted + [Errored] + (if s.readyState == Closed then [] else [Ended(code, reason, false)])
  {
    hide Run;
    var s := Run(INITIAL, events);
    assert (s.stack + [AfterError(code, reason)])[..|s.stack|] == s.stack;
  }
}
