/**
 * `MessagePortWebSocket` of `src/browser/message-port-websocket.ts`. Event handlers may call the
 * socket, so an emit that has code after it is a step boundary: `stack` holds what runs once its
 * handlers return. The port delivers between tasks, never inside a handler.
 */
module MessagePortModel {
  import opened Prelude

  datatype ReadyState = Connecting | Open | Closed

  datatype Wire =
    | WireOpen
    | WireData(data: nat)
    | WireClose(code: int, reason: string)
    | Unparseable

  datatype Posted = Data(data: nat) | CloseFrame(code: int, reason: string)

  datatype Emitted =
    | Opened
    | Message(data: nat)
    | Errored
    | Ended(code: int, reason: string, wasClean: bool)

  /** What is left to do when the handlers of an emit return. */
  datatype Rest = AfterOpen | AfterFrame(frames: seq<nat>) | AfterError(code: int, reason: string)

  datatype State = State(
    readyState: ReadyState,
    queued: seq<nat>,
    flushPending: bool,
    flushScheduled: bool,     // the microtask of `open()` has not run yet
    stack: seq<Rest>,         // innermost last
    received: seq<nat>,       // data frames that arrived before the socket closed
    emitted: seq<Emitted>,
    posted: seq<Posted>)

  const INITIAL := State(Connecting, [], false, false, [], [], [], [])

  datatype Event =
    | CallOpen
    | CallSend(data: nat)
    | CallClose(code: int, reason: string)
    | Disconnect(code: int, reason: string)
    | Fail(code: int, reason: string)
    | Deliver(wire: Wire)
    | Flush
    | HandlersReturn

  function Emit(s: State, event: Emitted): State {
    s.(emitted := s.emitted + [event])
  }

  function MarkOpen(s: State): State {
    if s.readyState != Connecting then s
    else Emit(s.(readyState := Open, stack := s.stack + [AfterOpen]), Opened)
  }

  function FinishClose(s: State, code: int, reason: string, wasClean: bool): State {
    if s.readyState == Closed then s
    else Emit(s.(readyState := Closed, queued := [], flushPending := false), Ended(code, reason, wasClean))
  }

  /** `close()`: `CLOSING` lasts only until the frame is posted. */
  function Close(s: State, code: int, reason: string): State {
    if s.readyState == Closed then s
    else FinishClose(s.(posted := s.posted + [CloseFrame(code, reason)]), code, reason, true)
  }

  predicate CleanWireClose(code: int, reason: string) {
    1000 <= code < 5000 && code !in {1004, 1005, 1006, 1015} && Utf8Length(reason) <= 123
  }

  function HandleWire(s: State, wire: Wire): State {
    match wire
    case Unparseable => Close(s, 1002, "Invalid MessagePort WebSocket message")
    case WireOpen => MarkOpen(s)
    case WireClose(code, reason) => FinishClose(s, code, reason, CleanWireClose(code, reason))
    case WireData(data) =>
      var arrived := if s.readyState == Closed then s else s.(received := s.received + [data]);
      if s.readyState == Connecting || s.flushPending then arrived.(queued := s.queued + [data])
      else if s.readyState != Open then arrived
      else Emit(arrived, Message(data))
  }

  /** The flush loop from one of its heads on: the next frame is emitted, or the loop ends. */
  function FlushFrom(s: State, frames: seq<nat>): State {
    if frames == [] || s.readyState != Open then s.(flushPending := false)
    else Emit(s.(stack := s.stack + [AfterFrame(frames[1..])]), Message(frames[0]))
  }

  predicate Enabled(s: State, event: Event) {
    match event
    case Deliver(_) => s.stack == []
    case Flush => s.stack == [] && s.flushScheduled
    case HandlersReturn => s.stack != []
    case _ => true
  }

  function Step(s: State, event: Event): State
    requires Enabled(s, event)
  {
    match event
    case CallOpen => MarkOpen(s)
    case CallSend(data) => if s.readyState == Open then s.(posted := s.posted + [Data(data)]) else s
    case CallClose(code, reason) => Close(s, code, reason)
    case Disconnect(code, reason) => FinishClose(s, code, reason, false)
    case Fail(code, reason) => Emit(s.(stack := s.stack + [AfterError(code, reason)]), Errored)
    case Deliver(wire) => HandleWire(s, wire)
    case Flush => FlushFrom(s.(queued := [], flushScheduled := false), s.queued)
    case HandlersReturn =>
      var popped := s.(stack := s.stack[..|s.stack| - 1]);
      match s.stack[|s.stack| - 1]
      case AfterOpen => popped.(flushPending := true, flushScheduled := true)
      case AfterFrame(frames) => FlushFrom(popped, frames)
      case AfterError(code, reason) => FinishClose(popped, code, reason, false)
  }

  predicate Possible(s: State, events: seq<Event>)
    decreases |events|
  {
    events == [] || (Enabled(s, events[0]) && Possible(Step(s, events[0]), events[1..]))
  }

  function Run(s: State, events: seq<Event>): State
    requires Possible(s, events)
    decreases |events|
  {
    if events == [] then s else Run(Step(s, events[0]), events[1..])
  }
}

module MessagePortTheorems {
  import opened MessagePortModel

  /** The data of the message events, in order. */
  function Delivered(emitted: seq<Emitted>): seq<nat> {
    if emitted == [] then []
    else
      var last := emitted[|emitted| - 1];
      Delivered(emitted[..|emitted| - 1]) + (if last.Message? then [last.data] else [])
  }

  /** Frames the flush loop has taken and not emitted yet; a loop whose socket closed has none. */
  function InFlush(stack: seq<Rest>): seq<nat> {
    if stack == [] then []
    else
      var last := stack[|stack| - 1];
      InFlush(stack[..|stack| - 1]) + (if last.AfterFrame? then last.frames else [])
  }

  function Openings(emitted: seq<Emitted>): nat {
    if emitted == [] then 0
    else Openings(emitted[..|emitted| - 1]) + (if emitted[|emitted| - 1].Opened? then 1 else 0)
  }

  function Endings(emitted: seq<Emitted>): nat {
    if emitted == [] then 0
    else Endings(emitted[..|emitted| - 1]) + (if emitted[|emitted| - 1].Ended? then 1 else 0)
  }

  /** No message before open, and nothing but an error after the close event. */
  predicate InSession(emitted: seq<Emitted>) {
    emitted == [] ||
      (var before, last := emitted[..|emitted| - 1], emitted[|emitted| - 1];
       && InSession(before)
       && (last.Message? ==> Openings(before) == 1 && Endings(before) == 0)
       && (last.Opened? ==> Openings(before) == 0 && Endings(before) == 0)
       && (last.Ended? ==> Endings(before) == 0))
  }

  /** Emits of open, and of frames by the flush loop, whose handlers still run. */
  function InOpen(stack: seq<Rest>): nat {
    if stack == [] then 0
    else InOpen(stack[..|stack| - 1]) + (if stack[|stack| - 1].AfterOpen? then 1 else 0)
  }

  function InLoop(stack: seq<Rest>): nat {
    if stack == [] then 0
    else InLoop(stack[..|stack| - 1]) + (if stack[|stack| - 1].AfterFrame? then 1 else 0)
  }

  /** The open event's emit, the flush it schedules and the flush loop follow one another, once. */
  predicate OneFlush(s: State) {
    && InOpen(s.stack) + InLoop(s.stack) + (if s.flushScheduled then 1 else 0) <= 1
    && (s.readyState == Connecting ==>
          InOpen(s.stack) + InLoop(s.stack) == 0 && !s.flushScheduled && !s.flushPending)
  }

  /** Frames wait only where something will flush them. */
  predicate WillFlush(s: State) {
    s.readyState == Open ==>
      && (s.flushScheduled ==> s.flushPending)
      && (s.queued != [] ==> s.flushScheduled || InOpen(s.stack) > 0)
      && (s.flushPending ==> s.flushScheduled || InLoop(s.stack) > 0)
  }

  predicate Session(s: State) {
    && InSession(s.emitted)
    && Openings(s.emitted) <= 1
    && (s.readyState == Connecting ==> Openings(s.emitted) == 0)
    && (s.readyState == Open ==> Openings(s.emitted) == 1)
    && Endings(s.emitted) == (if s.readyState == Closed then 1 else 0)
  }

  predicate InOrder(s: State) {
    && Delivered(s.emitted) <= s.received
    && (s.readyState != Closed ==> Delivered(s.emitted) + InFlush(s.stack) + s.queued == s.received)
  }

  ghost predicate Inv(s: State) {
    OneFlush(s) && WillFlush(s) && Session(s) && InOrder(s)
  }

  lemma Emitting(emitted: seq<Emitted>, last: Emitted)
    ensures var all := emitted + [last];
      && Delivered(all) == Delivered(emitted) + (if last.Message? then [last.data] else [])
      && Openings(all) == Openings(emitted) + (if last.Opened? then 1 else 0)
      && Endings(all) == Endings(emitted) + (if last.Ended? then 1 else 0)
      && (InSession(all) <==>
            && InSession(emitted)
            && (last.Message? ==> Openings(emitted) == 1 && Endings(emitted) == 0)
            && (last.Opened? ==> Openings(emitted) == 0 && Endings(emitted) == 0)
            && (last.Ended? ==> Endings(emitted) == 0))
  {
    assert (emitted + [last])[..|emitted|] == emitted;
  }

  lemma Pushing(stack: seq<Rest>, last: Rest)
    ensures InFlush(stack + [last]) == InFlush(stack) + (if last.AfterFrame? then last.frames else [])
    ensures InOpen(stack + [last]) == InOpen(stack) + (if last.AfterOpen? then 1 else 0)
    ensures InLoop(stack + [last]) == InLoop(stack) + (if last.AfterFrame? then 1 else 0)
  {
    assert (stack + [last])[..|stack|] == stack;
  }

  lemma Popping(stack: seq<Rest>)
    requires stack != []
    ensures var rest, last := stack[..|stack| - 1], stack[|stack| - 1];
      && InFlush(stack) == InFlush(rest) + (if last.AfterFrame? then last.frames else [])
      && InOpen(stack) == InOpen(rest) + (if last.AfterOpen? then 1 else 0)
      && InLoop(stack) == InLoop(rest) + (if last.AfterFrame? then 1 else 0)
  {
  }

  lemma {:induction false} NothingInLoop(stack: seq<Rest>)
    requires InLoop(stack) == 0
    ensures InFlush(stack) == []
  {
    if stack == [] {
    } else {
      NothingInLoop(stack[..|stack| - 1]);
    }
  }

  // ---------- Each step keeps it

  lemma OpenKeepsInv(s: State)
    requires Inv(s)
    ensures Inv(MarkOpen(s))
  {
    if s.readyState == Connecting {
      NothingInLoop(s.stack);
      Emitting(s.emitted, Opened);
      Pushing(s.stack, AfterOpen);
    }
  }

  lemma FinishKeepsInv(s: State, code: int, reason: string, wasClean: bool)
    requires Inv(s)
    ensures Inv(FinishClose(s, code, reason, wasClean))
  {
    Emitting(s.emitted, Ended(code, reason, wasClean));
  }

  lemma CloseKeepsInv(s: State, code: int, reason: string)
    requires Inv(s)
    ensures Inv(Close(s, code, reason))
  {
    FinishKeepsInv(s.(posted := s.posted + [CloseFrame(code, reason)]), code, reason, true);
  }

  lemma DataKeepsInv(s: State, data: nat)
    requires Inv(s) && s.stack == []
    ensures Inv(HandleWire(s, WireData(data)))
  {
    Emitting(s.emitted, Message(data));
  }

  lemma FlushKeepsInv(s: State, frames: seq<nat>)
    requires OneFlush(s) && Session(s) && s.readyState != Connecting
    requires InOpen(s.stack) == InLoop(s.stack) == 0 && !s.flushScheduled
    requires s.readyState == Open ==> s.queued == []
    requires Delivered(s.emitted) <= s.received
    requires s.readyState == Open ==> Delivered(s.emitted) + frames == s.received
    ensures Inv(FlushFrom(s, frames))
  {
    hide InFlush;
    hide InOpen;
    hide InLoop;
    hide Delivered;
    hide Openings;
    hide Endings;
    hide InSession;
    NothingInLoop(s.stack);
    if frames == [] || s.readyState != Open {
      assert Delivered(s.emitted) + [] == Delivered(s.emitted);
    } else {
      Emitting(s.emitted, Message(frames[0]));
      Pushing(s.stack, AfterFrame(frames[1..]));
      NextFrame(Delivered(s.emitted), frames);
    }
  }

  lemma NextFrame(delivered: seq<nat>, frames: seq<nat>)
    requires frames != []
    ensures delivered + [frames[0]] + ([] + frames[1..]) + [] == delivered + frames
    ensures delivered + [frames[0]] <= delivered + frames
  {
    assert frames == [frames[0]] + frames[1..];
  }

  lemma ReturnKeepsInv(s: State)
    requires Inv(s) && s.stack != []
    ensures Inv(Step(s, HandlersReturn))
  {
    var rest, last := s.stack[..|s.stack| - 1], s.stack[|s.stack| - 1];
    var popped := s.(stack := rest);
    Popping(s.stack);
    hide InFlush;
    hide InOpen;
    hide InLoop;
    hide Delivered;
    hide Openings;
    hide Endings;
    hide InSession;
    hide FlushFrom;
    assert InFlush(rest) + [] == InFlush(rest);
    if last.AfterFrame? {
      FrameReturnKeepsInv(s);
    } else if last.AfterError? {
      assert Inv(popped);
      FinishKeepsInv(popped, last.code, last.reason, false);
    }
  }

  lemma FrameReturnKeepsInv(s: State)
    requires Inv(s) && s.stack != [] && s.stack[|s.stack| - 1].AfterFrame?
    ensures Inv(Step(s, HandlersReturn))
  {
    var popped, frames := s.(stack := s.stack[..|s.stack| - 1]), s.stack[|s.stack| - 1].frames;
    FramePopped(s);
    assert Step(s, HandlersReturn) == FlushFrom(popped, frames);
    hide Inv, FlushFrom;
    FlushKeepsInv(popped, frames);
  }

  /** When the handlers of a frame return, its loop has the state `FlushKeepsInv` goes on from. */
  lemma FramePopped(s: State)
    requires Inv(s) && s.stack != [] && s.stack[|s.stack| - 1].AfterFrame?
    ensures var popped, frames := s.(stack := s.stack[..|s.stack| - 1]), s.stack[|s.stack| - 1].frames;
      && OneFlush(popped) && Session(popped) && popped.readyState != Connecting
      && InOpen(popped.stack) == InLoop(popped.stack) == 0 && !popped.flushScheduled
      && (popped.readyState == Open ==> popped.queued == [])
      && Delivered(popped.emitted) <= popped.received
      && (popped.readyState == Open ==> Delivered(popped.emitted) + frames == popped.received)
  {
    var rest, frames := s.stack[..|s.stack| - 1], s.stack[|s.stack| - 1].frames;
    Popping(s.stack);
    NothingInLoop(rest);
    hide InFlush;
    hide InOpen;
    hide InLoop;
    hide Delivered;
    hide Openings;
    hide Endings;
    hide InSession;
    assert [] + frames == frames;
    assert Delivered(s.emitted) + frames + [] == Delivered(s.emitted) + frames;
  }

  lemma FailKeepsInv(s: State, code: int, reason: string)
    requires Inv(s)
    ensures Inv(Step(s, Fail(code, reason)))
  {
    hide InFlush;
    hide InOpen;
    hide InLoop;
    hide Delivered;
    hide Openings;
    hide Endings;
    hide InSession;
    Emitting(s.emitted, Errored);
    Pushing(s.stack, AfterError(code, reason));
    assert Delivered(s.emitted) + [] == Delivered(s.emitted);
    assert InFlush(s.stack) + [] == InFlush(s.stack);
  }

  lemma DeliverKeepsInv(s: State, wire: Wire)
    requires Inv(s) && s.stack == []
    ensures Inv(HandleWire(s, wire))
  {
    match wire
    case Unparseable => CloseKeepsInv(s, 1002, "Invalid MessagePort WebSocket message");
    case WireOpen => OpenKeepsInv(s);
    case WireClose(code, reason) => FinishKeepsInv(s, code, reason, CleanWireClose(code, reason));
    case WireData(data) => DataKeepsInv(s, data);
  }

  lemma FlushStartKeepsInv(s: State)
    requires Inv(s) && Enabled(s, Flush)
    ensures Inv(Step(s, Flush))
  {
    FlushKeepsInv(s.(queued := [], flushScheduled := false), s.queued);
  }

  lemma SendKeepsInv(s: State, data: nat)
    requires Inv(s)
    ensures Inv(Step(s, CallSend(data)))
  {
  }

  lemma StepKeepsInv(s: State, event: Event)
    requires Inv(s) && Enabled(s, event)
    ensures Inv(Step(s, event))
  {
    hide Inv;
    hide MarkOpen;
    hide Close;
    hide FinishClose;
    hide HandleWire;
    hide FlushFrom;
    match event
    case CallOpen => OpenKeepsInv(s);
    case CallSend(data) => SendKeepsInv(s, data);
    case CallClose(code, reason) => CloseKeepsInv(s, code, reason);
    case Disconnect(code, reason) => FinishKeepsInv(s, code, reason, false);
    case Fail(code, reason) => FailKeepsInv(s, code, reason);
    case Deliver(wire) => DeliverKeepsInv(s, wire);
    case Flush => FlushStartKeepsInv(s);
    case HandlersReturn => ReturnKeepsInv(s);
  }

  lemma {:induction false} RunKeepsInv(s: State, events: seq<Event>)
    requires Inv(s) && Possible(s, events)
    ensures Inv(Run(s, events))
    decreases |events|
  {
    if events == [] {
    } else {
      StepKeepsInv(s, events[0]);
      RunKeepsInv(Step(s, events[0]), events[1..]);
    }
  }

  // ---------- Theorems

  /** The message events are the received frames, in order: while the socket is not closed, all but those waiting. */
  lemma DeliveredInOrder(events: seq<Event>)
    requires Possible(INITIAL, events)
    ensures var s := Run(INITIAL, events);
      && Delivered(s.emitted) <= s.received
      && (s.readyState != Closed ==> Delivered(s.emitted) + InFlush(s.stack) + s.queued == s.received)
  {
    RunKeepsInv(INITIAL, events);
  }

  /** No frame stays behind: an open socket at rest, its flush done, has delivered everything. */
  lemma NothingStaysQueued(events: seq<Event>)
    requires Possible(INITIAL, events)
    requires var s := Run(INITIAL, events); s.readyState == Open && s.stack == [] && !s.flushScheduled
    ensures var s := Run(INITIAL, events); Delivered(s.emitted) == s.received && s.queued == [] && !s.flushPending
  {
    RunKeepsInv(INITIAL, events);
  }

  /** No message before open or after close; one close event exactly when the socket has closed. */
  lemma OneCloseEvent(events: seq<Event>)
    requires Possible(INITIAL, events)
    ensures var s := Run(INITIAL, events);
      && InSession(s.emitted) && Openings(s.emitted) <= 1
      && Endings(s.emitted) == (if s.readyState == Closed then 1 else 0)
  {
    RunKeepsInv(INITIAL, events);
  }

  /** The wire carries data until a close frame of its own, which ends it. */
  ghost predicate WireEndsWithClose(s: State) {
    && (forall i :: 0 <= i < |s.posted| - 1 ==> s.posted[i].Data?)
    && (s.posted != [] && s.posted[|s.posted| - 1].CloseFrame? ==> s.readyState == Closed)
  }

  lemma StepKeepsWire(s: State, event: Event)
    requires WireEndsWithClose(s) && Enabled(s, event)
    ensures WireEndsWithClose(Step(s, event))
  {
    assert s.readyState == Closed ==> Step(s, event).posted == s.posted && Step(s, event).readyState == Closed;
  }

  lemma {:induction false} NothingPostedAfterClose(s: State, events: seq<Event>)
    requires WireEndsWithClose(s) && Possible(s, events)
    ensures WireEndsWithClose(Run(s, events))
    decreases |events|
  {
    if events == [] {
    } else {
      StepKeepsWire(s, events[0]);
      NothingPostedAfterClose(Step(s, events[0]), events[1..]);
    }
  }

  predicate Closing(s: State, event: Event) {
    || event.CallClose? || event.Disconnect?
    || (event.Deliver? && (event.wire.WireClose? || event.wire.Unparseable?))
    || (event.HandlersReturn? && s.stack != [] && s.stack[|s.stack| - 1].AfterError?)
  }

  /** Every closing path ends in a closed socket and one close event, also one taken twice. */
  lemma EveryClosingPathCloses(events: seq<Event>, event: Event)
    requires Possible(INITIAL, events) && Enabled(Run(INITIAL, events), event)
    requires Closing(Run(INITIAL, events), event)
    ensures var t := Step(Run(INITIAL, events), event); t.readyState == Closed && Endings(t.emitted) == 1
  {
    RunKeepsInv(INITIAL, events);
    StepKeepsInv(Run(INITIAL, events), event);
  }

  /** A frame delivered while the open handlers still run would overtake the ones that wait for them. */
  lemma ReentrantDeliveryOvertakes(first: nat, second: nat)
    ensures var events := [Deliver(WireData(first)), CallOpen];
      && Possible(INITIAL, events)
      && var s := HandleWire(Run(INITIAL, events), WireData(second));
      && s.readyState == Open && s.received == [first, second]
      && Delivered(s.emitted) == [second] && s.queued == [first]
  {
    var events := [Deliver(WireData(first)), CallOpen];
    var s1 := Step(INITIAL, events[0]);
    assert events[1..] == [CallOpen];
    assert Possible(s1, [CallOpen]) by {
      assert [CallOpen][1..] == [];
    }
    var s2 := Step(s1, CallOpen);
    assert Run(s1, [CallOpen]) == s2 by {
      assert [CallOpen][1..] == [];
    }
    assert s2.emitted == [Opened] && s2.received == [first];
    Emitting([], Opened);
    Emitting([Opened], Message(second));
  }
}

module MessagePortSocket {
  import opened MessagePortModel

  class MessagePortWebSocket {
    var readyState: ReadyState
    var queuedWireMessages: seq<nat>
    var queuedWireFlushPending: bool
    ghost var flushScheduled: bool
    ghost var stack: seq<Rest>
    ghost var received: seq<nat>
    ghost var emitted: seq<Emitted>
    ghost var posted: seq<Posted>

    ghost function Model(): State
      reads this
    {
      State(readyState, queuedWireMessages, queuedWireFlushPending, flushScheduled, stack, received, emitted, posted)
    }

    constructor ()
      ensures Model() == INITIAL
    {
      readyState, queuedWireMessages, queuedWireFlushPending := Connecting, [], false;
      flushScheduled, stack, received, emitted, posted := false, [], [], [], [];
    }

    method Send(data: nat) returns (threw: bool)
      modifies this`posted
      ensures Model() == Step(old(Model()), CallSend(data))
      ensures threw <==> readyState != Open
    {
      if readyState != Open {
        return true;
      }
      posted := posted + [Data(data)];
      threw := false;
    }

    /** `open()` up to the emit; its handlers run next. */
    method Open_() returns (opening: bool)
      modifies this
      ensures Model() == Step(old(Model()), CallOpen)
      ensures opening <==> old(readyState) == Connecting
    {
      if readyState != Connecting {
        return false;
      }
      readyState := Open;
      stack := stack + [AfterOpen];
      emitted := emitted + [Opened];
      opening := true;
    }

    /** The rest of `open()`. */
    method OpenReturned()
      requires stack != [] && stack[|stack| - 1] == AfterOpen
      modifies this
      ensures Model() == Step(old(Model()), HandlersReturn)
    {
      stack := stack[..|stack| - 1];
      queuedWireFlushPending := true;
      flushScheduled := true;
    }

    method FinishClose(code: int, reason: string, wasClean: bool)
      modifies this
      ensures Model() == MessagePortModel.FinishClose(old(Model()), code, reason, wasClean)
    {
      if readyState == Closed {
        return;
      }
      readyState := Closed;
      queuedWireMessages := [];
      queuedWireFlushPending := false;
      emitted := emitted + [Ended(code, reason, wasClean)];
    }

    method CloseSocket(code: int, reason: string)
      modifies this
      ensures Model() == Step(old(Model()), CallClose(code, reason))
    {
      if readyState == Closed {
        return;
      }
      posted := posted + [CloseFrame(code, reason)];
      FinishClose(code, reason, true);
    }

    method HandleWireMessage(wire: Wire)
      requires Enabled(Model(), Deliver(wire))
      modifies this
      ensures Model() == Step(old(Model()), Deliver(wire))
    {
      match wire
      case Unparseable => CloseSocket(1002, "Invalid MessagePort WebSocket message");
      case WireOpen => var _ := Open_();
      case WireClose(code, reason) => FinishClose(code, reason, CleanWireClose(code, reason));
      case WireData(data) =>
        if readyState != Closed {
          received := received + [data];
        }
        if readyState == Connecting || queuedWireFlushPending {
          queuedWireMessages := queuedWireMessages + [data];
          return;
        }
        if readyState == Open {
          emitted := emitted + [Message(data)];
        }
    }

    /** The microtask of `open()`: takes the queue and emits its first frame, if there is one. */
    method FlushQueue()
      requires Enabled(Model(), Flush)
      modifies this
      ensures Model() == Step(old(Model()), Flush)
    {
      var frames := queuedWireMessages;
      queuedWireMessages := [];
      flushScheduled := false;
      FlushNext(frames);
    }

    method FlushNext(frames: seq<nat>)
      modifies this
      ensures Model() == FlushFrom(old(Model()), frames)
    {
      if frames == [] || readyState != Open {
        queuedWireFlushPending := false;
        return;
      }
      stack := stack + [AfterFrame(frames[1..])];
      emitted := emitted + [Message(frames[0])];
    }

    /** The handlers of a flushed frame returned: on to the next. */
    method FrameReturned(frames: seq<nat>)
      requires stack != [] && stack[|stack| - 1] == AfterFrame(frames)
      modifies this
      ensures Model() == Step(old(Model()), HandlersReturn)
    {
      stack := stack[..|stack| - 1];
      FlushNext(frames);
    }

    method FailConnection(code: int, reason: string)
      modifies this
      ensures Model() == Step(old(Model()), Fail(code, reason))
    {
      stack := stack + [AfterError(code, reason)];
      emitted := emitted + [Errored];
    }

    method ErrorReturned(code: int, reason: string)
      requires stack != [] && stack[|stack| - 1] == AfterError(code, reason)
      modifies this
      ensures Model() == Step(old(Model()), HandlersReturn)
    {
      stack := stack[..|stack| - 1];
      FinishClose(code, reason, false);
    }
  }
}
