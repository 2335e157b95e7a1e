/** What the ends of a pair achieve: writes reach the other end, closes are answered, sockets released. */
module SocketPairOutcomes {
  import opened SocketPairModel
  import opened SocketPairTheorems

  /** The end's next write. */
  function Head(s: State, end: Side): Write
    requires s.At(end).socket.pump != []
  {
    s.At(end).socket.pump[0]
  }

  function Written(head: Write): Heard {
    match head
    case WriteMessage(data) => Message(data)
    case WriteClose(code, reason) => CloseHeard(Close(code, reason, true))
  }

  function Taken(s: State, end: Side): State
    requires s.At(end).socket.pump != []
  {
    WithSocket(s, end, s.At(end).socket.(pump := s.At(end).socket.pump[1..]))
  }

  // ---------- Writes reach the other end

  lemma MessageIsHeard(s: State, end: Side, data: nat)
    ensures var r := EndpointSend(s, end, data);
      && r.At(end) == s.At(end) && r.At(end.Other()).sentClose == s.At(end.Other()).sentClose
      && r.At(end.Other()).heard == s.At(end.Other()).heard + (if s.At(end).sentClose then [] else [Message(data)])
  {
  }

  lemma CloseIsHeard(s: State, end: Side, code: int, reason: string)
    requires PairOk(s, {})
    ensures var r := EndpointClose(s, end, code, reason);
      && r.At(end).sentClose
      && (s.At(end).sentClose ==> r == s)
      && (!s.At(end).sentClose ==>
          r.At(end.Other()).heard == s.At(end.Other()).heard + [CloseHeard(Close(code, reason, true))])
  {
    hide EndOk;
    if !s.At(end).sentClose {
      var other := end.Other();
      SentOk(s, end, {});
      ReceiveCloseOk(Sent(s, end), other, Close(code, reason, true), {} + {other});
    }
    hide ReceiveClose;
  }

  lemma CompletionLeavesEnds(s: State, end: Side)
    ensures var r := OwnCloseWritten(s, end);
      && r.left == s.left.(socket := s.left.socket.(meta := r.left.socket.meta))
      && r.right == s.right.(socket := s.right.socket.(meta := r.right.socket.meta))
  {
  }

  /**
   * A pumped write reaches the other end, whatever its mode, until the end has sent its close; after
   * that nothing more is heard. A close is the last write to be heard.
   */
  lemma PumpedWriteIsHeard(events: seq<Event>, end: Side)
    requires Possible(INITIAL, events) && Enabled(Run(INITIAL, events), Pump(end))
    ensures var s := Run(INITIAL, events); var r := Step(s, Pump(end)); var head := Head(s, end);
      && r.At(end).sentClose == (s.At(end).sentClose || head.WriteClose?)
      && r.At(end.Other()).heard
         == s.At(end.Other()).heard + (if s.At(end).sentClose then [] else [Written(head)])
      && (s.At(end).sentClose ==> r.At(end).heard == s.At(end).heard)
  {
    RunOk(INITIAL, events);
    WriteIsHeard(Run(INITIAL, events), end);
  }

  lemma WriteIsHeard(s: State, end: Side)
    requires PairOk(s, {}) && Enabled(s, Pump(end))
    ensures var r := Step(s, Pump(end)); var head := Head(s, end);
      && r.At(end).sentClose == (s.At(end).sentClose || head.WriteClose?)
      && r.At(end.Other()).heard
         == s.At(end.Other()).heard + (if s.At(end).sentClose then [] else [Written(head)])
      && (s.At(end).sentClose ==> r.At(end).heard == s.At(end).heard)
  {
    TakingOk(s, end);
    hide PairOk, EndpointClose, EndpointSend, OwnCloseWritten;
    var taken := Taken(s, end);
    match Head(s, end)
    case WriteMessage(data) => MessageIsHeard(taken, end, data);
    case WriteClose(code, reason) =>
      CloseIsHeard(taken, end, code, reason);
      CompletionLeavesEnds(EndpointClose(taken, end, code, reason), end);
  }

  /** A message at an open end: kept for `accept()`, or scheduled for the registry. */
  lemma HeardMessageIsPassedOn(events: seq<Event>, end: Side, data: nat)
    requires Possible(INITIAL, events) && Enabled(Run(INITIAL, events), Pump(end))
    requires Head(Run(INITIAL, events), end) == WriteMessage(data) && !Run(INITIAL, events).At(end).sentClose
    ensures var s := Run(INITIAL, events); var other := end.Other();
      var socket, after := s.At(other).socket, Step(s, Pump(end)).At(other).socket;
      && after.mail.pending == socket.mail.pending + (if socket.mode == Pending then [Message(data)] else [])
      && after.mail.scheduled == socket.mail.scheduled + (if socket.mode == Hibernatable then [false] else [])
      && after == socket.(mail := after.mail)
  {
    hide Run;
  }

  // ---------- Sending and closing

  /** Whether `send` still takes a message. */
  predicate MaySend(socket: Socket) {
    !(socket.mode == Hibernatable && socket.hand.ownClose) && !socket.hand.peerClose && socket.hand.readyState != Closed
  }

  /** A message is the pump's next write; a host's goes out at once; an aborted actor's is discarded. */
  lemma SendTakesMessage(events: seq<Event>, end: Side, data: nat)
    requires Possible(INITIAL, events)
    ensures var s := Run(INITIAL, events); var r := Step(s, Send(end, data)); var socket := s.At(end).socket;
      && (!MaySend(socket) || socket.context == Aborted ==> r == s)
      && (MaySend(socket) && socket.context == Live ==>
          r.At(end) == s.At(end).(socket := socket.(pump := socket.pump + [WriteMessage(data)]))
          && r.At(end.Other()) == s.At(end.Other()))
      && (MaySend(socket) && socket.context == NoContext ==>
          r.At(end.Other()).heard == s.At(end.Other()).heard + (if s.At(end).sentClose then [] else [Message(data)]))
  {
    MessageIsHeard(Run(INITIAL, events), end, data);
    hide Run, EndpointSend;
  }

  /** Whether `close` with this code and reason is the socket's own. */
  predicate MayClose(socket: Socket, code: int, reason: string) {
    socket.hand.readyState != Closed && !socket.hand.ownClose && ValidClose(code, reason)
  }

  /**
   * A socket's own close moves its state and is the pump's next write; a host's is heard at once. A
   * second one, one after the socket closed, or an invalid one changes nothing.
   */
  lemma CloseIsTaken(events: seq<Event>, end: Side, code: int, reason: string)
    requires Possible(INITIAL, events)
    ensures var s := Run(INITIAL, events); var r := Step(s, CallClose(end, code, reason));
      var socket := s.At(end).socket; var own := r.At(end).socket.hand;
      && (!MayClose(socket, code, reason) ==> r == s)
      && (MayClose(socket, code, reason) ==>
          own.ownClose && own.readyState != Open && (socket.hand.peerClose ==> own.readyState == Closed))
      && (MayClose(socket, code, reason) && socket.context == Live ==>
          && own.readyState == (if socket.hand.peerClose then Closed else Closing)
          && r.At(end) == s.At(end).(socket := socket.(hand := own, pump := socket.pump + [WriteClose(code, reason)]))
          && r.At(end.Other()) == s.At(end.Other()))
      && (MayClose(socket, code, reason) && socket.context == NoContext && !s.At(end).sentClose ==>
          && r.At(end).sentClose
          && r.At(end.Other()).heard == s.At(end.Other()).heard + [CloseHeard(Close(code, reason, true))])
  {
    RunOk(INITIAL, events);
    hide Run;
    var s := Run(INITIAL, events);
    if MayClose(s.At(end).socket, code, reason) {
      var closing := WithHand(s, end, Owning(s.At(end).socket.hand));
      ClosingOk(s, end);
      CloseIsHeard(closing, end, code, reason);
      hide PairOk, ReleaseOk;
      CloseKeepsOwn(s, end, code, reason);
      hide EndpointClose, ValidClose;
    }
  }

  lemma ClosingOk(s: State, end: Side)
    requires PairOk(s, {}) && !s.At(end).socket.hand.ownClose
    ensures PairOk(WithHand(s, end, Owning(s.At(end).socket.hand)), {})
  {
    hide ClosedLast, Notices;
  }

  lemma CloseKeepsOwn(s: State, end: Side, code: int, reason: string)
    requires PairOk(s, {}) && MayClose(s.At(end).socket, code, reason)
    ensures var own := CloseSocket(s, end, code, reason).At(end).socket.hand;
      own.ownClose && own.readyState != Open && (s.At(end).socket.hand.peerClose ==> own.readyState == Closed)
  {
    CloseSocketOk(s, end, code, reason, {});
    var closing := WithHand(s, end, Owning(s.At(end).socket.hand));
    if s.At(end).socket.context == NoContext {
      ClosingOk(s, end);
      EndpointCloseOk(closing, end, code, reason, {});
    }
    hide PairOk, EndpointClose;
  }

  // ---------- Every clean close is one `close` accepts

  predicate ProperHeard(heard: Heard) {
    heard.CloseHeard? && heard.close.wasClean ==> ValidClose(heard.close.code, heard.close.reason)
  }

  predicate ProperWrite(write: Write) {
    write.WriteClose? ==> ValidClose(write.code, write.reason)
  }

  predicate ProperEnd(end: End) {
    && (forall h :: h in end.heard ==> ProperHeard(h))
    && (forall h :: h in end.socket.mail.pending ==> ProperHeard(h))
    && (forall w :: w in end.socket.pump ==> ProperWrite(w))
  }

  predicate Proper(s: State) {
    ProperEnd(s.left) && ProperEnd(s.right)
  }

  lemma HearProper(s: State, end: Side, close: Close)
    requires Proper(s) && ProperHeard(CloseHeard(close))
    ensures Proper(Hear(s, end, close))
  {
    hide ProperHeard, ProperWrite;
  }

  lemma PassOnProper(s: State, end: Side, close: Close)
    requires Proper(s) && ProperHeard(CloseHeard(close))
    ensures Proper(PassOn(s, end, close))
  {
    hide ProperHeard, ProperWrite;
  }

  lemma EnqueueProper(s: State, end: Side, write: Write)
    requires Proper(s) && ProperWrite(write)
    ensures Proper(Enqueue(s, end, write))
  {
    hide ProperHeard, ProperWrite;
  }

  lemma ReceiveCloseProper(s: State, end: Side, close: Close)
    requires Proper(s) && ProperHeard(CloseHeard(close))
    ensures Proper(ReceiveClose(s, end, close))
    decreases Unsent(s), 3
  {
    var heard := Hear(s, end, close);
    HearProper(s, end, close);
    hide Proper, ProperHeard, Hear, PassOn;
    if !s.At(end).socket.hand.ownClose && s.At(end).socket.mode == Classic {
      AnswerProper(heard, end, close);
      PassOnProper(AnswerPeerClose(heard, end, close), end, close);
    } else {
      PassOnProper(heard, end, close);
    }
  }

  lemma AnswerProper(s: State, end: Side, close: Close)
    requires Proper(s)
    ensures Proper(AnswerPeerClose(s, end, close))
    decreases Unsent(s), 2
  {
    var hand := s.At(end).socket.hand;
    HandProper(s, end, hand.(readyState := Closed));
    CloseSocketProper(s, end, close.code, close.reason);
    hide Proper, CloseSocket;
  }

  lemma HandProper(s: State, end: Side, hand: Handshake)
    requires Proper(s)
    ensures Proper(WithHand(s, end, hand))
  {
    hide ProperHeard, ProperWrite;
  }

  lemma CloseSocketProper(s: State, end: Side, code: int, reason: string)
    requires Proper(s)
    ensures Proper(CloseSocket(s, end, code, reason))
    decreases Unsent(s), 1
  {
    var closing := WithHand(s, end, Owning(s.At(end).socket.hand));
    HandProper(s, end, Owning(s.At(end).socket.hand));
    if MayClose(s.At(end).socket, code, reason) {
      EndpointCloseProper(closing, end, code, reason);
      EnqueueProper(closing, end, WriteClose(code, reason));
    }
    hide Proper, EndpointClose, Enqueue, ValidClose;
  }

  lemma EndpointCloseProper(s: State, end: Side, code: int, reason: string)
    requires Proper(s) && ValidClose(code, reason)
    ensures Proper(EndpointClose(s, end, code, reason))
    decreases Unsent(s), 0
  {
    if !s.At(end).sentClose {
      SentProper(s, end);
      ReceiveCloseProper(Sent(s, end), end.Other(), Close(code, reason, true));
    }
    hide Proper, ReceiveClose;
  }

  lemma SentProper(s: State, end: Side)
    requires Proper(s)
    ensures Proper(Sent(s, end))
  {
    hide ProperHeard, ProperWrite;
  }

  lemma EndpointAbortProper(s: State, end: Side, code: int, reason: string)
    requires Proper(s)
    ensures Proper(EndpointAbort(s, end, code, reason))
  {
    var close := Close(code, reason, false);
    var other := end.Other();
    SentProper(s, end);
    SentProper(Sent(s, end), other);
    var sent := Sent(Sent(s, end), other);
    ReceiveCloseProper(sent, other, close);
    var told := if s.At(end).sentClose then sent else ReceiveClose(sent, other, close);
    ReceiveCloseProper(told, end, close);
    hide Proper, ReceiveClose, Sent;
  }

  lemma {:induction false} ReplayProper(s: State, end: Side, waiting: seq<Heard>)
    requires Proper(s) && forall h :: h in waiting ==> ProperHeard(h)
    ensures Proper(Replay(s, end, waiting))
    decreases |waiting|
  {
    hide Proper, ProperHeard;
    if waiting != [] {
      match waiting[0]
      case Message(_) => ReplayProper(s, end, waiting[1..]);
      case CloseHeard(close) =>
        AnswerProper(s, end, close);
        PassOnProper(AnswerPeerClose(s, end, close), end, close);
        ReplayProper(PassOn(AnswerPeerClose(s, end, close), end, close), end, waiting[1..]);
    }
  }

  lemma EndpointSendProper(s: State, end: Side, data: nat)
    requires Proper(s)
    ensures Proper(EndpointSend(s, end, data))
  {
    hide ProperWrite;
  }

  predicate NoMore(a: End, b: End) {
    && b.heard == a.heard
    && (forall h :: h in b.socket.mail.pending ==> h in a.socket.mail.pending)
    && (forall w :: w in b.socket.pump ==> w in a.socket.pump)
  }

  lemma NoMoreProper(s: State, r: State)
    requires Proper(s) && NoMore(s.left, r.left) && NoMore(s.right, r.right)
    ensures Proper(r)
  {
    hide ProperHeard, ProperWrite;
  }

  lemma AcceptProper(s: State, end: Side)
    requires Proper(s) && Enabled(s, Accept(end))
    ensures Proper(Step(s, Accept(end)))
  {
    var socket := s.At(end).socket;
    var classic := WithSocket(s, end, socket.(mode := Classic, mail := socket.mail.(pending := [])));
    NoMoreProper(s, classic);
    ReplayProper(classic, end, socket.mail.pending);
    hide Replay;
  }

  lemma PumpProper(s: State, end: Side)
    requires Proper(s) && Enabled(s, Pump(end))
    ensures Proper(Step(s, Pump(end)))
  {
    var taken := Taken(s, end);
    NoMoreProper(s, taken);
    assert Head(s, end) in s.At(end).socket.pump;
    match Head(s, end)
    case WriteMessage(data) => EndpointSendProper(taken, end, data);
    case WriteClose(code, reason) =>
      EndpointCloseProper(taken, end, code, reason);
      var written := EndpointClose(taken, end, code, reason);
      CompletionLeavesEnds(written, end);
      NoMoreProper(written, OwnCloseWritten(written, end));
      hide Proper, EndpointClose, OwnCloseWritten;
  }

  lemma DropProper(s: State, end: Side)
    requires Proper(s) && Enabled(s, DropConnection(end))
    ensures Proper(Step(s, DropConnection(end)))
  {
    HandProper(s, end, s.At(end).socket.hand.(readyState := Closed, ownClose := true));
    EndpointAbortProper(WithHand(s, end, s.At(end).socket.hand.(readyState := Closed, ownClose := true)), end, 1006, "");
    hide Proper, EndpointAbort;
  }

  lemma SendProper(s: State, end: Side, data: nat)
    requires Proper(s)
    ensures Proper(Step(s, Send(end, data)))
  {
    EndpointSendProper(s, end, data);
    EnqueueProper(s, end, WriteMessage(data));
    hide Proper, EndpointSend, Enqueue;
  }

  lemma CheckpointProper(s: State)
    requires Proper(s)
    ensures Proper(Step(s, CheckpointEnd))
  {
    CallbacksAreQuiet(s.(callbacks := []), s.callbacks);
    NoMoreProper(s, Step(s, CheckpointEnd));
  }

  lemma QuietStepProper(s: State, event: Event)
    requires Proper(s) && Enabled(s, event)
    requires event.AcceptHibernation? || event.Rehydrate? || event.CoupleToHost? || event.AbortContext?
    ensures Proper(Step(s, event))
  {
    hide Proper;
    NoMoreProper(s, Step(s, event));
  }

  lemma DispatchProper(s: State, event: Event)
    requires Proper(s) && Enabled(s, event) && (event.Dispatch? || event.DispatchRefused?)
    ensures Proper(Step(s, event))
  {
    hide Proper;
    NoMoreProper(s, Step(s, event));
  }

  lemma StepProper(s: State, event: Event)
    requires Proper(s) && Enabled(s, event)
    ensures Proper(Step(s, event))
  {
    match event {
      case Send(end, data) => SendProper(s, end, data);
      case Accept(end) => AcceptProper(s, end);
      case Pump(end) => PumpProper(s, end);
      case DropConnection(end) => DropProper(s, end);
      case CheckpointEnd => CheckpointProper(s);
      case CallClose(end, code, reason) => CloseSocketProper(s, end, code, reason);
      case TransportClosed(end, code, reason, _) =>
        CloseSocketProper(s, end, code, reason);
        EndpointAbortProper(s, end, code, reason);
      case Dispatch(_, _) => DispatchProper(s, event);
      case DispatchRefused(_, _) => DispatchProper(s, event);
      case _ => QuietStepProper(s, event);
    }
    hide Proper, CloseSocket, EndpointAbort;
  }

  lemma {:induction false} RunProper(s: State, events: seq<Event>)
    requires Proper(s) && Possible(s, events)
    ensures Proper(Run(s, events))
    decreases |events|
  {
    hide Proper, Step, Enabled;
    if events != [] {
      StepProper(s, events[0]);
      RunProper(Step(s, events[0]), events[1..]);
    }
  }

  /** A clean close that is heard, waits for `accept()` or is still to be written is one `close` accepts. */
  lemma CleanClosesAreValid(events: seq<Event>, end: Side)
    requires Possible(INITIAL, events)
    ensures var at := Run(INITIAL, events).At(end);
      && (forall i :: 0 <= i < |at.heard| && at.heard[i].CloseHeard? && at.heard[i].close.wasClean ==>
            ValidClose(at.heard[i].close.code, at.heard[i].close.reason))
      && (forall i :: 0 <= i < |at.socket.pump| && at.socket.pump[i].WriteClose? ==>
            ValidClose(at.socket.pump[i].code, at.socket.pump[i].reason))
  {
    RunProper(INITIAL, events);
    hide Run, ValidClose;
    var at := Run(INITIAL, events).At(end);
    forall i | 0 <= i < |at.heard| ensures ProperHeard(at.heard[i]) {
      assert at.heard[i] in at.heard;
    }
    forall i | 0 <= i < |at.socket.pump| ensures ProperWrite(at.socket.pump[i]) {
      assert at.socket.pump[i] in at.socket.pump;
    }
  }

  // ---------- The closing handshake

  /** A clean close with a code `close` accepts is answered by an accepted socket that did not close itself. */
  lemma AnswersLive(s: State, end: Side, close: Close)
    requires var socket := s.At(end).socket;
      socket.mode == Classic && socket.context == Live && !socket.hand.ownClose
    requires close.wasClean && ValidClose(close.code, close.reason)
    ensures var r := ReceiveClose(s, end, close); var socket := s.At(end).socket;
      r == With(s, end, s.At(end).(
        heard := s.At(end).heard + [CloseHeard(close)],
        socket := socket.(
          hand := Handshake(Closed, true, true),
          mail := socket.mail.(notified := socket.mail.notified + 1),
          pump := socket.pump + [WriteClose(close.code, close.reason)])))
  {
    var heard := Hear(s, end, close);
    LiveCloses(heard, end, close.code, close.reason);
    hide CloseSocket, ValidClose;
    assert AnswerPeerClose(heard, end, close) == CloseSocket(heard, end, close.code, close.reason);
  }

  lemma LiveCloses(s: State, end: Side, code: int, reason: string)
    requires s.At(end).socket.context == Live && MayClose(s.At(end).socket, code, reason)
    ensures var socket := s.At(end).socket;
      && CloseSocket(s, end, code, reason) == With(s, end, s.At(end).(socket := socket.(
           hand := Owning(socket.hand), pump := socket.pump + [WriteClose(code, reason)])))
      && code !in {1005, 1006, 1015}
  {
  }

  /** A socket that closed first is closed by the other's close. */
  lemma ClosesSecond(s: State, end: Side, close: Close)
    requires s.At(end).socket.hand.ownClose
    ensures var r := ReceiveClose(s, end, close);
      && r.At(end.Other()) == s.At(end.Other()) && r.At(end).heard == s.At(end).heard + [CloseHeard(close)]
      && r.At(end).socket.hand == s.At(end).socket.hand.(readyState := Closed)
      && r.At(end).sentClose == s.At(end).sentClose && r.coupled == s.coupled
  {
  }

  /**
   * A close that reaches an accepted socket which did not close itself is answered with the same code
   * and reason as its next write, and the socket is closed.
   */
  lemma CloseIsAnswered(events: seq<Event>, end: Side, code: int, reason: string)
    requires Possible(INITIAL, events) && Enabled(Run(INITIAL, events), Pump(end))
    requires var s := Run(INITIAL, events); var socket := s.At(end.Other()).socket;
      && Head(s, end) == WriteClose(code, reason) && !s.At(end).sentClose
      && socket.mode == Classic && socket.context == Live && !socket.hand.ownClose
    ensures var s := Run(INITIAL, events); var r := Step(s, Pump(end));
      var before, after := s.At(end.Other()).socket, r.At(end.Other()).socket;
      && after.pump == before.pump + [WriteClose(code, reason)]
      && after.hand == Handshake(Closed, true, true) && after.mail.notified == before.mail.notified + 1
      && r.At(end.Other()).heard == s.At(end.Other()).heard + [CloseHeard(Close(code, reason, true))]
  {
    CleanClosesAreValid(events, end);
    hide Run, Step, ValidClose;
    assert Run(INITIAL, events).At(end).socket.pump[0] == WriteClose(code, reason);
    AnswerStep(Run(INITIAL, events), end, code, reason);
  }

  lemma AnswerStep(s: State, end: Side, code: int, reason: string)
    requires Enabled(s, Pump(end)) && Head(s, end) == WriteClose(code, reason) && ValidClose(code, reason)
    requires var socket := s.At(end.Other()).socket;
      !s.At(end).sentClose && socket.mode == Classic && socket.context == Live && !socket.hand.ownClose
    ensures var r := Step(s, Pump(end)); var told := s.At(end.Other());
      && r.At(end.Other()) == told.(
        heard := told.heard + [CloseHeard(Close(code, reason, true))],
        socket := told.socket.(
          hand := Handshake(Closed, true, true),
          mail := told.socket.mail.(notified := told.socket.mail.notified + 1),
          pump := told.socket.pump + [WriteClose(code, reason)]))
      && r.At(end) == s.At(end).(sentClose := true,
        socket := s.At(end).socket.(pump := s.At(end).socket.pump[1..], meta := r.At(end).socket.meta))
  {
    var sent := Sent(Taken(s, end), end);
    var close := Close(code, reason, true);
    AnswersLive(sent, end.Other(), close);
    hide ReceiveClose, ValidClose, OwnCloseWritten;
    CompletionLeavesEnds(EndpointClose(Taken(s, end), end, code, reason), end);
  }

  lemma SecondStep(s: State, end: Side, code: int, reason: string)
    requires Enabled(s, Pump(end)) && Head(s, end) == WriteClose(code, reason)
    requires !s.At(end).sentClose && s.At(end.Other()).socket.hand.ownClose
    ensures var r := Step(s, Pump(end)); var told := s.At(end.Other());
      && r.At(end.Other()).heard == told.heard + [CloseHeard(Close(code, reason, true))]
      && r.At(end.Other()).sentClose == told.sentClose
      && r.At(end.Other()).socket.hand == told.socket.hand.(readyState := Closed)
      && r.At(end) == s.At(end).(sentClose := true,
        socket := s.At(end).socket.(pump := s.At(end).socket.pump[1..], meta := r.At(end).socket.meta))
  {
    var sent := Sent(Taken(s, end), end);
    ClosesSecond(sent, end.Other(), Close(code, reason, true));
    hide ReceiveClose, OwnCloseWritten;
    CompletionLeavesEnds(EndpointClose(Taken(s, end), end, code, reason), end);
  }

  lemma {:induction false} RunMore(s: State, events: seq<Event>, event: Event)
    requires Possible(s, events) && Enabled(Run(s, events), event)
    ensures Possible(s, events + [event]) && Run(s, events + [event]) == Step(Run(s, events), event)
    decreases |events|
  {
    hide Step, Enabled;
    if events == [] {
      assert [event][1..] == [];
      assert events + [event] == [event];
    } else {
      assert (events + [event])[1..] == events[1..] + [event];
      RunMore(Step(s, events[0]), events[1..], event);
    }
  }

  predicate OpenAndIdle(end: End) {
    end.socket.hand.readyState == Open && end.socket.pump == []
    && end.socket.mode == Classic && end.socket.context == Live
  }

  /**
   * The whole handshake of two accepted, open sockets with nothing left to write: one closes, its write
   * goes out, the other's answer goes out, and both are closed and have heard the same clean close.
   */
  lemma HandshakeCompletes(events: seq<Event>, end: Side, code: int, reason: string)
    requires Possible(INITIAL, events) && ValidClose(code, reason)
    requires OpenAndIdle(Run(INITIAL, events).left) && OpenAndIdle(Run(INITIAL, events).right)
    ensures var whole := events + [CallClose(end, code, reason)] + [Pump(end)] + [Pump(end.Other())];
      && Possible(INITIAL, whole)
      && var s, r := Run(INITIAL, events), Run(INITIAL, whole);
      && r.left.sentClose && r.right.sentClose
      && r.left.socket.hand.readyState == Closed && r.right.socket.hand.readyState == Closed
      && r.left.heard == s.left.heard + [CloseHeard(Close(code, reason, true))]
      && r.right.heard == s.right.heard + [CloseHeard(Close(code, reason, true))]
  {
    RunOk(INITIAL, events);
    OpenIsUnclosed(Run(INITIAL, events));
    hide Run, Possible, Step, PairOk, ReleaseOk, ValidClose;
    var s := Run(INITIAL, events);
    CloseIsTaken(events, end, code, reason);
    RunMore(INITIAL, events, CallClose(end, code, reason));
    var called := events + [CallClose(end, code, reason)];
    AnswerStep(Run(INITIAL, called), end, code, reason);
    RunMore(INITIAL, called, Pump(end));
    var told := called + [Pump(end)];
    SecondStep(Run(INITIAL, told), end.Other(), code, reason);
    RunMore(INITIAL, told, Pump(end.Other()));
  }

  lemma OpenIsUnclosed(s: State)
    requires PairOk(s, {}) && s.left.socket.hand.readyState == Open && s.right.socket.hand.readyState == Open
    ensures !s.left.sentClose && !s.right.sentClose
    ensures !s.left.socket.hand.ownClose && !s.right.socket.hand.ownClose
    ensures !s.left.socket.hand.peerClose && !s.right.socket.hand.peerClose
  {
    hide ClosedLast, Notices;
  }

  // ---------- Accepting late

  /** What waited for `accept()` is delivered: the messages were heard, and a close is passed on and answered. */
  lemma AcceptDeliversWaiting(events: seq<Event>, end: Side)
    requires Possible(INITIAL, events) && Enabled(Run(INITIAL, events), Accept(end))
    ensures var s := Run(INITIAL, events); var r := Step(s, Accept(end));
      var before, after := s.At(end).socket, r.At(end).socket;
      && after.mode == Classic && after.mail.pending == []
      && after.mail.notified == before.mail.notified + PendingCloses(before.mail.pending)
      && (PendingCloses(before.mail.pending) == 0 ==>
          r == WithSocket(s, end, before.(mode := Classic, mail := before.mail.(pending := []))))
      && (PendingCloses(before.mail.pending) > 0 ==> after.hand.ownClose || after.hand.readyState == Closed)
  {
    RunOk(INITIAL, events);
    var s := Run(INITIAL, events);
    var socket := s.At(end).socket;
    var classic := WithSocket(s, end, socket.(mode := Classic, mail := socket.mail.(pending := [])));
    QuietOk(s, classic);
    RunProper(INITIAL, events);
    ReplayDelivers(classic, end, socket.mail.pending);
    if PendingCloses(socket.mail.pending) == 0 { ReplayNothing(classic, end, socket.mail.pending); }
    hide Replay, Run, PairOk, ReleaseOk;
  }

  lemma {:induction false} ReplayNothing(s: State, end: Side, waiting: seq<Heard>)
    requires PendingCloses(waiting) == 0
    ensures Replay(s, end, waiting) == s
    decreases |waiting|
  {
    if waiting != [] { ReplayNothing(s, end, waiting[1..]); }
  }

  predicate Answered(hand: Handshake) {
    hand.ownClose || hand.readyState == Closed
  }

  lemma AnswersProperly(s: State, end: Side, close: Close)
    requires PairOk(s, {}) && ProperHeard(CloseHeard(close))
    ensures Answered(AnswerPeerClose(s, end, close).At(end).socket.hand)
  {
    if MayClose(s.At(end).socket, close.code, close.reason) {
      CloseKeepsOwn(s, end, close.code, close.reason);
    }
    hide PairOk, CloseSocket, ValidClose;
  }

  lemma {:induction false} ReplayDelivers(s: State, end: Side, waiting: seq<Heard>)
    requires PairOk(s, {})
    requires Notices(s.At(end).socket.mail) + PendingCloses(waiting) <= (if Told(s, end, {}) then 1 else 0)
    requires s.At(end).socket.mode == Classic && s.At(end).socket.mail.pending == []
    requires forall h :: h in waiting ==> ProperHeard(h)
    ensures var r := Replay(s, end, waiting).At(end).socket;
      && r.mode == Classic && r.mail.pending == []
      && r.mail.notified == s.At(end).socket.mail.notified + PendingCloses(waiting)
      && (PendingCloses(waiting) > 0 || Answered(s.At(end).socket.hand) ==> Answered(r.hand))
    decreases |waiting|
  {
    hide EndOk;
    if waiting != [] {
      match waiting[0]
      case Message(_) => ReplayDelivers(s, end, waiting[1..]);
      case CloseHeard(close) =>
        var answered := AnswerPeerClose(s, end, close);
        AnswerOk(s, end, close, {});
        AnswersProperly(s, end, close);
        FinishReceiving(s, answered, end, close, {});
        var passed := PassOn(answered, end, close);
        PassedOnOk(answered.At(end).socket.mode, answered.At(end).socket.mail, close);
        ReplayDelivers(passed, end, waiting[1..]);
    }
  }

  // ---------- Hibernation, coupling, a lost context

  /** A hibernatable socket's written close completes at once when its events were dispatched or the pair left. */
  lemma WrittenCloseCompletes(events: seq<Event>, end: Side, code: int, reason: string)
    requires Possible(INITIAL, events) && Enabled(Run(INITIAL, events), Pump(end))
    requires var s := Run(INITIAL, events);
      Head(s, end) == WriteClose(code, reason) && s.At(end).socket.mode == Hibernatable
    ensures var s := Run(INITIAL, events); var r := Step(s, Pump(end)); var meta := s.At(end).socket.meta;
      && r.At(end).socket.meta.wroteClose
      && (if s.coupled || meta.closeDispatched then Complete(end) in r.callbacks
          else r.At(end).socket.meta.completionPending)
  {
    RunOk(INITIAL, events);
    var s := Run(INITIAL, events);
    hide Run, Step, PairOk, ReleaseOk, EndpointClose, Travelled, Moved;
    TakingOk(s, end);
    EndpointCloseOk(Taken(s, end), end, code, reason, {});
    TravelledMoves(Taken(s, end), EndpointClose(Taken(s, end), end, code, reason));
    StepIsOwnClose(s, end, code, reason);
  }

  lemma StepIsOwnClose(s: State, end: Side, code: int, reason: string)
    requires Enabled(s, Pump(end)) && Head(s, end) == WriteClose(code, reason) && s.At(end).socket.mode == Hibernatable
    ensures Step(s, Pump(end)) == OwnCloseWritten(EndpointClose(Taken(s, end), end, code, reason), end)
  {
    hide EndpointClose, OwnCloseWritten;
  }

  /** A written close that waits for the close event releases the socket once that event was dispatched. */
  lemma DispatchedCloseReleases(events: seq<Event>, end: Side, index: nat)
    requires Possible(INITIAL, events) && Enabled(Run(INITIAL, events), Dispatch(end, index))
    requires var socket := Run(INITIAL, events).At(end).socket;
      socket.mail.scheduled[index] && socket.meta.completionPending
    ensures var r := Step(Run(INITIAL, events), Dispatch(end, index));
      Step(r, CheckpointEnd).At(end).socket.meta.released
  {
    hide Run, RunCallbacks;
    var r := Step(Run(INITIAL, events), Dispatch(end, index));
    assert r.callbacks[|r.callbacks| - 1] == Settle(end);
    SettlesOnce(r.(callbacks := []), r.callbacks, end);
  }

  lemma {:induction false} SettlesOnce(s: State, batch: seq<Callback>, end: Side)
    requires s.At(end).socket.meta.closeDispatched
    requires s.At(end).socket.meta.released || (s.At(end).socket.meta.completionPending && Settle(end) in batch)
    ensures RunCallbacks(s, batch).At(end).socket.meta.released
    decreases |batch|
  {
    if batch != [] { SettlesOnce(RunCallback(s, batch[0]), batch[1..], end); }
  }

  /** A half handed to the host is unaccepted, owned by no actor, and as far in its handshake as it was. */
  lemma HostTakesOver(events: seq<Event>, end: Side)
    requires Possible(INITIAL, events) && Enabled(Run(INITIAL, events), CoupleToHost(end))
    ensures var s := Run(INITIAL, events); var r := Step(s, CoupleToHost(end));
      var before, after, other := s.At(end), r.At(end), s.At(end.Other());
      && r.coupled && after.heard == before.heard && after.sentClose == before.sentClose
      && after.socket.context == NoContext && after.socket.mode == Pending && after.socket.pump == []
      && after.socket.hand == before.socket.hand && after.socket.mail.pending == before.socket.mail.pending
      && r.At(end.Other()) == other.(socket := other.socket.(meta := r.At(end.Other()).socket.meta))
      && !r.At(end.Other()).socket.meta.completionPending
      && (other.socket.meta.completionPending && other.socket.meta.closeDispatched ==>
            r.At(end.Other()).socket.meta.released)
  {
    hide Run;
  }

  /** An aborted actor's accepted socket is closed, and its connection drops at each end that had not heard a close. */
  lemma AbortedActorDrops(events: seq<Event>, end: Side)
    requires Possible(INITIAL, events) && Enabled(Run(INITIAL, events), DropConnection(end))
    requires Run(INITIAL, events).At(end).socket.hand.readyState != Closed
    ensures var s := Run(INITIAL, events); var r := Step(s, DropConnection(end));
      var dropped := [CloseHeard(Close(1006, "", false))];
      && r.left.sentClose && r.right.sentClose
      && r.left.heard == s.left.heard + (if s.right.sentClose then [] else dropped)
      && r.right.heard == s.right.heard + (if s.left.sentClose then [] else dropped)
      && r.At(end).socket.hand.readyState == Closed
  {
    RunOk(INITIAL, events);
    hide Run, Step, PairOk, ReleaseOk, EndpointAbort;
    var s := Run(INITIAL, events);
    DroppingOk(s, end);
    StepIsDrop(s, end);
    AbortTells(Dropping(s, end), end, 1006, "");
  }

  lemma StepIsDrop(s: State, end: Side)
    requires Enabled(s, DropConnection(end)) && s.At(end).socket.hand.readyState != Closed
    ensures Step(s, DropConnection(end)) == EndpointAbort(Dropping(s, end), end, 1006, "")
  {
    hide EndpointAbort;
  }

  lemma AbortTells(s: State, end: Side, code: int, reason: string)
    requires PairOk(s, {})
    ensures var r := EndpointAbort(s, end, code, reason); var dropped := [CloseHeard(Close(code, reason, false))];
      && r.left.sentClose && r.right.sentClose
      && r.left.heard == s.left.heard + (if s.right.sentClose then [] else dropped)
      && r.right.heard == s.right.heard + (if s.left.sentClose then [] else dropped)
      && (s.At(end).socket.hand.readyState == Closed ==> r.At(end).socket.hand.readyState == Closed)
  {
    hide EndpointAbort, EndOk;
    AbortOk(s, end, code, reason);
  }

  /** A transport closed cleanly, with a code `close` accepts, closes the socket as its own close does. */
  lemma CleanTransportCloses(events: seq<Event>, end: Side, code: int, reason: string)
    requires Possible(INITIAL, events) && ValidClose(code, reason)
    ensures var s := Run(INITIAL, events);
      Step(s, TransportClosed(end, code, reason, true)) == Step(s, CallClose(end, code, reason))
  {
    hide Run, CloseSocket, ValidClose;
  }

  /** A socket accepted for hibernation, by an actor, is the registry's from then on, and what waited is dropped. */
  lemma HibernationTakesOver(events: seq<Event>, end: Side)
    requires Possible(INITIAL, events) && Enabled(Run(INITIAL, events), AcceptHibernation(end))
    ensures var s := Run(INITIAL, events); var r := Step(s, AcceptHibernation(end)); var socket := s.At(end).socket;
      && r.At(end) == s.At(end).(socket := socket.(mode := Hibernatable, mail := socket.mail.(pending := [])))
      && r.At(end.Other()) == s.At(end.Other())
  {
    hide Run;
  }

  /** An actor that aborts writes nothing more: what it had queued is dropped and nothing new is queued. */
  lemma AbortedActorIsSilent(events: seq<Event>, end: Side, data: nat, code: int, reason: string)
    requires Possible(INITIAL, events) && Enabled(Run(INITIAL, events), AbortContext(end))
    ensures var s := Run(INITIAL, events); var r := Step(s, AbortContext(end));
      && r.At(end).socket.context == Aborted && r.At(end).socket.pump == [] && r.At(end.Other()) == s.At(end.Other())
      && Step(r, Send(end, data)).At(end).socket.pump == [] && Step(r, CallClose(end, code, reason)).At(end).socket.pump == []
      && Step(r, Send(end, data)).At(end.Other()) == s.At(end.Other())
      && Step(r, CallClose(end, code, reason)).At(end.Other()) == s.At(end.Other())
  {
    hide Run, ValidClose;
  }

  /** A hibernated socket's next actor finds it live, as far in its handshake as it was, and not released. */
  lemma NextActorTakesOver(events: seq<Event>, end: Side)
    requires Possible(INITIAL, events) && Enabled(Run(INITIAL, events), Rehydrate(end))
    ensures var s := Run(INITIAL, events); var r := Step(s, Rehydrate(end)); var after := r.At(end).socket;
      && after.context == Live && after.mode == Hibernatable && after.mail.pending == []
      && !after.meta.released && !after.meta.closeDispatched && !after.meta.completionPending
      && after.hand == s.At(end).socket.hand && after.pump == s.At(end).socket.pump
      && after.mail.scheduled == s.At(end).socket.mail.scheduled
      && r.At(end).heard == s.At(end).heard && r.At(end.Other()) == s.At(end.Other())
  {
    hide Run;
  }

  /** An event the actor refuses is gone; a refused close still completes the socket's own written close. */
  lemma RefusedEventIsGone(events: seq<Event>, end: Side, index: nat)
    requires Possible(INITIAL, events) && Enabled(Run(INITIAL, events), DispatchRefused(end, index))
    ensures var s := Run(INITIAL, events); var r := Step(s, DispatchRefused(end, index));
      var before, after := s.At(end).socket, r.At(end).socket;
      && after.mail.scheduled == before.mail.scheduled[..index] + before.mail.scheduled[index + 1..]
      && (before.mail.scheduled[index] ==> !after.meta.completionPending)
      && (before.mail.scheduled[index] && before.meta.completionPending && before.meta.closeDispatched ==> after.meta.released)
      && (!before.mail.scheduled[index] ==> after.meta == before.meta)
      && r.At(end.Other()) == s.At(end.Other()) && r.callbacks == s.callbacks
  {
    hide Run;
  }
}
