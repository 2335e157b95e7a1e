/**
 * A `WebSocketPair` of `src/api/web-socket.ts`: two in-memory endpoints, the socket that owns each,
 * and what an own close leaves to do. A step is what runs without giving up the thread; a socket
 * without a context (a host's) writes at once, any other through its pump.
 */
module SocketPairModel {
  import opened Prelude

  datatype ReadyState = Open | Closing | Closed {
    function Rank(): nat { match this case Open => 1 case Closing => 2 case Closed => 3 }
  }

  datatype Close = Close(code: int, reason: string, wasClean: bool)

  /** An event at an endpoint. */
  datatype Heard = Message(data: nat) | CloseHeard(close: Close)

  datatype Write = WriteMessage(data: nat) | WriteClose(code: int, reason: string)

  datatype Mode = Pending | Classic | Hibernatable

  datatype Context = NoContext | Live | Aborted

  datatype Handshake = Handshake(readyState: ReadyState, ownClose: bool, peerClose: bool)

  /** Events on their way to listeners or to a registry. */
  datatype Mail = Mail(
    pending: seq<Heard>,   // received before `accept()`
    notified: nat,         // close events passed on
    scheduled: seq<bool>)  // hibernation events not dispatched yet; true for a close

  datatype Metadata = Metadata(
    closeDispatched: bool,
    completionPending: bool,  // `ownCloseCompletion`
    released: bool,
    wroteClose: bool,         // an own close was written, whenever
    everDispatched: bool)     // a close event was dispatched, whenever

  datatype Socket = Socket(
    mode: Mode, context: Context, hand: Handshake, mail: Mail, pump: seq<Write>, meta: Metadata)

  datatype End = End(sentClose: bool, heard: seq<Heard>, socket: Socket)

  datatype Side = Left | Right {
    function Other(): Side { if Left? then Right else Left }
  }

  /** `complete` callbacks of `ownCloseWritten`, and `settle` of a hibernation event. */
  datatype Callback = Complete(end: Side) | Settle(end: Side)

  datatype State = State(left: End, right: End, coupled: bool, callbacks: seq<Callback>) {
    function At(end: Side): End { if end.Left? then left else right }
  }

  const FRESH_METADATA := Metadata(false, false, false, false, false)
  const FRESH_SOCKET := Socket(Pending, Live, Handshake(Open, false, false), Mail([], 0, []), [], FRESH_METADATA)

  const INITIAL := State(End(false, [], FRESH_SOCKET), End(false, [], FRESH_SOCKET), false, [])

  datatype Event =
    | Send(end: Side, data: nat)
    | CallClose(end: Side, code: int, reason: string)
    | Accept(end: Side)
    | AcceptHibernation(end: Side)
    | Rehydrate(end: Side)
    | CoupleToHost(end: Side)
    | TransportClosed(end: Side, code: int, reason: string, wasClean: bool)
    | AbortContext(end: Side)
    | DropConnection(end: Side)
    | Pump(end: Side)
    | Dispatch(end: Side, index: nat)
    | DispatchRefused(end: Side, index: nat)
    | CheckpointEnd

  predicate ValidClose(code: int, reason: string) {
    1000 <= code < 5000 && code !in {1004, 1005, 1006, 1015} && Utf8Length(reason) <= 123
  }

  function With(s: State, end: Side, value: End): State {
    if end.Left? then s.(left := value) else s.(right := value)
  }

  function WithSocket(s: State, end: Side, socket: Socket): (r: State)
    ensures Unsent(r) == Unsent(s)
  {
    With(s, end, s.At(end).(socket := socket))
  }

  function WithHand(s: State, end: Side, hand: Handshake): (r: State)
    ensures Unsent(r) == Unsent(s)
  {
    WithSocket(s, end, s.At(end).socket.(hand := hand))
  }

  function WithMail(s: State, end: Side, mail: Mail): (r: State)
    ensures Unsent(r) == Unsent(s)
  {
    WithSocket(s, end, s.At(end).socket.(mail := mail))
  }

  function WithMeta(s: State, end: Side, meta: Metadata): State {
    WithSocket(s, end, s.At(end).socket.(meta := meta))
  }

  function Unsent(s: State): nat {
    (if s.left.sentClose then 0 else 1) + (if s.right.sentClose then 0 else 1)
  }

  function Hearing(end: End, heard: Heard): End {
    end.(heard := end.heard + [heard])
  }

  /** `receive`, for a message. */
  function Receive(s: State, end: Side, data: nat): State {
    var heard := With(s, end, Hearing(s.At(end), Message(data)));
    var mail := s.At(end).socket.mail;
    match s.At(end).socket.mode
    case Pending => WithMail(heard, end, mail.(pending := mail.pending + [Message(data)]))
    case Classic => heard
    case Hibernatable => WithMail(heard, end, mail.(scheduled := mail.scheduled + [false]))
  }

  /** The end hears a close: the second of two closes its socket, the first is one to answer. */
  function Hear(s: State, end: Side, close: Close): (r: State)
    ensures Unsent(r) == Unsent(s)
  {
    var heard := Hearing(s.At(end), CloseHeard(close));
    With(s, end, heard.(socket := heard.socket.(hand := Hearer(heard.socket.hand))))
  }

  function Hearer(hand: Handshake): Handshake {
    if hand.ownClose then hand.(readyState := Closed) else hand.(peerClose := true, readyState := Closing)
  }

  /** A close event reaches the endpoint's socket. */
  function ReceiveClose(s: State, end: Side, close: Close): (r: State)
    ensures Unsent(r) <= Unsent(s)
    decreases Unsent(s), 3
  {
    var heard := Hear(s, end, close);
    var socket := s.At(end).socket;
    var told := if !socket.hand.ownClose && socket.mode == Classic then AnswerPeerClose(heard, end, close) else heard;
    PassOn(told, end, close)
  }

  /** The close event on its way to listeners, to a registry, or to wait for `accept()`. */
  function PassOn(s: State, end: Side, close: Close): (r: State)
    ensures Unsent(r) == Unsent(s)
  {
    WithMail(s, end, PassedOn(s.At(end).socket.mode, s.At(end).socket.mail, close))
  }

  function PassedOn(mode: Mode, mail: Mail, close: Close): Mail {
    match mode
    case Pending => mail.(pending := mail.pending + [CloseHeard(close)])
    case Classic => mail.(notified := mail.notified + 1)
    case Hibernatable => mail.(notified := mail.notified + 1, scheduled := mail.scheduled + [true])
  }

  function AnswerPeerClose(s: State, end: Side, close: Close): (r: State)
    ensures Unsent(r) <= Unsent(s)
    decreases Unsent(s), 2
  {
    var hand := s.At(end).socket.hand;
    if hand.ownClose then s
    else if !close.wasClean || close.code in {1005, 1006, 1015} then WithHand(s, end, hand.(readyState := Closed))
    else CloseSocket(s, end, close.code, close.reason)
  }

  function Owning(hand: Handshake): Handshake {
    hand.(ownClose := true, readyState := if hand.peerClose then Closed else Closing)
  }

  /** `close()`; an invalid code or reason throws first. */
  function CloseSocket(s: State, end: Side, code: int, reason: string): (r: State)
    ensures Unsent(r) <= Unsent(s)
    decreases Unsent(s), 1
  {
    var socket := s.At(end).socket;
    if socket.hand.readyState == Closed || socket.hand.ownClose || !ValidClose(code, reason) then s
    else
      var closing := WithHand(s, end, Owning(socket.hand));
      match socket.context
      case NoContext => EndpointClose(closing, end, code, reason)
      case Aborted => closing  // its pump discards every write
      case Live => Enqueue(closing, end, WriteClose(code, reason))
  }

  function Enqueue(s: State, end: Side, write: Write): (r: State)
    ensures Unsent(r) == Unsent(s)
  {
    WithSocket(s, end, s.At(end).socket.(pump := s.At(end).socket.pump + [write]))
  }

  /** The endpoint's `close()`: the other end hears it, once. */
  function EndpointClose(s: State, end: Side, code: int, reason: string): (r: State)
    ensures Unsent(r) <= Unsent(s)
    decreases Unsent(s), 0
  {
    if s.At(end).sentClose then s
    else ReceiveClose(Sent(s, end), end.Other(), Close(code, reason, true))
  }

  function Sent(s: State, end: Side): State {
    With(s, end, s.At(end).(sentClose := true))
  }

  function EndpointSend(s: State, end: Side, data: nat): State {
    if s.At(end).sentClose then s else Receive(s, end.Other(), data)
  }

  /** The endpoint's `abort()`: its close goes to whichever ends none was sent to, the other end first. */
  function EndpointAbort(s: State, end: Side, code: int, reason: string): State {
    var close := Close(code, reason, false);
    var other := end.Other();
    var sent := Sent(Sent(s, end), other);
    var told := if s.At(end).sentClose then sent else ReceiveClose(sent, other, close);
    if s.At(other).sentClose then told else ReceiveClose(told, end, close)
  }

  /** The loop of `#enableClassic` over what waited for `accept()`. */
  function Replay(s: State, end: Side, waiting: seq<Heard>): State
    decreases |waiting|
  {
    if waiting == [] then s
    else
      match waiting[0]
      case Message(_) => Replay(s, end, waiting[1..])
      case CloseHeard(close) => Replay(PassOn(AnswerPeerClose(s, end, close), end, close), end, waiting[1..])
  }

  function Completed(meta: Metadata): Metadata {
    meta.(completionPending := false, released := meta.released || meta.closeDispatched)
  }

  function CompleteOwnClose(s: State, end: Side): State {
    WithMeta(s, end, Completed(s.At(end).socket.meta))
  }

  /** `ownCloseWritten`, after the write. */
  function OwnCloseWritten(s: State, end: Side): State {
    var meta := s.At(end).socket.meta.(wroteClose := true);
    if !s.coupled && !meta.closeDispatched
    then WithMeta(s, end, meta.(completionPending := true))
    else WithMeta(s, end, meta).(callbacks := s.callbacks + [Complete(end)])
  }

  function PumpWrite(s: State, end: Side, write: Write): State {
    match write
    case WriteMessage(data) => EndpointSend(s, end, data)
    case WriteClose(code, reason) =>
      var written := EndpointClose(s, end, code, reason);
      if s.At(end).socket.mode == Hibernatable then OwnCloseWritten(written, end) else written
  }

  function RunCallback(s: State, callback: Callback): State {
    match callback
    case Complete(end) => CompleteOwnClose(s, end)
    case Settle(end) => if s.At(end).socket.meta.completionPending then CompleteOwnClose(s, end) else s
  }

  function RunCallbacks(s: State, batch: seq<Callback>): State
    decreases |batch|
  {
    if batch == [] then s else RunCallbacks(RunCallback(s, batch[0]), batch[1..])
  }

  /** A host's socket owns the endpoint from now on; the actor's own becomes inert, its writes with it. */
  function HostSocket(socket: Socket): Socket {
    Socket(Pending, NoContext, socket.hand, socket.mail.(scheduled := []), [], FRESH_METADATA)
  }

  function Couple(s: State, end: Side): State {
    var moved := WithSocket(s, end, HostSocket(s.At(end).socket)).(coupled := true);
    if s.At(end.Other()).socket.meta.completionPending then CompleteOwnClose(moved, end.Other()) else moved
  }

  predicate Enabled(s: State, event: Event) {
    match event
    case Send(end, _) => true
    case CallClose(end, _, _) => true
    case Accept(end) => s.At(end).socket.mode == Pending
    case AcceptHibernation(end) =>
      s.At(end).socket.mode == Pending && s.At(end).socket.context != NoContext
    case Rehydrate(end) => s.At(end).socket.mode == Hibernatable
    case CoupleToHost(end) => s.At(end).socket.mode == Pending
    case TransportClosed(end, _, _, _) => true
    case AbortContext(end) => s.At(end).socket.context == Live
    case DropConnection(end) =>
      s.At(end).socket.context == Aborted && s.At(end).socket.mode == Classic
    case Pump(end) => s.At(end).socket.pump != []
    case Dispatch(end, index) => index < |s.At(end).socket.mail.scheduled|
    case DispatchRefused(end, index) => index < |s.At(end).socket.mail.scheduled|
    case CheckpointEnd => true
  }

  function Without<T>(list: seq<T>, index: nat): seq<T>
    requires index < |list|
  {
    list[..index] + list[index + 1..]
  }

  function Step(s: State, event: Event): State
    requires Enabled(s, event)
  {
    match event
    case Send(end, data) =>
      var socket := s.At(end).socket;
      var hand := socket.hand;
      if (socket.mode == Hibernatable && hand.ownClose) || hand.peerClose || hand.readyState == Closed then s
      else
        (match socket.context
         case NoContext => EndpointSend(s, end, data)
         case Aborted => s
         case Live => Enqueue(s, end, WriteMessage(data)))
    case CallClose(end, code, reason) => CloseSocket(s, end, code, reason)
    case Accept(end) =>
      var socket := s.At(end).socket;
      Replay(WithSocket(s, end, socket.(mode := Classic, mail := socket.mail.(pending := []))), end, socket.mail.pending)
    case AcceptHibernation(end) =>
      var socket := s.At(end).socket;
      WithSocket(s, end, socket.(mode := Hibernatable, mail := socket.mail.(pending := [])))
    case Rehydrate(end) =>
      var socket := s.At(end).socket;
      var meta := socket.meta.(closeDispatched := false, completionPending := false, released := false);
      WithSocket(s, end, socket.(context := Live, mail := socket.mail.(pending := []), meta := meta))
    case CoupleToHost(end) => Couple(s, end)
    case TransportClosed(end, code, reason, wasClean) =>
      if !wasClean || !ValidClose(code, reason) then EndpointAbort(s, end, code, reason)
      else CloseSocket(s, end, code, reason)
    case AbortContext(end) => WithSocket(s, end, s.At(end).socket.(context := Aborted, pump := []))
    case DropConnection(end) =>
      var hand := s.At(end).socket.hand;
      if hand.readyState == Closed then s
      else EndpointAbort(WithHand(s, end, hand.(readyState := Closed, ownClose := true)), end, 1006, "")
    case Pump(end) =>
      var socket := s.At(end).socket;
      PumpWrite(WithSocket(s, end, socket.(pump := socket.pump[1..])), end, socket.pump[0])
    case Dispatch(end, index) =>
      var socket := s.At(end).socket;
      var isClose := socket.mail.scheduled[index];
      var meta := socket.meta.(closeDispatched := socket.meta.closeDispatched || isClose,
                               everDispatched := socket.meta.everDispatched || isClose);
      var mail := socket.mail.(scheduled := Without(socket.mail.scheduled, index));
      var dispatched := WithSocket(s, end, socket.(mail := mail, meta := meta));
      if isClose || meta.completionPending then dispatched.(callbacks := s.callbacks + [Settle(end)]) else dispatched
    case DispatchRefused(end, index) =>
      var socket := s.At(end).socket;
      var mail := socket.mail.(scheduled := Without(socket.mail.scheduled, index));
      var dropped := WithMail(s, end, mail);
      if socket.mail.scheduled[index] && socket.meta.completionPending then CompleteOwnClose(dropped, end) else dropped
    case CheckpointEnd => RunCallbacks(s.(callbacks := []), s.callbacks)
  }

  predicate Possible(s: State, events: seq<Event>)
    decreases |events|
  {
    events == [] || (Enabled(s, events[0]) && Possible(Step(s, events[0]), events[1..]))
  }

  function Run(s: State, events: seq<Event>): State
    requires Possible(s, events)
    decreases |events|
  {
    if events == [] then s else Run(Step(s, events[0]), events[1..])
  }
}

module SocketPairTheorems {
  import opened SocketPairModel

  predicate AllMessages(heard: seq<Heard>) {
    forall i :: 0 <= i < |heard| ==> heard[i].Message?
  }

  /** One close and no message after it, or none yet. */
  predicate ClosedLast(heard: seq<Heard>, closed: bool) {
    if closed then
      heard != [] && heard[|heard| - 1].CloseHeard? && AllMessages(heard[..|heard| - 1])
    else AllMessages(heard)
  }

  function PendingCloses(pending: seq<Heard>): nat {
    if pending == [] then 0 else (if pending[0].CloseHeard? then 1 else 0) + PendingCloses(pending[1..])
  }

  /** Close events passed on, or waiting for `accept()`. */
  function Notices(mail: Mail): nat {
    mail.notified + PendingCloses(mail.pending)
  }

  /** What a socket shows whose end has been told of a close, or has not. */
  predicate HandOk(hand: Handshake, told: bool) {
    && (hand.readyState == Open <==> !hand.ownClose && !told)
    && (hand.ownClose && told ==> hand.readyState == Closed)
    && (hand.readyState == Closed && !hand.ownClose ==> told)
    && (hand.peerClose ==> told)
    && (told ==> hand.ownClose || hand.peerClose)
  }

  predicate EndOk(end: End, told: bool) {
    && ClosedLast(end.heard, told)
    && HandOk(end.socket.hand, told)
    && Notices(end.socket.mail) <= (if told then 1 else 0)
  }

  /** The end has heard the close its other end sent; `awaiting` ends are about to. */
  predicate Told(s: State, end: Side, awaiting: set<Side>) {
    s.At(end.Other()).sentClose && end !in awaiting
  }

  predicate PairOk(s: State, awaiting: set<Side>) {
    && EndOk(s.left, Told(s, Left, awaiting)) && EndOk(s.right, Told(s, Right, awaiting))
    && (Left in awaiting ==> s.right.sentClose) && (Right in awaiting ==> s.left.sentClose)
  }

  predicate SameTold(a: End, b: End) {
    a.heard == b.heard && a.socket.mail == b.socket.mail
  }

  /** What closes do not change. */
  predicate SameStanding(a: Socket, b: Socket) {
    a.mode == b.mode && a.context == b.context && a.meta == b.meta
  }

  /** No state moves backward, and a socket closes only once its end has heard a close. */
  predicate Forward(a: Handshake, b: Handshake, told: bool) {
    && a.readyState.Rank() <= b.readyState.Rank()
    && (a.ownClose ==> b.ownClose)
    && (b.readyState == Closed ==> a.readyState == Closed || told)
  }

  predicate EndTravelled(a: End, b: End, told: bool) {
    && SameStanding(a.socket, b.socket)
    && (a.sentClose ==> b.sentClose)
    && Forward(a.socket.hand, b.socket.hand, told)
  }

  /** From `s` to `r` closes travelled, and did no more than they should. */
  predicate Travelled(s: State, r: State, still: set<Side>) {
    && r.coupled == s.coupled && r.callbacks == s.callbacks
    && EndTravelled(s.left, r.left, Told(r, Left, still)) && EndTravelled(s.right, r.right, Told(r, Right, still))
    && PairOk(r, still)
  }

  lemma {:induction false} PendingAppend(a: seq<Heard>, b: seq<Heard>)
    ensures PendingCloses(a + b) == PendingCloses(a) + PendingCloses(b)
  {
    if a == [] {
      assert a + b == b;
    } else {
      PendingAppend(a[1..], b);
      assert (a + b)[1..] == a[1..] + b;
    }
  }

  lemma Chained(s: State, x: State, r: State, middle: set<Side>, still: set<Side>)
    requires Travelled(s, x, middle) && Travelled(x, r, still) && still <= middle
    ensures Travelled(s, r, still)
  {
    hide EndOk;
  }

  /** One end changed, and is as it should be. */
  lemma Replaced(s: State, end: Side, value: End, awaiting: set<Side>, still: set<Side>)
    requires PairOk(s, awaiting) && (still == awaiting || still == awaiting - {end})
    requires value.sentClose == s.At(end).sentClose
    requires EndOk(value, Told(s, end, still)) && EndTravelled(s.At(end), value, Told(s, end, still))
    ensures Travelled(s, With(s, end, value), still)
    ensures With(s, end, value).At(end) == value && With(s, end, value).At(end.Other()) == s.At(end.Other())
  {
    hide EndOk;
  }

  // ---------- A close on its way

  lemma HearOk(s: State, end: Side, close: Close, awaiting: set<Side>)
    requires PairOk(s, awaiting) && end in awaiting
    ensures Travelled(s, Hear(s, end, close), awaiting - {end})
    ensures Notices(Hear(s, end, close).At(end).socket.mail) == 0
    ensures Told(Hear(s, end, close), end, awaiting - {end})
    ensures Hear(s, end, close).At(end.Other()) == s.At(end.Other())
    ensures Hear(s, end, close).At(end).heard == s.At(end).heard + [CloseHeard(close)]
  {
    var before := s.At(end);
    var heard := Hearing(before, CloseHeard(close));
    assert EndOk(before, false);
    assert heard.heard[..|before.heard|] == before.heard;
    Replaced(s, end, heard.(socket := before.socket.(hand := Hearer(before.socket.hand))), awaiting, awaiting - {end});
  }

  lemma PassedOnOk(mode: Mode, mail: Mail, close: Close)
    ensures Notices(PassedOn(mode, mail, close)) == Notices(mail) + 1
  {
    PendingAppend(mail.pending, [CloseHeard(close)]);
  }

  lemma PassOnOk(s: State, end: Side, close: Close, still: set<Side>)
    requires PairOk(s, still) && Told(s, end, still) && Notices(s.At(end).socket.mail) == 0
    ensures Travelled(s, PassOn(s, end, close), still)
    ensures PassOn(s, end, close).At(end.Other()) == s.At(end.Other())
  {
    var socket := s.At(end).socket;
    var passed := PassedOn(socket.mode, socket.mail, close);
    PassedOnOk(socket.mode, socket.mail, close);
    Replaced(s, end, s.At(end).(socket := socket.(mail := passed)), still, still);
  }

  lemma ReceiveCloseOk(s: State, end: Side, close: Close, awaiting: set<Side>)
    requires PairOk(s, awaiting) && end in awaiting
    ensures Travelled(s, ReceiveClose(s, end, close), awaiting - {end})
    ensures ReceiveClose(s, end, close).At(end).heard == s.At(end).heard + [CloseHeard(close)]
    ensures s.At(end).sentClose ==> SameTold(s.At(end.Other()), ReceiveClose(s, end, close).At(end.Other()))
    decreases Unsent(s), 3
  {
    var still := awaiting - {end};
    var heard := Hear(s, end, close);
    HearOk(s, end, close, awaiting);
    hide EndOk;
    hide Notices;
    hide Hearer;
    hide PassOn;
    if !s.At(end).socket.hand.ownClose && s.At(end).socket.mode == Classic {
      AnswerOk(heard, end, close, still);
      Chained(s, heard, AnswerPeerClose(heard, end, close), still, still);
      FinishReceiving(s, AnswerPeerClose(heard, end, close), end, close, still);
    } else {
      FinishReceiving(s, heard, end, close, still);
    }
  }

  lemma FinishReceiving(s: State, told: State, end: Side, close: Close, still: set<Side>)
    requires Travelled(s, told, still) && Told(told, end, still) && Notices(told.At(end).socket.mail) == 0
    ensures Travelled(s, PassOn(told, end, close), still)
    ensures PassOn(told, end, close).At(end.Other()) == told.At(end.Other())
    ensures PassOn(told, end, close).At(end).heard == told.At(end).heard
  {
    PassOnOk(told, end, close, still);
    Chained(s, told, PassOn(told, end, close), still, still);
  }

  lemma AnswerOk(s: State, end: Side, close: Close, still: set<Side>)
    requires PairOk(s, still) && Told(s, end, still)
    ensures Travelled(s, AnswerPeerClose(s, end, close), still)
    ensures SameTold(s.At(end), AnswerPeerClose(s, end, close).At(end))
    ensures s.At(end).sentClose ==> SameTold(s.At(end.Other()), AnswerPeerClose(s, end, close).At(end.Other()))
    decreases Unsent(s), 2
  {
    var hand := s.At(end).socket.hand;
    hide ClosedLast;
    hide Notices;
    if hand.ownClose {
    } else if !close.wasClean || close.code in {1005, 1006, 1015} {
      Replaced(s, end, s.At(end).(socket := s.At(end).socket.(hand := hand.(readyState := Closed))), still, still);
    } else {
      CloseSocketOk(s, end, close.code, close.reason, still);
    }
  }

  lemma CloseSocketOk(s: State, end: Side, code: int, reason: string, still: set<Side>)
    requires PairOk(s, still)
    ensures Travelled(s, CloseSocket(s, end, code, reason), still)
    ensures s.At(end.Other()).sentClose ==> SameTold(s.At(end), CloseSocket(s, end, code, reason).At(end))
    ensures s.At(end).sentClose ==> SameTold(s.At(end.Other()), CloseSocket(s, end, code, reason).At(end.Other()))
    decreases Unsent(s), 1
  {
    hide ClosedLast;
    hide Notices;
    var socket := s.At(end).socket;
    if socket.hand.readyState == Closed || socket.hand.ownClose || !ValidClose(code, reason) {
    } else {
      var value := s.At(end).(socket := socket.(hand := Owning(socket.hand)));
      var closing := With(s, end, value);
      Replaced(s, end, value, still, still);
      if socket.context == NoContext {
        EndpointCloseOk(closing, end, code, reason, still);
        Chained(s, closing, EndpointClose(closing, end, code, reason), still, still);
      } else if socket.context == Live {
        EnqueueOk(closing, end, WriteClose(code, reason), still);
        Chained(s, closing, Enqueue(closing, end, WriteClose(code, reason)), still, still);
      }
    }
  }

  lemma EnqueueOk(s: State, end: Side, write: Write, still: set<Side>)
    requires PairOk(s, still)
    ensures Travelled(s, Enqueue(s, end, write), still)
    ensures SameTold(s.At(end), Enqueue(s, end, write).At(end))
    ensures s.At(end.Other()) == Enqueue(s, end, write).At(end.Other())
  {
    var socket := s.At(end).socket;
    Replaced(s, end, s.At(end).(socket := socket.(pump := socket.pump + [write])), still, still);
  }

  /** A close was sent, and the other end is about to hear it. */
  lemma SentOk(s: State, end: Side, awaiting: set<Side>)
    requires PairOk(s, awaiting) && !s.At(end).sentClose
    ensures end.Other() !in awaiting
    ensures Travelled(s, Sent(s, end), awaiting + {end.Other()})
  {
    hide ClosedLast;
    hide Notices;
    hide HandOk;
  }

  lemma EndpointCloseOk(s: State, end: Side, code: int, reason: string, still: set<Side>)
    requires PairOk(s, still)
    ensures Travelled(s, EndpointClose(s, end, code, reason), still)
    ensures s.At(end.Other()).sentClose ==> SameTold(s.At(end), EndpointClose(s, end, code, reason).At(end))
    ensures s.At(end).sentClose ==> SameTold(s.At(end.Other()), EndpointClose(s, end, code, reason).At(end.Other()))
    decreases Unsent(s), 0
  {
    hide EndOk;
    if !s.At(end).sentClose {
      var other := end.Other();
      SentOk(s, end, still);
      ReceiveCloseOk(Sent(s, end), other, Close(code, reason, true), still + {other});
      assert still + {other} - {other} == still;
      Chained(s, Sent(s, end), EndpointClose(s, end, code, reason), still + {other}, still);
    }
  }

  // ---------- Connection dropped, and accepted late

  /** Both ends' closes count as sent, and `Unheard` ends are about to hear one. */
  function Unheard(s: State): set<Side> {
    (if s.left.sentClose then {} else {Right}) + (if s.right.sentClose then {} else {Left})
  }

  lemma BothSentOk(s: State, end: Side)
    requires PairOk(s, {})
    ensures Travelled(s, Sent(Sent(s, end), end.Other()), Unheard(s))
  {
    hide ClosedLast;
    hide Notices;
    hide HandOk;
  }

  lemma AbortOk(s: State, end: Side, code: int, reason: string)
    requires PairOk(s, {})
    ensures var r := EndpointAbort(s, end, code, reason); var dropped := [CloseHeard(Close(code, reason, false))];
      && Travelled(s, r, {})
      && Told(r, Left, {}) && Told(r, Right, {})
      && r.left.heard == s.left.heard + (if s.right.sentClose then [] else dropped)
      && r.right.heard == s.right.heard + (if s.left.sentClose then [] else dropped)
  {
    hide EndOk;
    var close := Close(code, reason, false);
    var other := end.Other();
    var sent := Sent(Sent(s, end), other);
    BothSentOk(s, end);
    var told := if s.At(end).sentClose then sent else ReceiveClose(sent, other, close);
    var middle := Unheard(s) - {other};
    if !s.At(end).sentClose {
      ReceiveCloseOk(sent, other, close, Unheard(s));
      Chained(s, sent, told, Unheard(s), middle);
    } else {
      assert middle == Unheard(s);
    }
    if !s.At(other).sentClose {
      ReceiveCloseOk(told, end, close, middle);
      assert middle - {end} == {};
      Chained(s, told, ReceiveClose(told, end, close), middle, {});
    } else {
      assert middle == {};
    }
  }

  lemma {:induction false} ReplayOk(s: State, end: Side, waiting: seq<Heard>)
    requires PairOk(s, {})
    requires Notices(s.At(end).socket.mail) + PendingCloses(waiting) <= (if Told(s, end, {}) then 1 else 0)
    requires s.At(end).socket.mode == Classic
    ensures Travelled(s, Replay(s, end, waiting), {})
    decreases |waiting|
  {
    hide EndOk;
    if waiting == [] {
      SameTravelled(s);
    } else {
      match waiting[0]
      case Message(_) => ReplayOk(s, end, waiting[1..]);
      case CloseHeard(close) =>
        var answered := AnswerPeerClose(s, end, close);
        AnswerOk(s, end, close, {});
        FinishReceiving(s, answered, end, close, {});
        var passed := PassOn(answered, end, close);
        PassedOnOk(answered.At(end).socket.mode, answered.At(end).socket.mail, close);
        ReplayOk(passed, end, waiting[1..]);
        Chained(s, passed, Replay(s, end, waiting), {}, {});
    }
  }

  lemma SameTravelled(s: State)
    requires PairOk(s, {})
    ensures Travelled(s, s, {})
  {
  }

  // ---------- Each step

  ghost predicate Moved(s: State, r: State) {
    && PairOk(r, {})
    && Forward(s.left.socket.hand, r.left.socket.hand, Told(r, Left, {}))
    && Forward(s.right.socket.hand, r.right.socket.hand, Told(r, Right, {}))
  }

  lemma MessageOk(s: State, end: Side, data: nat)
    requires PairOk(s, {})
    ensures Travelled(s, EndpointSend(s, end, data), {})
  {
    hide EndOk;
    if s.At(end).sentClose {
      SameTravelled(s);
    } else {
      var other := end.Other();
      var value := Receive(s, other, data).At(other);
      ReceivedOk(s, other, data);
      Replaced(s, other, value, {}, {});
    }
  }

  /** A message reaches an end that has not heard a close. */
  lemma ReceivedOk(s: State, end: Side, data: nat)
    requires EndOk(s.At(end), false)
    ensures var value := Receive(s, end, data).At(end);
      && EndOk(value, false) && EndTravelled(s.At(end), value, false)
      && value.sentClose == s.At(end).sentClose && Receive(s, end, data) == With(s, end, value)
  {
    PendingAppend(s.At(end).socket.mail.pending, [Message(data)]);
  }

  /** Changes that leave both handshakes and what was heard alone. */
  lemma QuietOk(s: State, r: State)
    requires PairOk(s, {})
    requires r.left.heard == s.left.heard && r.left.sentClose == s.left.sentClose
    requires r.right.heard == s.right.heard && r.right.sentClose == s.right.sentClose
    requires r.left.socket.hand == s.left.socket.hand && r.right.socket.hand == s.right.socket.hand
    requires Notices(r.left.socket.mail) <= Notices(s.left.socket.mail)
    requires Notices(r.right.socket.mail) <= Notices(s.right.socket.mail)
    ensures Moved(s, r)
  {
  }

  lemma MovedChain(s: State, x: State, r: State)
    requires Moved(s, x) && Moved(x, r)
    requires x.left.sentClose ==> r.left.sentClose
    requires x.right.sentClose ==> r.right.sentClose
    ensures Moved(s, r)
  {
    hide EndOk;
  }

  lemma TravelledMoves(s: State, r: State)
    requires Travelled(s, r, {})
    ensures Moved(s, r)
    ensures (s.left.sentClose ==> r.left.sentClose) && (s.right.sentClose ==> r.right.sentClose)
    ensures SameRelease(s, r)
  {
    hide EndOk;
  }

  lemma AcceptOk(s: State, event: Event)
    requires PairOk(s, {}) && event.Accept? && Enabled(s, event)
    ensures Moved(s, Step(s, event))
  {
    var end := event.end;
    var socket := s.At(end).socket;
    var classic := WithSocket(s, end, socket.(mode := Classic, mail := socket.mail.(pending := [])));
    QuietOk(s, classic);
    ReplayOk(classic, end, socket.mail.pending);
  }

  function Dropping(s: State, end: Side): State {
    WithHand(s, end, s.At(end).socket.hand.(readyState := Closed, ownClose := true))
  }

  lemma DroppingOk(s: State, end: Side)
    requires PairOk(s, {})
    ensures PairOk(Dropping(s, end), {}) && SameRelease(s, Dropping(s, end))
  {
  }

  lemma DropOk(s: State, event: Event)
    requires PairOk(s, {}) && event.DropConnection? && Enabled(s, event)
    ensures Moved(s, Step(s, event)) && SameRelease(s, Step(s, event))
  {
    hide PairOk;
    hide EndpointAbort;
    var end := event.end;
    if s.At(end).socket.hand.readyState != Closed {
      DroppingOk(s, end);
      AbortOk(Dropping(s, end), end, 1006, "");
    }
  }

  lemma PumpStepOk(s: State, event: Event)
    requires PairOk(s, {}) && event.Pump? && Enabled(s, event)
    ensures Moved(s, Step(s, event))
  {
    var end := event.end;
    var socket := s.At(end).socket;
    var taken := WithSocket(s, end, socket.(pump := socket.pump[1..]));
    QuietOk(s, taken);
    hide PairOk;
    match socket.pump[0]
    case WriteMessage(data) =>
      MessageOk(taken, end, data);
      TravelledMoves(taken, EndpointSend(taken, end, data));
      MovedChain(s, taken, EndpointSend(taken, end, data));
    case WriteClose(code, reason) =>
      EndpointCloseOk(taken, end, code, reason, {});
      var written := EndpointClose(taken, end, code, reason);
      TravelledMoves(taken, written);
      MovedChain(s, taken, written);
      OwnCloseIsQuiet(written, end);
      MovedChain(s, written, OwnCloseWritten(written, end));
  }

  lemma OwnCloseIsQuiet(s: State, end: Side)
    requires PairOk(s, {})
    ensures Moved(s, OwnCloseWritten(s, end))
    ensures OwnCloseWritten(s, end).left.sentClose == s.left.sentClose
    ensures OwnCloseWritten(s, end).right.sentClose == s.right.sentClose
  {
    QuietOk(s, OwnCloseWritten(s, end));
  }

  lemma {:induction false} CallbacksAreQuiet(s: State, batch: seq<Callback>)
    ensures var r := RunCallbacks(s, batch);
      && r.left == s.left.(socket := s.left.socket.(meta := r.left.socket.meta))
      && r.right == s.right.(socket := s.right.socket.(meta := r.right.socket.meta))
    decreases |batch|
  {
    if batch == [] {
    } else {
      CallbacksAreQuiet(RunCallback(s, batch[0]), batch[1..]);
    }
  }

  lemma SendMoves(s: State, end: Side, data: nat)
    requires PairOk(s, {})
    ensures Moved(s, Step(s, Send(end, data)))
  {
    MessageOk(s, end, data);
    TravelledMoves(s, EndpointSend(s, end, data));
    EnqueueOk(s, end, WriteMessage(data), {});
    TravelledMoves(s, Enqueue(s, end, WriteMessage(data)));
    SameTravelled(s);
    TravelledMoves(s, s);
    hide Moved;
    hide EndpointSend;
    hide Enqueue;
  }

  lemma TransportMoves(s: State, end: Side, code: int, reason: string)
    requires PairOk(s, {})
    ensures Moved(s, EndpointAbort(s, end, code, reason)) && Moved(s, CloseSocket(s, end, code, reason))
  {
    hide PairOk;
    AbortOk(s, end, code, reason);
    TravelledMoves(s, EndpointAbort(s, end, code, reason));
    CloseSocketOk(s, end, code, reason, {});
    TravelledMoves(s, CloseSocket(s, end, code, reason));
  }

  lemma AcceptHibernationMoves(s: State, end: Side)
    requires PairOk(s, {}) && Enabled(s, AcceptHibernation(end))
    ensures Moved(s, Step(s, AcceptHibernation(end)))
  {
    QuietOk(s, Step(s, AcceptHibernation(end)));
  }

  lemma RehydrateMoves(s: State, end: Side)
    requires PairOk(s, {}) && Enabled(s, Rehydrate(end))
    ensures Moved(s, Step(s, Rehydrate(end)))
  {
    QuietOk(s, Step(s, Rehydrate(end)));
  }

  lemma CoupleMoves(s: State, end: Side)
    requires PairOk(s, {})
    ensures Moved(s, Couple(s, end))
  {
    QuietOk(s, Couple(s, end));
  }

  lemma AbortContextMoves(s: State, end: Side)
    requires PairOk(s, {}) && Enabled(s, AbortContext(end))
    ensures Moved(s, Step(s, AbortContext(end)))
  {
    QuietOk(s, Step(s, AbortContext(end)));
  }

  lemma DispatchMoves(s: State, end: Side, index: nat)
    requires PairOk(s, {}) && Enabled(s, Dispatch(end, index))
    ensures Moved(s, Step(s, Dispatch(end, index)))
  {
    hide PairOk;
    QuietOk(s, Step(s, Dispatch(end, index)));
  }

  lemma RefusedMoves(s: State, end: Side, index: nat)
    requires PairOk(s, {}) && Enabled(s, DispatchRefused(end, index))
    ensures Moved(s, Step(s, DispatchRefused(end, index)))
  {
    hide PairOk;
    QuietOk(s, Step(s, DispatchRefused(end, index)));
  }

  lemma EndMoves(s: State)
    requires PairOk(s, {})
    ensures Moved(s, Step(s, CheckpointEnd))
  {
    CallbacksAreQuiet(s.(callbacks := []), s.callbacks);
    QuietOk(s, Step(s, CheckpointEnd));
  }

  lemma StepMoves(s: State, event: Event)
    requires PairOk(s, {}) && Enabled(s, event)
    ensures Moved(s, Step(s, event))
  {
    hide PairOk;
    hide Moved;
    match event
    case Send(end, data) => SendMoves(s, end, data);
    case CallClose(end, code, reason) => TransportMoves(s, end, code, reason);
    case Accept(_) => AcceptOk(s, event);
    case TransportClosed(end, code, reason, _) => TransportMoves(s, end, code, reason);
    case DropConnection(_) => DropOk(s, event);
    case Pump(_) => PumpStepOk(s, event);
    case AcceptHibernation(end) => AcceptHibernationMoves(s, end);
    case Rehydrate(end) => RehydrateMoves(s, end);
    case CoupleToHost(end) => CoupleMoves(s, end);
    case AbortContext(end) => AbortContextMoves(s, end);
    case Dispatch(end, index) => DispatchMoves(s, end, index);
    case DispatchRefused(end, index) => RefusedMoves(s, end, index);
    case CheckpointEnd => EndMoves(s);
  }

  // ---------- Release

  /** A release, or a completion on its way, has an own close written behind it. */
  predicate MetaOk(meta: Metadata) {
    && (meta.completionPending ==> meta.wroteClose)
    && (meta.closeDispatched ==> meta.everDispatched)
    && (meta.released ==> meta.wroteClose && meta.everDispatched)
  }

  predicate CallbackOk(s: State, callback: Callback) {
    callback.Complete? ==>
      s.At(callback.end).socket.mode == Hibernatable && s.At(callback.end).socket.meta.wroteClose
  }

  ghost predicate ReleaseOk(s: State) {
    && MetaOk(s.left.socket.meta) && MetaOk(s.right.socket.meta)
    && forall c :: c in s.callbacks ==> CallbackOk(s, c)
  }

  /** Closes and messages leave standing and callbacks as they are. */
  predicate SameRelease(s: State, r: State) {
    && r.callbacks == s.callbacks && r.coupled == s.coupled
    && SameStanding(s.left.socket, r.left.socket) && SameStanding(s.right.socket, r.right.socket)
  }

  lemma SameReleaseOk(s: State, r: State)
    requires ReleaseOk(s) && SameRelease(s, r)
    ensures ReleaseOk(r)
  {
    forall c | c in r.callbacks ensures CallbackOk(r, c) {
      assert CallbackOk(s, c);
    }
  }

  lemma {:induction false} CallbacksRelease(s: State, batch: seq<Callback>)
    requires ReleaseOk(s) && s.callbacks == [] && forall c :: c in batch ==> CallbackOk(s, c)
    ensures ReleaseOk(RunCallbacks(s, batch)) && RunCallbacks(s, batch).callbacks == []
    decreases |batch|
  {
    if batch == [] {
    } else {
      var next := RunCallback(s, batch[0]);
      assert CallbackOk(s, batch[0]);
      forall c | c in batch[1..] ensures CallbackOk(next, c) {
        assert CallbackOk(s, c);
      }
      CallbacksRelease(next, batch[1..]);
    }
  }

  lemma PumpReleases(s: State, event: Event)
    requires PairOk(s, {}) && ReleaseOk(s) && event.Pump? && Enabled(s, event)
    ensures ReleaseOk(Step(s, event))
  {
    var end := event.end;
    var socket := s.At(end).socket;
    var taken := WithSocket(s, end, socket.(pump := socket.pump[1..]));
    QuietOk(s, taken);
    SameReleaseOk(s, taken);
    match socket.pump[0]
    case WriteMessage(data) =>
      MessageOk(taken, end, data);
      SameReleaseOk(taken, EndpointSend(taken, end, data));
    case WriteClose(code, reason) =>
      EndpointCloseOk(taken, end, code, reason, {});
      var written := EndpointClose(taken, end, code, reason);
      SameReleaseOk(taken, written);
      if socket.mode == Hibernatable {
        OwnCloseReleases(written, end);
      }
  }

  lemma OwnCloseReleases(s: State, end: Side)
    requires ReleaseOk(s) && s.At(end).socket.mode == Hibernatable
    ensures ReleaseOk(OwnCloseWritten(s, end))
  {
    var r := OwnCloseWritten(s, end);
    forall c | c in r.callbacks ensures CallbackOk(r, c) {
      assert c in s.callbacks ==> CallbackOk(s, c);
    }
  }

  lemma SendReleases(s: State, end: Side, data: nat)
    requires PairOk(s, {}) && ReleaseOk(s)
    ensures ReleaseOk(Step(s, Send(end, data)))
  {
    hide PairOk;
    hide ReleaseOk;
    MessageOk(s, end, data);
    TravelledMoves(s, EndpointSend(s, end, data));
    SameReleaseOk(s, Step(s, Send(end, data)));
  }

  lemma TransportReleases(s: State, end: Side, code: int, reason: string, wasClean: bool)
    requires PairOk(s, {}) && ReleaseOk(s)
    ensures ReleaseOk(EndpointAbort(s, end, code, reason)) && ReleaseOk(CloseSocket(s, end, code, reason))
  {
    hide PairOk;
    hide ReleaseOk;
    AbortOk(s, end, code, reason);
    TravelledMoves(s, EndpointAbort(s, end, code, reason));
    SameReleaseOk(s, EndpointAbort(s, end, code, reason));
    CloseSocketOk(s, end, code, reason, {});
    TravelledMoves(s, CloseSocket(s, end, code, reason));
    SameReleaseOk(s, CloseSocket(s, end, code, reason));
  }

  lemma StepReleases(s: State, event: Event)
    requires PairOk(s, {}) && ReleaseOk(s) && Enabled(s, event)
    ensures ReleaseOk(Step(s, event))
  {
    hide PairOk;
    hide ReleaseOk;
    match event
    case Send(end, data) => SendReleases(s, end, data);
    case CallClose(end, code, reason) => TransportReleases(s, end, code, reason, true);
    case TransportClosed(end, code, reason, wasClean) => TransportReleases(s, end, code, reason, wasClean);
    case Accept(_) => AcceptReleases(s, event);
    case DropConnection(_) => DropReleases(s, event);
    case Pump(_) => PumpReleases(s, event);
    case CheckpointEnd => EndReleases(s);
    case AcceptHibernation(end) => AcceptHibernationReleases(s, end);
    case Rehydrate(end) => RehydrateReleases(s, end);
    case CoupleToHost(end) => CoupleReleases(s, end);
    case AbortContext(end) => AbortReleases(s, end);
    case Dispatch(end, index) => DispatchReleases(s, end, index);
    case DispatchRefused(end, index) => RefusedReleases(s, end, index);
  }

  lemma EndReleases(s: State)
    requires ReleaseOk(s)
    ensures ReleaseOk(Step(s, CheckpointEnd))
  {
    var started := s.(callbacks := []);
    assert forall c :: c in s.callbacks ==> CallbackOk(started, c) by {
      forall c | c in s.callbacks ensures CallbackOk(started, c) {
        assert CallbackOk(s, c);
      }
    }
    CallbacksRelease(started, s.callbacks);
  }

  lemma AcceptReleases(s: State, event: Event)
    requires PairOk(s, {}) && ReleaseOk(s) && event.Accept? && Enabled(s, event)
    ensures ReleaseOk(Step(s, event))
  {
    var end := event.end;
    var socket := s.At(end).socket;
    var classic := WithSocket(s, end, socket.(mode := Classic, mail := socket.mail.(pending := [])));
    QuietOk(s, classic);
    ReplayOk(classic, end, socket.mail.pending);
    TravelledMoves(classic, Step(s, event));
    hide PairOk;
    hide Replay;
    BecomingClassic(s, end);
    SameReleaseOk(classic, Step(s, event));
  }

  lemma BecomingClassic(s: State, end: Side)
    requires ReleaseOk(s) && s.At(end).socket.mode == Pending
    ensures ReleaseOk(WithSocket(s, end, s.At(end).socket.(mode := Classic, mail := s.At(end).socket.mail.(pending := []))))
  {
    StillReleases(s, WithSocket(s, end, s.At(end).socket.(mode := Classic, mail := s.At(end).socket.mail.(pending := []))));
  }

  lemma DropReleases(s: State, event: Event)
    requires PairOk(s, {}) && ReleaseOk(s) && event.DropConnection? && Enabled(s, event)
    ensures ReleaseOk(Step(s, event))
  {
    DropOk(s, event);
    SameReleaseOk(s, Step(s, event));
  }

  lemma CoupleReleases(s: State, end: Side)
    requires ReleaseOk(s) && s.At(end).socket.mode == Pending
    ensures ReleaseOk(Couple(s, end))
  {
    var r := Couple(s, end);
    forall c | c in r.callbacks ensures CallbackOk(r, c) {
      assert CallbackOk(s, c);
    }
  }

  lemma DispatchReleases(s: State, end: Side, index: nat)
    requires ReleaseOk(s) && Enabled(s, Dispatch(end, index))
    ensures ReleaseOk(Step(s, Dispatch(end, index)))
  {
    var r := Step(s, Dispatch(end, index));
    forall c | c in r.callbacks ensures CallbackOk(r, c) {
      assert c in s.callbacks ==> CallbackOk(s, c);
    }
  }

  /** Same callbacks, standing that can only be gained, and metadata in order. */
  lemma StillReleases(s: State, r: State)
    requires ReleaseOk(s) && r.callbacks == s.callbacks
    requires MetaOk(r.left.socket.meta) && MetaOk(r.right.socket.meta)
    requires s.left.socket.mode == Hibernatable ==> r.left.socket.mode == Hibernatable
    requires s.right.socket.mode == Hibernatable ==> r.right.socket.mode == Hibernatable
    requires s.left.socket.meta.wroteClose ==> r.left.socket.meta.wroteClose
    requires s.right.socket.meta.wroteClose ==> r.right.socket.meta.wroteClose
    ensures ReleaseOk(r)
  {
    forall c | c in r.callbacks ensures CallbackOk(r, c) {
      assert CallbackOk(s, c);
    }
  }

  lemma AcceptHibernationReleases(s: State, end: Side)
    requires ReleaseOk(s) && Enabled(s, AcceptHibernation(end))
    ensures ReleaseOk(Step(s, AcceptHibernation(end)))
  {
    StillReleases(s, Step(s, AcceptHibernation(end)));
  }

  lemma RehydrateReleases(s: State, end: Side)
    requires ReleaseOk(s) && Enabled(s, Rehydrate(end))
    ensures ReleaseOk(Step(s, Rehydrate(end)))
  {
    StillReleases(s, Step(s, Rehydrate(end)));
  }

  lemma AbortReleases(s: State, end: Side)
    requires ReleaseOk(s) && Enabled(s, AbortContext(end))
    ensures ReleaseOk(Step(s, AbortContext(end)))
  {
    StillReleases(s, Step(s, AbortContext(end)));
  }

  lemma CompletionReleases(s: State, end: Side)
    requires ReleaseOk(s)
    ensures s.At(end).socket.meta.completionPending ==> ReleaseOk(CompleteOwnClose(s, end))
  {
    if s.At(end).socket.meta.completionPending {
      StillReleases(s, CompleteOwnClose(s, end));
    }
  }

  lemma RefusedReleases(s: State, end: Side, index: nat)
    requires ReleaseOk(s) && Enabled(s, DispatchRefused(end, index))
    ensures ReleaseOk(Step(s, DispatchRefused(end, index)))
  {
    var socket := s.At(end).socket;
    var dropped := WithMail(s, end, socket.mail.(scheduled := Without(socket.mail.scheduled, index)));
    StillReleases(s, dropped);
    CompletionReleases(dropped, end);
  }

  // ---------- Runs

  lemma {:induction false} RunOk(s: State, events: seq<Event>)
    requires PairOk(s, {}) && ReleaseOk(s) && Possible(s, events)
    ensures PairOk(Run(s, events), {}) && ReleaseOk(Run(s, events))
    decreases |events|
  {
    if events == [] {
    } else {
      StepMoves(s, events[0]);
      StepReleases(s, events[0]);
      RunOk(Step(s, events[0]), events[1..]);
    }
  }

  /**
   * Each end hears one close and no message after it exactly when the other end's close was sent,
   * and only messages until then; and at most that one close reaches its listeners or its registry.
   */
  lemma OneCloseThenSilence(events: seq<Event>, end: Side)
    requires Possible(INITIAL, events)
    ensures var s := Run(INITIAL, events);
      && ClosedLast(s.At(end).heard, s.At(end.Other()).sentClose)
      && Notices(s.At(end).socket.mail) <= (if s.At(end.Other()).sentClose then 1 else 0)
  {
    RunOk(INITIAL, events);
  }

  /** `readyState` is the handshake's state: open before any close, closed once both closes are in. */
  lemma ReadyStateIsTheHandshake(events: seq<Event>, end: Side)
    requires Possible(INITIAL, events)
    ensures var s := Run(INITIAL, events);
      var hand, heard := s.At(end).socket.hand, s.At(end.Other()).sentClose;
      && (hand.readyState == Open <==> !hand.ownClose && !heard)
      && (hand.ownClose && heard ==> hand.readyState == Closed)
      && (hand.readyState == Closed && !hand.ownClose ==> heard)
  {
    RunOk(INITIAL, events);
  }

  /** No event moves a `readyState` backward, and one that closes a socket leaves its end told of a close. */
  lemma ReadyStateNeverMovesBackward(events: seq<Event>, event: Event, end: Side)
    requires Possible(INITIAL, events) && Enabled(Run(INITIAL, events), event)
    ensures var s := Run(INITIAL, events); var r := Step(s, event);
      && s.At(end).socket.hand.readyState.Rank() <= r.At(end).socket.hand.readyState.Rank()
      && (s.At(end).socket.hand.readyState != Closed && r.At(end).socket.hand.readyState == Closed ==>
            r.At(end.Other()).sentClose)
  {
    RunOk(INITIAL, events);
    StepMoves(Run(INITIAL, events), event);
  }

  lemma TransportTells(s: State, end: Side, code: int, reason: string, wasClean: bool)
    requires PairOk(s, {}) && (!wasClean || !ValidClose(code, reason))
    ensures var r := Step(s, TransportClosed(end, code, reason, wasClean));
      var dropped := [CloseHeard(Close(code, reason, false))];
      && r.left.sentClose && r.right.sentClose
      && r.left.heard == s.left.heard + (if s.right.sentClose then [] else dropped)
      && r.right.heard == s.right.heard + (if s.left.sentClose then [] else dropped)
  {
    hide PairOk;
    hide EndpointAbort;
    AbortOk(s, end, code, reason);
  }

  /** A lost transport is told, in its own words and unclean, to exactly the ends no close was sent to. */
  lemma LostTransportTellsBothEnds(events: seq<Event>, end: Side, code: int, reason: string, wasClean: bool)
    requires Possible(INITIAL, events) && (!wasClean || !ValidClose(code, reason))
    ensures var s := Run(INITIAL, events); var r := Step(s, TransportClosed(end, code, reason, wasClean));
      var dropped := [CloseHeard(Close(code, reason, false))];
      && r.left.sentClose && r.right.sentClose
      && r.left.heard == s.left.heard + (if s.right.sentClose then [] else dropped)
      && r.right.heard == s.right.heard + (if s.left.sentClose then [] else dropped)
  {
    RunOk(INITIAL, events);
    TransportTells(Run(INITIAL, events), end, code, reason, wasClean);
  }

  /** A socket is released only after its own close was written and a close event was dispatched. */
  lemma ReleasedOnlyAfterBoth(events: seq<Event>, end: Side)
    requires Possible(INITIAL, events) && Run(INITIAL, events).At(end).socket.meta.released
    ensures Run(INITIAL, events).At(end).socket.meta.wroteClose
    ensures Run(INITIAL, events).At(end).socket.meta.everDispatched
  {
    RunOk(INITIAL, events);
  }

  /** A close written after the close event was dispatched releases the socket at the checkpoint's end. */
  lemma CloseAfterDispatchReleases(events: seq<Event>, end: Side, code: int, reason: string)
    requires Possible(INITIAL, events)
    requires var socket := Run(INITIAL, events).At(end).socket;
      && socket.mode == Hibernatable && socket.meta.closeDispatched
      && socket.pump != [] && socket.pump[0] == WriteClose(code, reason)
    ensures var s := Step(Run(INITIAL, events), Pump(end));
      Step(s, CheckpointEnd).At(end).socket.meta.released
  {
    RunOk(INITIAL, events);
    WritingCompletes(Run(INITIAL, events), end, code, reason);
  }

  lemma WritingCompletes(s: State, end: Side, code: int, reason: string)
    requires PairOk(s, {})
    requires var socket := s.At(end).socket;
      && socket.mode == Hibernatable && socket.meta.closeDispatched
      && socket.pump != [] && socket.pump[0] == WriteClose(code, reason)
    ensures Step(Step(s, Pump(end)), CheckpointEnd).At(end).socket.meta.released
  {
    hide EndpointClose;
    hide RunCallbacks;
    var socket := s.At(end).socket;
    var taken := WithSocket(s, end, socket.(pump := socket.pump[1..]));
    TakingOk(s, end);
    EndpointCloseOk(taken, end, code, reason, {});
    hide PairOk;
    var closed := EndpointClose(taken, end, code, reason);
    TravelledMoves(taken, closed);
    WrittenCompletes(closed, end);
    CompletesOnce(OwnCloseWritten(closed, end).(callbacks := []), OwnCloseWritten(closed, end).callbacks, end);
  }

  lemma TakingOk(s: State, end: Side)
    requires PairOk(s, {}) && s.At(end).socket.pump != []
    ensures PairOk(WithSocket(s, end, s.At(end).socket.(pump := s.At(end).socket.pump[1..])), {})
  {
    QuietOk(s, WithSocket(s, end, s.At(end).socket.(pump := s.At(end).socket.pump[1..])));
  }

  lemma WrittenCompletes(s: State, end: Side)
    requires s.At(end).socket.meta.closeDispatched
    ensures Complete(end) in OwnCloseWritten(s, end).callbacks
    ensures OwnCloseWritten(s, end).At(end).socket.meta.closeDispatched
  {
  }

  lemma {:induction false} CompletesOnce(s: State, batch: seq<Callback>, end: Side)
    requires s.At(end).socket.meta.closeDispatched
    requires Complete(end) in batch || s.At(end).socket.meta.released
    ensures RunCallbacks(s, batch).At(end).socket.meta.released
    decreases |batch|
  {
    if batch == [] {
    } else {
      CompletesOnce(RunCallback(s, batch[0]), batch[1..], end);
    }
  }
}

module SocketPair {
  import opened SocketPairModel

  class WebSocketPair {
    var left: End
    var right: End
    var coupled: bool
    var callbacks: seq<Callback>

    ghost function Model(): State
      reads this
    {
      State(left, right, coupled, callbacks)
    }

    constructor ()
      ensures Model() == INITIAL
    {
      left, right := End(false, [], FRESH_SOCKET), End(false, [], FRESH_SOCKET);
      coupled, callbacks := false, [];
    }

    function At(end: Side): End
      reads this
    {
      if end.Left? then left else right
    }

    method Put(end: Side, value: End)
      modifies this`left, this`right
      ensures Model() == With(old(Model()), end, value)
    {
      if end.Left? {
        left := value;
      } else {
        right := value;
      }
    }

    method PutHand(end: Side, hand: Handshake)
      modifies this`left, this`right
      ensures Model() == WithHand(old(Model()), end, hand)
    {
      Put(end, At(end).(socket := At(end).socket.(hand := hand)));
    }

    method ReceiveMessage(end: Side, data: nat)
      modifies this`left, this`right
      ensures Model() == Receive(old(Model()), end, data)
    {
      var mail := At(end).socket.mail;
      match At(end).socket.mode {
        case Pending => mail := mail.(pending := mail.pending + [Message(data)]);
        case Classic =>
        case Hibernatable => mail := mail.(scheduled := mail.scheduled + [false]);
      }
      var heard := Hearing(At(end), Message(data));
      Put(end, heard.(socket := heard.socket.(mail := mail)));
    }

    method ReceiveClose(end: Side, close: Close)
      modifies this`left, this`right
      ensures Model() == SocketPairModel.ReceiveClose(old(Model()), end, close)
      decreases Unsent(Model()), 3
    {
      var before := At(end).socket;
      var heard := Hearing(At(end), CloseHeard(close));
      if before.hand.ownClose {
        Put(end, heard.(socket := before.(hand := before.hand.(readyState := Closed))));
      } else {
        Put(end, heard.(socket := before.(hand := before.hand.(peerClose := true, readyState := Closing))));
        if before.mode == Classic {
          AnswerPeerClose(end, close);
        }
      }
      PassOn(end, close);
    }

    method PassOn(end: Side, close: Close)
      modifies this`left, this`right
      ensures Model() == SocketPairModel.PassOn(old(Model()), end, close)
    {
      var socket := At(end).socket;
      Put(end, At(end).(socket := socket.(mail := PassedOn(socket.mode, socket.mail, close))));
    }

    method AnswerPeerClose(end: Side, close: Close)
      modifies this`left, this`right
      ensures Model() == SocketPairModel.AnswerPeerClose(old(Model()), end, close)
      decreases Unsent(Model()), 2
    {
      var hand := At(end).socket.hand;
      if hand.ownClose {
        return;
      }
      if !close.wasClean || close.code in {1005, 1006, 1015} {
        PutHand(end, hand.(readyState := Closed));
      } else {
        CloseSocket(end, close.code, close.reason);
      }
    }

    method CloseSocket(end: Side, code: int, reason: string)
      modifies this`left, this`right
      ensures Model() == SocketPairModel.CloseSocket(old(Model()), end, code, reason)
      decreases Unsent(Model()), 1
    {
      var socket := At(end).socket;
      var hand := socket.hand;
      if hand.readyState == Closed || hand.ownClose || !ValidClose(code, reason) {
        return;
      }
      PutHand(end, hand.(ownClose := true, readyState := if hand.peerClose then Closed else Closing));
      match socket.context
      case NoContext => EndpointClose(end, code, reason);
      case Aborted =>
      case Live =>
        var closing := At(end).socket;
        Put(end, At(end).(socket := closing.(pump := closing.pump + [WriteClose(code, reason)])));
    }

    method EndpointClose(end: Side, code: int, reason: string)
      modifies this`left, this`right
      ensures Model() == SocketPairModel.EndpointClose(old(Model()), end, code, reason)
      decreases Unsent(Model()), 0
    {
      if At(end).sentClose {
        return;
      }
      Put(end, At(end).(sentClose := true));
      ReceiveClose(end.Other(), Close(code, reason, true));
    }

    method EndpointAbort(end: Side, code: int, reason: string)
      modifies this`left, this`right
      ensures Model() == SocketPairModel.EndpointAbort(old(Model()), end, code, reason)
    {
      var other := end.Other();
      var otherUnheard, endUnheard := !At(end).sentClose, !At(other).sentClose;
      Put(end, At(end).(sentClose := true));
      Put(other, At(other).(sentClose := true));
      if otherUnheard {
        ReceiveClose(other, Close(code, reason, false));
      }
      if endUnheard {
        ReceiveClose(end, Close(code, reason, false));
      }
    }

    method AcceptSocket(end: Side)
      requires Enabled(Model(), Accept(end))
      modifies this
      ensures Model() == Step(old(Model()), Accept(end))
    {
      var socket := At(end).socket;
      var waiting := socket.mail.pending;
      Put(end, At(end).(socket := socket.(mode := Classic, mail := socket.mail.(pending := []))));
      ghost var classic := Model();
      for i := 0 to |waiting|
        invariant Replay(Model(), end, waiting[i..]) == Replay(classic, end, waiting)
      {
        assert waiting[i..][0] == waiting[i] && waiting[i..][1..] == waiting[i + 1..];
        if waiting[i].CloseHeard? {
          AnswerPeerClose(end, waiting[i].close);
          PassOn(end, waiting[i].close);
        }
      }
    }

    method CoupleSocket(end: Side)
      requires Enabled(Model(), CoupleToHost(end))
      modifies this
      ensures Model() == Step(old(Model()), CoupleToHost(end))
    {
      var pending := At(end.Other()).socket.meta.completionPending;
      Put(end, At(end).(socket := HostSocket(At(end).socket)));
      coupled := true;
      if pending {
        FinishOwnClose(end.Other());
      }
    }

    method FinishOwnClose(end: Side)
      modifies this`left, this`right
      ensures Model() == CompleteOwnClose(old(Model()), end)
    {
      var socket := At(end).socket;
      var meta := socket.meta.(completionPending := false);
      if meta.closeDispatched {
        meta := meta.(released := true);
      }
      Put(end, At(end).(socket := socket.(meta := meta)));
    }

    method LoseTransport(end: Side, code: int, reason: string, wasClean: bool)
      modifies this
      ensures Model() == Step(old(Model()), TransportClosed(end, code, reason, wasClean))
    {
      if !wasClean || !ValidClose(code, reason) {
        EndpointAbort(end, code, reason);
      } else {
        CloseSocket(end, code, reason);
      }
    }

    method DropWith(end: Side)
      requires Enabled(Model(), DropConnection(end))
      modifies this
      ensures Model() == Step(old(Model()), DropConnection(end))
    {
      var hand := At(end).socket.hand;
      if hand.readyState != Closed {
        PutHand(end, hand.(readyState := Closed, ownClose := true));
        EndpointAbort(end, 1006, "");
      }
    }

    /** The pump's next write. */
    method PumpNext(end: Side)
      requires Enabled(Model(), Pump(end))
      modifies this
      ensures Model() == Step(old(Model()), Pump(end))
    {
      var socket := At(end).socket;
      Put(end, At(end).(socket := socket.(pump := socket.pump[1..])));
      match socket.pump[0]
      case WriteMessage(data) =>
        if !At(end).sentClose {
          ReceiveMessage(end.Other(), data);
        }
      case WriteClose(code, reason) =>
        EndpointClose(end, code, reason);
        if socket.mode == Hibernatable {
          OwnCloseWritten(end);
        }
    }

    method OwnCloseWritten(end: Side)
      modifies this
      ensures Model() == SocketPairModel.OwnCloseWritten(old(Model()), end)
    {
      var socket := At(end).socket;
      var meta := socket.meta.(wroteClose := true);
      if !coupled && !meta.closeDispatched {
        meta := meta.(completionPending := true);
      } else {
        callbacks := callbacks + [Complete(end)];
      }
      Put(end, At(end).(socket := socket.(meta := meta)));
    }

    method RunCheckpointEnds()
      modifies this
      ensures Model() == Step(old(Model()), CheckpointEnd)
    {
      var batch := callbacks;
      callbacks := [];
      ghost var started := Model();
      for i := 0 to |batch|
        invariant RunCallbacks(Model(), batch[i..]) == RunCallbacks(started, batch)
      {
        assert batch[i..][0] == batch[i] && batch[i..][1..] == batch[i + 1..];
        if batch[i].Complete? || At(batch[i].end).socket.meta.completionPending {
          FinishOwnClose(batch[i].end);
        }
      }
    }
  }
}
