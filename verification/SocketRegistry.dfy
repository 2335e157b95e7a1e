/**
 * The hibernatable socket registry of `src/api/web-socket.ts` and the host that mirrors it,
 * `src/server/hibernation-mirror.ts`. Containers come and go; a transport keeps its metadata, and
 * each container starts from what the mirror of the last one lists.
 */
module RegistryModel {
  import opened Prelude

  type Bytes = seq<bv8>

  const MAX_HIBERNATABLE_SOCKETS := 32_768
  const MAX_TAGS := 10
  const MAX_TAG_LENGTH := 256
  const MAX_AUTO_RESPONSE_BYTES := 2_048

  datatype AutoPair = AutoPair(request: string, response: string)

  /** What the mirror keeps of one transport. */
  datatype Mirrored = Mirrored(raw: nat, tags: seq<string>, attachment: Option<Bytes>, timestamp: Option<int>)

  datatype Mirror = Mirror(entries: seq<Mirrored>, auto: Option<AutoPair>)

  /** A call of the host's callbacks. */
  datatype Call =
    | Accepted(raw: nat, tags: seq<string>)
    | Attached(raw: nat, bytes: Bytes)
    | Answered(raw: nat, timestamp: int)
    | AutoResponse(pair: Option<AutoPair>)
    | Closed(raw: nat)

  /** `written` is the attachment written since this container registered the transport, or brought along. */
  datatype Entry = Entry(raw: nat, tags: seq<string>, timestamp: Option<int>, written: Option<Bytes>)

  datatype State = State(
    accepted: set<nat>,          // transports accepted ever, classic or hibernatable
    attachments: map<nat, Bytes>,
    entries: seq<Entry>,
    auto: Option<AutoPair>,
    live: bool,                  // a container exists
    base: Mirror,                // what it was constructed with
    calls: seq<Call>)            // the host callbacks since

  const EMPTY := Mirror([], None)
  const INITIAL := State({}, map[], [], None, true, EMPTY, [])

  datatype Event =
    | AcceptClassic(raw: nat)
    | AcceptWebSocket(raw: nat, tags: seq<string>, admitted: bool)
    | SerializeAttachment(raw: nat, bytes: Bytes)
    | AnswerAutomatically(raw: nat, now: int)
    | SetAutoResponse(pair: Option<AutoPair>)
    | CloseSettled(raw: nat)
    | Evict
    | HostAnswers(raw: nat, now: int)
    | Respawn

  // ---------- Tags

  function Deduplicated(tags: seq<string>): seq<string> {
    if tags == [] then []
    else
      var before, last := Deduplicated(tags[..|tags| - 1]), tags[|tags| - 1];
      if last in before then before else before + [last]
  }

  /** None when the source throws. */
  function NormalizeTags(tags: seq<string>): Option<seq<string>> {
    if |tags| > MAX_TAGS then None
    else if exists t :: t in Deduplicated(tags) && |t| > MAX_TAG_LENGTH then None
    else Some(Deduplicated(tags))
  }

  function Removed<T>(list: seq<T>, i: nat): seq<T>
    requires i < |list|
  {
    list[..i] + list[i + 1..]
  }

  // ---------- The mirror

  /** Where a transport is listed, `|entries|` when it is not. */
  function Position(entries: seq<Mirrored>, raw: nat): (i: nat)
    ensures i <= |entries| && (i < |entries| ==> entries[i].raw == raw)
  {
    if entries == [] then 0 else if entries[0].raw == raw then 0 else 1 + Position(entries[1..], raw)
  }

  predicate Lists(entries: seq<Mirrored>, raw: nat) {
    Position(entries, raw) < |entries|
  }

  function PutMirrored(entries: seq<Mirrored>, entry: Mirrored): seq<Mirrored> {
    if Lists(entries, entry.raw) then entries[Position(entries, entry.raw) := entry] else entries + [entry]
  }

  function AttachMirrored(entries: seq<Mirrored>, raw: nat, bytes: Bytes): seq<Mirrored> {
    var i := Position(entries, raw);
    if i < |entries| then entries[i := entries[i].(attachment := Some(bytes))] else entries
  }

  function StampMirrored(entries: seq<Mirrored>, raw: nat, timestamp: int): seq<Mirrored> {
    var i := Position(entries, raw);
    if i < |entries| then entries[i := entries[i].(timestamp := Some(timestamp))] else entries
  }

  function DropMirrored(entries: seq<Mirrored>, raw: nat): seq<Mirrored> {
    var i := Position(entries, raw);
    if i < |entries| then Removed(entries, i) else entries
  }

  /** The mirror after a call, or none if it throws. */
  function ApplyCall(mirror: Mirror, call: Call): Option<Mirror> {
    match call
    case Accepted(raw, tags) =>
      Some(mirror.(entries := PutMirrored(mirror.entries, Mirrored(raw, tags, None, None))))
    case Attached(raw, bytes) =>
      if Lists(mirror.entries, raw) then Some(mirror.(entries := AttachMirrored(mirror.entries, raw, bytes))) else None
    case Answered(raw, timestamp) =>
      if Lists(mirror.entries, raw) then Some(mirror.(entries := StampMirrored(mirror.entries, raw, timestamp)))
      else None
    case AutoResponse(pair) => Some(mirror.(auto := pair))
    case Closed(raw) => Some(mirror.(entries := DropMirrored(mirror.entries, raw)))
  }

  function Replay(base: Mirror, calls: seq<Call>): Option<Mirror> {
    if calls == [] then Some(base)
    else
      match Replay(base, calls[..|calls| - 1])
      case None => None
      case Some(mirror) => ApplyCall(mirror, calls[|calls| - 1])
  }

  // ---------- The registry

  function Index(entries: seq<Entry>, raw: nat): (i: nat)
    ensures i <= |entries| && (i < |entries| ==> entries[i].raw == raw)
  {
    if entries == [] then 0 else if entries[0].raw == raw then 0 else 1 + Index(entries[1..], raw)
  }

  predicate Listed(entries: seq<Entry>, raw: nat) {
    Index(entries, raw) < |entries|
  }

  function Attach(entries: seq<Entry>, raw: nat, bytes: Bytes): seq<Entry> {
    var i := Index(entries, raw);
    if i < |entries| then entries[i := entries[i].(written := Some(bytes))] else entries
  }

  function Stamp(entries: seq<Entry>, raw: nat, timestamp: int): seq<Entry> {
    var i := Index(entries, raw);
    if i < |entries| then entries[i := entries[i].(timestamp := Some(timestamp))] else entries
  }

  function Drop(entries: seq<Entry>, raw: nat): seq<Entry> {
    var i := Index(entries, raw);
    if i < |entries| then Removed(entries, i) else entries
  }

  function Rehydrated(value: Mirrored): Entry {
    Entry(value.raw, Deduplicated(value.tags), value.timestamp, value.attachment)
  }

  function RehydratedAll(values: seq<Mirrored>): (entries: seq<Entry>)
    ensures |entries| == |values|
  {
    if values == [] then [] else RehydratedAll(values[..|values| - 1]) + [Rehydrated(values[|values| - 1])]
  }

  function Raws(values: seq<Mirrored>): set<nat> {
    if values == [] then {} else Raws(values[..|values| - 1]) + {values[|values| - 1].raw}
  }

  predicate FitsAuto(pair: AutoPair) {
    Utf8Length(pair.request) <= MAX_AUTO_RESPONSE_BYTES && Utf8Length(pair.response) <= MAX_AUTO_RESPONSE_BYTES
  }

  function Snapshot(s: State): Mirror {
    match Replay(s.base, s.calls) case Some(mirror) => mirror case None => s.base
  }

  /** Attachments as a rehydration leaves them: one brought along replaces what the transport carried. */
  function Carried(attachments: map<nat, Bytes>, values: seq<Mirrored>): map<nat, Bytes> {
    if values == [] then attachments
    else
      var last := values[|values| - 1];
      var before := Carried(attachments, values[..|values| - 1]);
      if last.attachment.Some? then before[last.raw := last.attachment.value] else before
  }

  predicate Enabled(s: State, event: Event) {
    match event
    case Evict => s.live
    case HostAnswers(raw, _) => !s.live && Lists(Snapshot(s).entries, raw)
    case Respawn => !s.live
    case _ => s.live
  }

  function Step(s: State, event: Event): State
    requires Enabled(s, event)
  {
    match event
    case AcceptClassic(raw) => s.(accepted := s.accepted + {raw})
    case AcceptWebSocket(raw, tags, admitted) =>
      var normalized := NormalizeTags(tags);
      if raw in s.accepted || |s.entries| >= MAX_HIBERNATABLE_SOCKETS || normalized.None? || !admitted then s
      else
        s.(accepted := s.accepted + {raw},
           entries := s.entries + [Entry(raw, normalized.value, None, None)],
           calls := s.calls + [Accepted(raw, normalized.value)])
    case SerializeAttachment(raw, bytes) =>
      var attached := s.(attachments := s.attachments[raw := bytes]);
      if !Listed(s.entries, raw) then attached
      else attached.(entries := Attach(s.entries, raw, bytes), calls := s.calls + [Attached(raw, bytes)])
    case AnswerAutomatically(raw, now) =>
      if !Listed(s.entries, raw) || s.auto.None? then s
      else s.(entries := Stamp(s.entries, raw, now), calls := s.calls + [Answered(raw, now)])
    case SetAutoResponse(pair) =>
      if pair.Some? && !FitsAuto(pair.value) then s
      else s.(auto := pair, calls := s.calls + [AutoResponse(pair)])
    case CloseSettled(raw) =>
      if !Listed(s.entries, raw) then s
      else s.(entries := Drop(s.entries, raw), calls := s.calls + [Closed(raw)])
    case Evict => s.(live := false)
    case HostAnswers(raw, now) => s.(calls := s.calls + [Answered(raw, now)])
    case Respawn =>
      var base := Snapshot(s);
      s.(accepted := s.accepted + Raws(base.entries),
         attachments := Carried(s.attachments, base.entries),
         entries := RehydratedAll(base.entries),
         auto := base.auto,
         live := true,
         base := base,
         calls := if base.auto.Some? then [AutoResponse(base.auto)] else [])
  }

  predicate Possible(s: State, events: seq<Event>)
    decreases |events|
  {
    events == [] || (Enabled(s, events[0]) && Possible(Step(s, events[0]), events[1..]))
  }

  function Run(s: State, events: seq<Event>): State
    requires Possible(s, events)
    decreases |events|
  {
    if events == [] then s else Run(Step(s, events[0]), events[1..])
  }
}

module RegistryTheorems {
  import opened Prelude
  import opened RegistryModel

  /** What a mirror should list of a registry. */
  function View(entries: seq<Entry>): (view: seq<Mirrored>)
    ensures |view| == |entries|
    ensures forall i :: 0 <= i < |entries| ==>
      view[i] == Mirrored(entries[i].raw, entries[i].tags, entries[i].written, entries[i].timestamp)
  {
    if entries == [] then []
    else [Mirrored(entries[0].raw, entries[0].tags, entries[0].written, entries[0].timestamp)] + View(entries[1..])
  }

  predicate Distinct(entries: seq<Mirrored>) {
    forall i, j :: 0 <= i < j < |entries| ==> entries[i].raw != entries[j].raw
  }

  predicate Normal(tags: seq<string>) {
    NormalizeTags(tags) == Some(tags)
  }

  // ---------- Tags

  lemma {:induction false} DeduplicatedKeeps(tags: seq<string>)
    ensures |Deduplicated(tags)| <= |tags|
    ensures forall t :: t in Deduplicated(tags) <==> t in tags
    ensures forall i, j :: 0 <= i < j < |Deduplicated(tags)| ==> Deduplicated(tags)[i] != Deduplicated(tags)[j]
  {
    if tags == [] {
    } else {
      DeduplicatedKeeps(tags[..|tags| - 1]);
      assert tags == tags[..|tags| - 1] + [tags[|tags| - 1]];
    }
  }

  lemma {:induction false} DistinctIsDeduplicated(tags: seq<string>)
    requires forall i, j :: 0 <= i < j < |tags| ==> tags[i] != tags[j]
    ensures Deduplicated(tags) == tags
  {
    if tags == [] {
    } else {
      var before := tags[..|tags| - 1];
      DistinctIsDeduplicated(before);
      assert tags[|tags| - 1] !in before;
      assert tags == before + [tags[|tags| - 1]];
    }
  }

  /** Normalized tags are distinct, within the limits, and normalize to themselves, so rehydrating keeps them. */
  lemma NormalizingTwice(tags: seq<string>)
    requires NormalizeTags(tags).Some?
    ensures var normalized := NormalizeTags(tags).value;
      && Normal(normalized)
      && (forall t :: t in normalized <==> t in tags)
      && (forall i, j :: 0 <= i < j < |normalized| ==> normalized[i] != normalized[j])
  {
    DeduplicatedKeeps(tags);
    DistinctIsDeduplicated(Deduplicated(tags));
  }

  // ---------- Replaying one call

  lemma {:induction false} FirstPosition(entries: seq<Mirrored>, raw: nat)
    ensures forall j :: 0 <= j < Position(entries, raw) ==> entries[j].raw != raw
  {
    if entries != [] && entries[0].raw != raw {
      FirstPosition(entries[1..], raw);
      forall j | 0 <= j < Position(entries, raw) ensures entries[j].raw != raw {
        assert j > 0 ==> entries[j] == entries[1..][j - 1];
      }
    }
  }

  lemma {:induction false} FirstIndex(entries: seq<Entry>, raw: nat)
    ensures forall j :: 0 <= j < Index(entries, raw) ==> entries[j].raw != raw
  {
    if entries != [] && entries[0].raw != raw {
      FirstIndex(entries[1..], raw);
      forall j | 0 <= j < Index(entries, raw) ensures entries[j].raw != raw {
        assert j > 0 ==> entries[j] == entries[1..][j - 1];
      }
    }
  }

  lemma {:induction false} PositionIsIndex(entries: seq<Entry>, raw: nat)
    ensures Position(View(entries), raw) == Index(entries, raw)
  {
    if entries != [] && entries[0].raw != raw {
      PositionIsIndex(entries[1..], raw);
      assert View(entries)[1..] == View(entries[1..]);
    }
  }

  lemma ReplayAppend(base: Mirror, calls: seq<Call>, call: Call)
    requires Replay(base, calls).Some?
    ensures Replay(base, calls + [call]) == ApplyCall(Replay(base, calls).value, call)
  {
    assert (calls + [call])[..|calls|] == calls;
  }

  lemma ViewAppend(entries: seq<Entry>, entry: Entry)
    ensures View(entries + [entry])
         == View(entries) + [Mirrored(entry.raw, entry.tags, entry.written, entry.timestamp)]
  {
  }

  lemma ViewAttach(entries: seq<Entry>, raw: nat, bytes: Bytes)
    ensures View(Attach(entries, raw, bytes)) == AttachMirrored(View(entries), raw, bytes)
  {
    PositionIsIndex(entries, raw);
  }

  lemma ViewStamp(entries: seq<Entry>, raw: nat, timestamp: int)
    ensures View(Stamp(entries, raw, timestamp)) == StampMirrored(View(entries), raw, timestamp)
  {
    PositionIsIndex(entries, raw);
  }

  lemma ViewDrop(entries: seq<Entry>, raw: nat)
    ensures View(Drop(entries, raw)) == DropMirrored(View(entries), raw)
  {
    PositionIsIndex(entries, raw);
    var i := Index(entries, raw);
    if i < |entries| {
      var a, b := View(Removed(entries, i)), Removed(View(entries), i);
      forall j | 0 <= j < |a| ensures a[j] == b[j] {
        assert Removed(entries, i)[j] == entries[if j < i then j else j + 1];
      }
    }
  }

  // ---------- Invariants

  predicate Agrees(s: State) {
    && Replay(s.base, s.calls).Some?
    && (s.live ==> Replay(s.base, s.calls).value == Mirror(View(s.entries), s.auto))
  }

  predicate Sound(mirror: Mirror, accepted: set<nat>) {
    && Distinct(mirror.entries)
    && (forall m :: m in mirror.entries ==> m.raw in accepted && Normal(m.tags))
  }

  /** Attachments written since registration are the transports' own. */
  ghost predicate Stored(entries: seq<Entry>, attachments: map<nat, Bytes>) {
    forall e :: e in entries ==> e.written.Some? ==>
      e.raw in attachments && attachments[e.raw] == e.written.value
  }

  ghost predicate Inv(s: State) {
    && Agrees(s)
    && Sound(Snapshot(s), s.accepted)
    && (s.live ==> Stored(s.entries, s.attachments))
  }

  lemma PositionOf(entries: seq<Mirrored>, raw: nat)
    ensures Position(entries, raw) < |entries| <==> exists m :: m in entries && m.raw == raw
  {
    var i := Position(entries, raw);
    FirstPosition(entries, raw);
    if i < |entries| {
      assert entries[i] in entries;
    }
  }

  lemma PutIsSound(mirror: Mirror, accepted: set<nat>, raw: nat, tags: seq<string>)
    requires Sound(mirror, accepted) && raw !in accepted && Normal(tags)
    ensures PutMirrored(mirror.entries, Mirrored(raw, tags, None, None))
         == mirror.entries + [Mirrored(raw, tags, None, None)]
    ensures Sound(mirror.(entries := mirror.entries + [Mirrored(raw, tags, None, None)]), accepted + {raw})
  {
    PositionOf(mirror.entries, raw);
  }

  lemma SameRawsAreSound(mirror: Mirror, accepted: set<nat>, entries: seq<Mirrored>)
    requires Sound(mirror, accepted) && |entries| == |mirror.entries|
    requires forall i :: 0 <= i < |entries| ==>
      entries[i].raw == mirror.entries[i].raw && entries[i].tags == mirror.entries[i].tags
    ensures Sound(mirror.(entries := entries), accepted)
  {
    forall m | m in entries ensures m.raw in accepted && Normal(m.tags) {
      var i :| 0 <= i < |entries| && entries[i] == m;
      assert mirror.entries[i] in mirror.entries;
    }
  }

  lemma AttachIsSound(mirror: Mirror, accepted: set<nat>, raw: nat, bytes: Bytes)
    requires Sound(mirror, accepted)
    ensures Sound(mirror.(entries := AttachMirrored(mirror.entries, raw, bytes)), accepted)
  {
    SameRawsAreSound(mirror, accepted, AttachMirrored(mirror.entries, raw, bytes));
  }

  lemma StampIsSound(mirror: Mirror, accepted: set<nat>, raw: nat, timestamp: int)
    requires Sound(mirror, accepted)
    ensures Sound(mirror.(entries := StampMirrored(mirror.entries, raw, timestamp)), accepted)
  {
    SameRawsAreSound(mirror, accepted, StampMirrored(mirror.entries, raw, timestamp));
  }

  lemma DropIsSound(mirror: Mirror, accepted: set<nat>, raw: nat)
    requires Sound(mirror, accepted)
    ensures Sound(mirror.(entries := DropMirrored(mirror.entries, raw)), accepted)
    ensures !Lists(DropMirrored(mirror.entries, raw), raw)
  {
    var entries := DropMirrored(mirror.entries, raw);
    forall m | m in entries ensures m in mirror.entries {
    }
    PositionOf(entries, raw);
    PositionOf(mirror.entries, raw);
  }

  // ---------- Each step

  /** An event with one callback: the mirror's answer to it is what the invariant is about. */
  lemma CalledBack(s: State, t: State, call: Call, after: Mirror)
    requires Agrees(s) && s.live && t.live && t.base == s.base && t.calls == s.calls + [call]
    requires ApplyCall(Mirror(View(s.entries), s.auto), call) == Some(after)
    requires after == Mirror(View(t.entries), t.auto)
    ensures Agrees(t) && Snapshot(t) == after
  {
    hide View;
    hide ApplyCall;
    ReplayAppend(s.base, s.calls, call);
  }

  lemma Mirrors(s: State, raw: nat)
    requires Agrees(s) && s.live
    ensures Snapshot(s) == Mirror(View(s.entries), s.auto)
    ensures Lists(View(s.entries), raw) <==> Listed(s.entries, raw)
  {
    PositionIsIndex(s.entries, raw);
  }

  lemma AcceptKeepsInv(s: State, raw: nat, tags: seq<string>, admitted: bool)
    requires Inv(s) && s.live
    ensures Inv(Step(s, AcceptWebSocket(raw, tags, admitted)))
  {
    var t := Step(s, AcceptWebSocket(raw, tags, admitted));
    if t != s {
      NormalizingTwice(tags);
      var normalized := NormalizeTags(tags).value;
      Mirrors(s, raw);
      hide View;
      hide Replay;
      hide PutMirrored;
      hide NormalizeTags;
      PutIsSound(Snapshot(s), s.accepted, raw, normalized);
      ViewAppend(s.entries, Entry(raw, normalized, None, None));
      CalledBack(s, t, Accepted(raw, normalized), Mirror(View(t.entries), t.auto));
    }
  }

  lemma AttachKeepsInv(s: State, raw: nat, bytes: Bytes)
    requires Inv(s) && s.live
    ensures Inv(Step(s, SerializeAttachment(raw, bytes)))
  {
    hide View;
    hide Replay;
    hide Attach;
    hide AttachMirrored;
    hide Stored;
    hide Sound;
    hide Lists;
    hide Listed;
    var t := Step(s, SerializeAttachment(raw, bytes));
    Mirrors(s, raw);
    if Listed(s.entries, raw) {
      ViewAttach(s.entries, raw, bytes);
      AttachIsSound(Snapshot(s), s.accepted, raw, bytes);
      SoundIsDistinct(Snapshot(s), s.accepted);
      AttachStores(s.entries, s.attachments, raw, bytes);
      CalledBack(s, t, Attached(raw, bytes), Mirror(View(t.entries), t.auto));
    } else {
      UnlistedStores(s.entries, s.attachments, raw, bytes);
    }
  }

  lemma SoundIsDistinct(mirror: Mirror, accepted: set<nat>)
    requires Sound(mirror, accepted)
    ensures Distinct(mirror.entries)
  {
  }

  lemma AttachStores(entries: seq<Entry>, attachments: map<nat, Bytes>, raw: nat, bytes: Bytes)
    requires Stored(entries, attachments) && Distinct(View(entries))
    ensures Stored(Attach(entries, raw, bytes), attachments[raw := bytes])
  {
    var i := Index(entries, raw);
    var after := Attach(entries, raw, bytes);
    FirstIndex(entries, raw);
    forall e | e in after && e.written.Some?
      ensures e.raw in attachments[raw := bytes] && attachments[raw := bytes][e.raw] == e.written.value
    {
      var j :| 0 <= j < |after| && after[j] == e;
      if j != i {
        assert i < |entries| ==> View(entries)[j].raw != View(entries)[i].raw;
        assert entries[j] in entries;
      }
    }
  }

  lemma UnlistedStores(entries: seq<Entry>, attachments: map<nat, Bytes>, raw: nat, bytes: Bytes)
    requires Stored(entries, attachments) && !Listed(entries, raw)
    ensures Stored(entries, attachments[raw := bytes])
  {
    FirstIndex(entries, raw);
    forall e | e in entries ensures e.raw != raw {
      var j :| 0 <= j < |entries| && entries[j] == e;
    }
  }

  lemma AnswerKeepsInv(s: State, raw: nat, now: int)
    requires Inv(s) && s.live
    ensures Inv(Step(s, AnswerAutomatically(raw, now)))
  {
    hide View;
    hide Replay;
    hide Stamp;
    hide StampMirrored;
    hide Stored;
    hide Sound;
    hide Lists;
    hide Listed;
    var t := Step(s, AnswerAutomatically(raw, now));
    Mirrors(s, raw);
    if Listed(s.entries, raw) && s.auto.Some? {
      ViewStamp(s.entries, raw, now);
      StampIsSound(Snapshot(s), s.accepted, raw, now);
      StampStores(s.entries, s.attachments, raw, now);
      CalledBack(s, t, Answered(raw, now), Mirror(View(t.entries), t.auto));
    }
  }

  lemma StampStores(entries: seq<Entry>, attachments: map<nat, Bytes>, raw: nat, now: int)
    requires Stored(entries, attachments)
    ensures Stored(Stamp(entries, raw, now), attachments)
  {
    var i := Index(entries, raw);
    assert i < |entries| ==> entries[i] in entries;
  }

  lemma CloseKeepsInv(s: State, raw: nat)
    requires Inv(s) && s.live
    ensures Inv(Step(s, CloseSettled(raw)))
  {
    hide View;
    hide Replay;
    hide Drop;
    hide DropMirrored;
    hide Stored;
    hide Sound;
    hide Lists;
    hide Listed;
    var t := Step(s, CloseSettled(raw));
    Mirrors(s, raw);
    if Listed(s.entries, raw) {
      ViewDrop(s.entries, raw);
      DropIsSound(Snapshot(s), s.accepted, raw);
      DropStores(s.entries, s.attachments, raw);
      CalledBack(s, t, Closed(raw), Mirror(View(t.entries), t.auto));
    }
  }

  lemma DropStores(entries: seq<Entry>, attachments: map<nat, Bytes>, raw: nat)
    requires Stored(entries, attachments)
    ensures Stored(Drop(entries, raw), attachments)
  {
    forall e | e in Drop(entries, raw) ensures e in entries {
    }
  }

  lemma SetAutoKeepsInv(s: State, pair: Option<AutoPair>)
    requires Inv(s) && s.live
    ensures Inv(Step(s, SetAutoResponse(pair)))
  {
    hide View;
    hide Replay;
    hide FitsAuto;
    hide Stored;
    if pair.None? || FitsAuto(pair.value) {
      CalledBack(s, Step(s, SetAutoResponse(pair)), AutoResponse(pair), Mirror(View(s.entries), pair));
    }
  }

  lemma HostAnswersKeepsInv(s: State, raw: nat, now: int)
    requires Inv(s) && Enabled(s, HostAnswers(raw, now))
    ensures Inv(Step(s, HostAnswers(raw, now)))
  {
    hide Replay;
    hide Sound;
    hide StampMirrored;
    ReplayAppend(s.base, s.calls, Answered(raw, now));
    StampIsSound(Snapshot(s), s.accepted, raw, now);
  }

  lemma {:induction false} CarriedHolds(attachments: map<nat, Bytes>, values: seq<Mirrored>)
    requires Distinct(values)
    ensures forall m :: m in values && m.attachment.Some? ==>
      m.raw in Carried(attachments, values) && Carried(attachments, values)[m.raw] == m.attachment.value
    ensures forall raw :: raw in attachments ==> raw in Carried(attachments, values)
    ensures forall raw :: (forall m :: m in values ==> m.raw != raw) ==>
      (raw in Carried(attachments, values) <==> raw in attachments)
      && (raw in attachments ==> Carried(attachments, values)[raw] == attachments[raw])
  {
    if values == [] {
    } else {
      var before, last := values[..|values| - 1], values[|values| - 1];
      CarriedHolds(attachments, before);
      forall m | m in values && m.attachment.Some?
        ensures m.raw in Carried(attachments, values) && Carried(attachments, values)[m.raw] == m.attachment.value
      {
        var j :| 0 <= j < |values| && values[j] == m;
        assert j < |values| - 1 ==> before[j] == m && m in before && m.raw != last.raw;
      }
      assert last in values;
      assert forall m :: m in before ==> m in values;
    }
  }

  /** Rehydrating keeps every entry as mirrored: tags normalize to themselves. */
  lemma {:induction false} RespawnedView(base: seq<Mirrored>, entries: seq<Entry>)
    requires forall m :: m in base ==> Normal(m.tags)
    requires |entries| == |base| && forall i :: 0 <= i < |base| ==> entries[i] == Rehydrated(base[i])
    ensures View(entries) == base
  {
    forall i | 0 <= i < |base| ensures View(entries)[i] == base[i] {
      assert base[i] in base;
    }
  }

  lemma {:induction false} RehydratedAt(values: seq<Mirrored>, accepted: set<nat>)
    requires forall m :: m in values ==> m.raw in accepted
    ensures forall i :: 0 <= i < |values| ==> RehydratedAll(values)[i] == Rehydrated(values[i])
    ensures accepted + Raws(values) == accepted
  {
    if values == [] {
    } else {
      RehydratedAt(values[..|values| - 1], accepted);
    }
  }

  lemma RespawnKeepsInv(s: State)
    requires Inv(s) && !s.live
    ensures Inv(Step(s, Respawn))
  {
    var t := Step(s, Respawn);
    var base := Snapshot(s);
    assert Sound(base, s.accepted);
    RehydratedAt(base.entries, s.accepted);
    RespawnedView(base.entries, t.entries);
    CarriedStores(s.attachments, base.entries, t.entries);
    RespawnReplays(base);
    hide Replay;
    hide View;
    hide Carried;
    hide Stored;
    hide Normal;
  }

  lemma CarriedStores(attachments: map<nat, Bytes>, values: seq<Mirrored>, entries: seq<Entry>)
    requires Distinct(values) && |entries| == |values|
    requires forall i :: 0 <= i < |values| ==> entries[i] == Rehydrated(values[i])
    ensures Stored(entries, Carried(attachments, values))
  {
    CarriedHolds(attachments, values);
    forall e | e in entries && e.written.Some?
      ensures e.raw in Carried(attachments, values) && Carried(attachments, values)[e.raw] == e.written.value
    {
      var j :| 0 <= j < |entries| && entries[j] == e;
      assert values[j] in values;
    }
  }

  lemma RespawnReplays(base: Mirror)
    ensures Replay(base, if base.auto.Some? then [AutoResponse(base.auto)] else []) == Some(base)
  {
    assert [AutoResponse(base.auto)][..0] == [];
  }

  lemma StepKeepsInv(s: State, event: Event)
    requires Inv(s) && Enabled(s, event)
    ensures Inv(Step(s, event))
  {
    match event
    case AcceptWebSocket(raw, tags, admitted) => AcceptKeepsInv(s, raw, tags, admitted);
    case SerializeAttachment(raw, bytes) => AttachKeepsInv(s, raw, bytes);
    case AnswerAutomatically(raw, now) => AnswerKeepsInv(s, raw, now);
    case SetAutoResponse(pair) => SetAutoKeepsInv(s, pair);
    case CloseSettled(raw) => CloseKeepsInv(s, raw);
    case HostAnswers(raw, now) => HostAnswersKeepsInv(s, raw, now);
    case Respawn => RespawnKeepsInv(s);
    case AcceptClassic(_) =>
    case Evict =>
  }

  lemma {:induction false} RunKeepsInv(s: State, events: seq<Event>)
    requires Inv(s) && Possible(s, events)
    ensures Inv(Run(s, events))
    decreases |events|
  {
    if events == [] {
    } else {
      StepKeepsInv(s, events[0]);
      RunKeepsInv(Step(s, events[0]), events[1..]);
    }
  }

  // ---------- Theorems

  /**
   * Replaying the host callbacks over what the container was constructed with never throws and lists
   * exactly the registry: transports, tags, order, timestamps, the auto-response, and each attachment
   * written since acceptance, over any number of evictions and respawns.
   */
  lemma MirrorAgrees(events: seq<Event>)
    requires Possible(INITIAL, events)
    ensures var s := Run(INITIAL, events);
      && Replay(s.base, s.calls).Some?
      && (s.live ==> Replay(s.base, s.calls) == Some(Mirror(View(s.entries), s.auto)))
  {
    RunKeepsInv(INITIAL, events);
  }

  /** The mirrored attachment is the transport's own, unless that was only ever written before acceptance. */
  lemma MirroredAttachments(events: seq<Event>, i: nat)
    requires Possible(INITIAL, events) && Run(INITIAL, events).live && i < |Run(INITIAL, events).entries|
    ensures var s := Run(INITIAL, events); var e := s.entries[i];
      var own := if e.raw in s.attachments then Some(s.attachments[e.raw]) else None;
      && i < |Snapshot(s).entries| && Snapshot(s).entries[i].raw == e.raw
      && (Snapshot(s).entries[i].attachment == own <==> e.written.Some? || own.None?)
  {
    RunKeepsInv(INITIAL, events);
    var s := Run(INITIAL, events);
    assert s.entries[i] in s.entries;
    assert Snapshot(s).entries == View(s.entries);
  }

  /** The other case: an attachment written just before its socket is accepted is on the socket and not in the mirror. */
  lemma EarlyAttachmentIsNotMirrored(bytes: Bytes)
    ensures var events := [SerializeAttachment(0, bytes), AcceptWebSocket(0, [], true)];
      && Possible(INITIAL, events)
      && var s := Run(INITIAL, events);
      && |s.entries| == 1 && s.entries[0].raw == 0
      && 0 in s.attachments && s.attachments[0] == bytes
      && |Snapshot(s).entries| == 1 && Snapshot(s).entries[0].attachment == None
  {
    var write, accept := SerializeAttachment(0, bytes), AcceptWebSocket(0, [], true);
    var events := [write, accept];
    assert events[1..] == [accept] && [accept][1..] == [];
    var s1 := Step(INITIAL, write);
    var s2 := Step(s1, accept);
    assert NormalizeTags([]) == Some([]);
    assert Possible(s2, []) && Run(s2, []) == s2;
    assert Possible(s1, [accept]) && Run(s1, [accept]) == s2;
    assert Possible(INITIAL, events) && Run(INITIAL, events) == s2;
    MirroredAttachments(events, 0);
    RunKeepsInv(INITIAL, events);
    assert Snapshot(s2).entries == View(s2.entries);
  }

  /** No transport is registered twice. */
  lemma RegisteredOnce(events: seq<Event>, i: nat, j: nat)
    requires Possible(INITIAL, events) && Run(INITIAL, events).live
    requires i < j < |Run(INITIAL, events).entries|
    ensures Run(INITIAL, events).entries[i].raw != Run(INITIAL, events).entries[j].raw
  {
    RunKeepsInv(INITIAL, events);
    var s := Run(INITIAL, events);
    assert View(s.entries)[i].raw == s.entries[i].raw && View(s.entries)[j].raw == s.entries[j].raw;
  }

  /** An evicted container's successor has its entries, with the attachments that were mirrored. */
  lemma RespawnReproduces(events: seq<Event>)
    requires Possible(INITIAL, events) && Run(INITIAL, events).live
    ensures var s := Run(INITIAL, events); var t := Step(Step(s, Evict), Respawn);
      && t.entries == s.entries && t.auto == s.auto
      && forall e :: e in s.entries && e.written.Some? ==>
           e.raw in t.attachments && t.attachments[e.raw] == e.written.value
  {
    RunKeepsInv(INITIAL, events);
    SuccessorReproduces(Run(INITIAL, events));
  }

  lemma SuccessorReproduces(s: State)
    requires Inv(s) && s.live
    ensures var t := Step(Step(s, Evict), Respawn);
      && t.entries == s.entries && t.auto == s.auto
      && forall e :: e in s.entries && e.written.Some? ==>
           e.raw in t.attachments && t.attachments[e.raw] == e.written.value
  {
    var evicted := Step(s, Evict);
    var t := Step(evicted, Respawn);
    assert Inv(evicted);
    RespawnKeepsInv(evicted);
    assert Snapshot(evicted) == Mirror(View(s.entries), s.auto);
    RehydratedAt(View(s.entries), s.accepted);
    RespawnedView(View(s.entries), t.entries);
    SameView(t.entries, s.entries);
  }

  lemma SameView(a: seq<Entry>, b: seq<Entry>)
    requires View(a) == View(b)
    ensures a == b
  {
    forall i | 0 <= i < |a| ensures a[i] == b[i] {
      assert View(a)[i] == View(b)[i];
    }
  }

  // ---------- Reported once

  function Accepts(calls: seq<Call>, raw: nat): nat {
    if calls == [] then 0
    else
      var last := calls[|calls| - 1];
      Accepts(calls[..|calls| - 1], raw) + (if last.Accepted? && last.raw == raw then 1 else 0)
  }

  function Closings(calls: seq<Call>, raw: nat): nat {
    if calls == [] then 0
    else
      var last := calls[|calls| - 1];
      Closings(calls[..|calls| - 1], raw) + (if last.Closed? && last.raw == raw then 1 else 0)
  }

  function Registered(entries: seq<Mirrored>, raw: nat): nat {
    if Lists(entries, raw) then 1 else 0
  }

  /** Registered at the start or accepted since, and gone for each closing reported. */
  predicate Balanced(s: State, raw: nat) {
    var known := Registered(s.base.entries, raw) + Accepts(s.calls, raw);
    && known == Registered(Snapshot(s).entries, raw) + Closings(s.calls, raw)
    && known <= 1
    && (known == 1 ==> raw in s.accepted)
  }

  lemma CountAppend(calls: seq<Call>, call: Call, raw: nat)
    ensures Accepts(calls + [call], raw) == Accepts(calls, raw) + (if call.Accepted? && call.raw == raw then 1 else 0)
    ensures Closings(calls + [call], raw) == Closings(calls, raw) + (if call.Closed? && call.raw == raw then 1 else 0)
  {
    assert (calls + [call])[..|calls|] == calls;
  }

  lemma SameRawsRegistered(a: seq<Mirrored>, b: seq<Mirrored>, raw: nat)
    requires |a| == |b| && forall i :: 0 <= i < |a| ==> a[i].raw == b[i].raw
    ensures Registered(a, raw) == Registered(b, raw)
  {
    var i, j := Position(a, raw), Position(b, raw);
    FirstPosition(a, raw);
    FirstPosition(b, raw);
    assert i < |a| ==> b[i].raw == raw;
    assert j < |b| ==> a[j].raw == raw;
  }

  /** How a callback that does not throw changes what is registered. */
  lemma CallRegisters(mirror: Mirror, accepted: set<nat>, call: Call, raw: nat)
    requires Sound(mirror, accepted) && ApplyCall(mirror, call).Some?
    requires call.Accepted? ==> !Lists(mirror.entries, call.raw)
    requires call.Closed? ==> Lists(mirror.entries, call.raw)
    ensures Registered(ApplyCall(mirror, call).value.entries, raw)
         == Registered(mirror.entries, raw)
            + (if call.Accepted? && call.raw == raw then 1 else 0) - (if call.Closed? && call.raw == raw then 1 else 0)
  {
    match call
    case Accepted(of, tags) => AppendRegisters(mirror.entries, Mirrored(of, tags, None, None), raw);
    case Attached(of, bytes) =>
      SameRawsRegistered(mirror.entries, AttachMirrored(mirror.entries, of, bytes), raw);
    case Answered(of, now) => SameRawsRegistered(mirror.entries, StampMirrored(mirror.entries, of, now), raw);
    case AutoResponse(_) =>
    case Closed(of) =>
      DropIsSound(mirror, accepted, of);
      if raw != of {
        DropKeepsOthers(mirror.entries, of, raw);
      }
  }

  lemma AppendRegisters(entries: seq<Mirrored>, entry: Mirrored, raw: nat)
    ensures Registered(entries + [entry], raw)
         == if entry.raw == raw then 1 else Registered(entries, raw)
  {
    PositionOf(entries, raw);
    PositionOf(entries + [entry], raw);
    assert (entries + [entry])[|entries|] == entry;
    forall m | m in entries + [entry] ensures m in entries || m == entry {
    }
  }

  lemma DropKeepsOthers(entries: seq<Mirrored>, of: nat, raw: nat)
    requires raw != of
    ensures Registered(DropMirrored(entries, of), raw) == Registered(entries, raw)
  {
    var rest := DropMirrored(entries, of);
    var i := Position(entries, of);
    PositionOf(entries, raw);
    PositionOf(rest, raw);
    forall m | m in entries && m.raw == raw ensures m in rest {
      var j :| 0 <= j < |entries| && entries[j] == m;
      assert i < |entries| ==> m == if j < i then rest[j] else rest[j - 1];
    }
    forall m | m in rest ensures m in entries {
    }
  }

  lemma CallKeepsBalance(s: State, t: State, call: Call, raw: nat)
    requires Inv(s) && Balanced(s, raw) && t.base == s.base && t.calls == s.calls + [call]
    requires ApplyCall(Snapshot(s), call).Some?
    requires call.Accepted? ==> call.raw !in s.accepted
    requires call.Closed? ==> Lists(Snapshot(s).entries, call.raw)
    requires t.accepted == if call.Accepted? then s.accepted + {call.raw} else s.accepted
    ensures Balanced(t, raw)
  {
    if call.Accepted? {
      PositionOf(Snapshot(s).entries, call.raw);
    }
    hide Replay;
    hide Accepts;
    hide Closings;
    hide View;
    hide Registered;
    ReplayAppend(s.base, s.calls, call);
    CountAppend(s.calls, call, raw);
    CallRegisters(Snapshot(s), s.accepted, call, raw);
  }

  /** What one live event reports, if anything. */
  function Reported(s: State, event: Event): Option<Call> {
    match event
    case AcceptWebSocket(raw, tags, admitted) =>
      var normalized := NormalizeTags(tags);
      if raw in s.accepted || |s.entries| >= MAX_HIBERNATABLE_SOCKETS || normalized.None? || !admitted then None
      else Some(Accepted(raw, normalized.value))
    case SerializeAttachment(raw, bytes) => if Listed(s.entries, raw) then Some(Attached(raw, bytes)) else None
    case AnswerAutomatically(raw, now) =>
      if Listed(s.entries, raw) && s.auto.Some? then Some(Answered(raw, now)) else None
    case SetAutoResponse(pair) => if pair.None? || FitsAuto(pair.value) then Some(AutoResponse(pair)) else None
    case CloseSettled(raw) => if Listed(s.entries, raw) then Some(Closed(raw)) else None
    case HostAnswers(raw, now) => Some(Answered(raw, now))
    case _ => None
  }

  lemma ReportedIsCalled(s: State, event: Event)
    requires Enabled(s, event) && !event.Respawn?
    ensures var t := Step(s, event); var call := Reported(s, event);
      && t.base == s.base
      && t.calls == (if call.Some? then s.calls + [call.value] else s.calls)
      && (event.AcceptClassic? || t.accepted ==
            if call.Some? && call.value.Accepted? then s.accepted + {call.value.raw} else s.accepted)
      && s.accepted <= t.accepted
  {
    hide NormalizeTags;
    hide Listed;
    hide FitsAuto;
    hide Snapshot;
  }

  lemma ReportedIsTaken(s: State, event: Event)
    requires Inv(s) && Enabled(s, event) && Reported(s, event).Some?
    ensures ApplyCall(Snapshot(s), Reported(s, event).value).Some?
    ensures Reported(s, event).value.Closed? ==> Lists(Snapshot(s).entries, Reported(s, event).value.raw)
    ensures Reported(s, event).value.Accepted? ==> Reported(s, event).value.raw !in s.accepted
  {
    if s.live && !Reported(s, event).value.AutoResponse? {
      Mirrors(s, Reported(s, event).value.raw);
    }
  }

  lemma RespawnKeepsBalance(s: State, raw: nat)
    requires Inv(s) && Enabled(s, Respawn)
    ensures Balanced(Step(s, Respawn), raw)
  {
    var base := Snapshot(s);
    RespawnReplays(base);
    PositionOf(base.entries, raw);
    RehydratedAt(base.entries, s.accepted);
    assert [AutoResponse(base.auto)][..0] == [];
  }

  lemma SilentKeepsBalance(s: State, t: State, raw: nat)
    requires Balanced(s, raw) && t.base == s.base && t.calls == s.calls && s.accepted <= t.accepted
    ensures Balanced(t, raw)
  {
  }

  lemma StepKeepsBalance(s: State, event: Event, raw: nat)
    requires Inv(s) && Balanced(s, raw) && Enabled(s, event)
    ensures Balanced(Step(s, event), raw)
  {
    hide Inv;
    hide Balanced;
    hide ApplyCall;
    if event.Respawn? {
      RespawnKeepsBalance(s, raw);
    } else {
      ReportedIsCalled(s, event);
      if Reported(s, event).Some? {
        ReportedIsTaken(s, event);
        CallKeepsBalance(s, Step(s, event), Reported(s, event).value, raw);
      } else {
        SilentKeepsBalance(s, Step(s, event), raw);
      }
    }
  }

  lemma {:induction false} RunKeepsBalance(s: State, events: seq<Event>, raw: nat)
    requires Inv(s) && Balanced(s, raw) && Possible(s, events)
    ensures Balanced(Run(s, events), raw)
    decreases |events|
  {
    if events == [] {
    } else {
      StepKeepsInv(s, events[0]);
      StepKeepsBalance(s, events[0], raw);
      RunKeepsBalance(Step(s, events[0]), events[1..], raw);
    }
  }

  /**
   * Of what a container started with or accepted, each transport is still mirrored or was reported
   * closed, and not both; so none is reported twice, and none is accepted twice.
   */
  lemma ClosedOnce(events: seq<Event>, raw: nat)
    requires Possible(INITIAL, events)
    ensures var s := Run(INITIAL, events);
      && Registered(s.base.entries, raw) + Accepts(s.calls, raw)
         == Registered(Snapshot(s).entries, raw) + Closings(s.calls, raw)
      && Registered(s.base.entries, raw) + Accepts(s.calls, raw) <= 1
  {
    RunKeepsBalance(INITIAL, events, raw);
  }
}

/** The registry, its transports' metadata, and the mirror as objects. */
module SocketRegistry {
  import opened Prelude
  import opened RegistryModel

  class HibernationMirror {
    var entries: seq<Mirrored>
    var auto: Option<AutoPair>

    ghost function Model(): Mirror
      reads this
    {
      Mirror(entries, auto)
    }

    constructor (base: Mirror)
      ensures Model() == base
    {
      entries, auto := base.entries, base.auto;
    }

    /** One host callback; the attachment and timestamp ones throw for an unknown transport. */
    method Receive(call: Call) returns (threw: bool)
      modifies this
      ensures threw <==> ApplyCall(old(Model()), call).None?
      ensures Model() == if threw then old(Model()) else ApplyCall(old(Model()), call).value
    {
      threw := false;
      if call.AutoResponse? {
        auto := call.pair;
        return;
      }
      var i := Position(entries, call.raw);
      match call {
        case Accepted(raw, tags) =>
          var entry := Mirrored(raw, tags, None, None);
          entries := if i < |entries| then entries[i := entry] else entries + [entry];
        case Attached(_, bytes) =>
          if i == |entries| {
            return true;
          }
          entries := entries[i := entries[i].(attachment := Some(bytes))];
        case Answered(_, timestamp) =>
          if i == |entries| {
            return true;
          }
          entries := entries[i := entries[i].(timestamp := Some(timestamp))];
        case Closed(_) =>
          if i < |entries| {
            entries := entries[..i] + entries[i + 1..];
          }
      }
    }
  }

  class HibernatableWebSocketRegistry {
    var accepted: set<nat>
    var attachments: map<nat, Bytes>
    var entries: seq<Entry>
    var autoResponse: Option<AutoPair>
    ghost var base: Mirror
    ghost var calls: seq<Call>

    ghost function Model(): State
      reads this
    {
      State(accepted, attachments, entries, autoResponse, true, base, calls)
    }

    /** A container's registry, from a mirror's snapshot: `before` is the state its predecessor left. */
    constructor (ghost before: State, accepted: set<nat>, attachments: map<nat, Bytes>, rehydrated: Mirror)
      requires !before.live && before.accepted == accepted && before.attachments == attachments
      requires Snapshot(before) == rehydrated
      ensures Model() == Step(before, Respawn)
    {
      base := rehydrated;
      autoResponse := rehydrated.auto;
      calls := if rehydrated.auto.Some? then [AutoResponse(rehydrated.auto)] else [];
      var list, carried, raws := Rehydrate(rehydrated.entries, attachments, accepted);
      this.accepted, this.attachments, entries := raws, carried, list;
    }

    static method Rehydrate(values: seq<Mirrored>, attachments: map<nat, Bytes>, accepted: set<nat>)
      returns (list: seq<Entry>, carried: map<nat, Bytes>, raws: set<nat>)
      ensures list == RehydratedAll(values)
      ensures carried == Carried(attachments, values)
      ensures raws == accepted + Raws(values)
    {
      list, carried, raws := [], attachments, accepted;
      for i := 0 to |values|
        invariant list == RehydratedAll(values[..i])
        invariant carried == Carried(attachments, values[..i])
        invariant raws == accepted + Raws(values[..i])
      {
        var value := values[i];
        list := list + [Rehydrated(value)];
        assert values[..i + 1][..i] == values[..i];
        if value.attachment.Some? {
          carried := carried[value.raw := value.attachment.value];
        }
        raws := raws + {value.raw};
      }
      assert values[..|values|] == values;
    }

    method Accept(raw: nat, tags: seq<string>, admitted: bool) returns (threw: bool)
      modifies this
      ensures Model() == Step(old(Model()), AcceptWebSocket(raw, tags, admitted))
      ensures threw <==> calls == old(calls)
    {
      if raw in accepted || |entries| >= MAX_HIBERNATABLE_SOCKETS {
        return true;
      }
      var normalized := NormalizeTags(tags);
      if normalized.None? || !admitted {
        return true;
      }
      accepted := accepted + {raw};
      entries := entries + [Entry(raw, normalized.value, None, None)];
      calls := calls + [Accepted(raw, normalized.value)];
      threw := false;
    }

    method Serialize(raw: nat, bytes: Bytes)
      modifies this
      ensures Model() == Step(old(Model()), SerializeAttachment(raw, bytes))
    {
      attachments := attachments[raw := bytes];
      var i := Index(entries, raw);
      if i < |entries| {
        entries := entries[i := entries[i].(written := Some(bytes))];
        calls := calls + [Attached(raw, bytes)];
      }
    }

    method Answer(raw: nat, now: int)
      modifies this
      ensures Model() == Step(old(Model()), AnswerAutomatically(raw, now))
    {
      var i := Index(entries, raw);
      if i < |entries| && autoResponse.Some? {
        entries := entries[i := entries[i].(timestamp := Some(now))];
        calls := calls + [Answered(raw, now)];
      }
    }

    method SetAuto(pair: Option<AutoPair>) returns (threw: bool)
      modifies this
      ensures Model() == Step(old(Model()), SetAutoResponse(pair))
      ensures threw <==> pair.Some? && !FitsAuto(pair.value)
    {
      if pair.Some? && !FitsAuto(pair.value) {
        return true;
      }
      autoResponse := pair;
      calls := calls + [AutoResponse(pair)];
      threw := false;
    }

    method Remove(raw: nat)
      modifies this
      ensures Model() == Step(old(Model()), CloseSettled(raw))
    {
      var i := Index(entries, raw);
      if i < |entries| {
        entries := entries[..i] + entries[i + 1..];
        calls := calls + [Closed(raw)];
      }
    }
  }
}
