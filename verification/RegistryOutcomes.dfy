/** What the calls of the hibernatable socket registry achieve, in the registry and in its mirror. */
module RegistryOutcomes {
  import opened Prelude
  import opened RegistryModel
  import opened RegistryTheorems

  ghost predicate Registered(entries: seq<Entry>, raw: nat) {
    exists i :: 0 <= i < |entries| && entries[i].raw == raw
  }

  /** Whether `acceptWebSocket` takes these tags. */
  predicate TagsFit(tags: seq<string>) {
    |tags| <= MAX_TAGS && forall t :: t in tags ==> |t| <= MAX_TAG_LENGTH
  }

  /** The same tags, each once. */
  ghost predicate SameTags(kept: seq<string>, tags: seq<string>) {
    && (forall t :: t in kept <==> t in tags)
    && (forall i, j :: 0 <= i < j < |kept| ==> kept[i] != kept[j])
  }

  lemma ListedIsRegistered(entries: seq<Entry>, raw: nat)
    ensures Listed(entries, raw) <==> Registered(entries, raw)
  {
    FirstIndex(entries, raw);
  }

  lemma FittingNormalizes(tags: seq<string>)
    ensures TagsFit(tags) ==> NormalizeTags(tags).Some? && SameTags(NormalizeTags(tags).value, tags)
    ensures NormalizeTags(tags).Some? ==> |tags| <= MAX_TAGS && forall t :: t in tags ==> |t| <= MAX_TAG_LENGTH
  {
    DeduplicatedKeeps(tags);
  }

  /** Whether `acceptWebSocket` succeeds: a new transport, fitting tags, room for one more, and no refusal. */
  predicate Takes(s: State, raw: nat, tags: seq<string>, admitted: bool) {
    raw !in s.accepted && |s.entries| < MAX_HIBERNATABLE_SOCKETS && TagsFit(tags) && admitted
  }

  /** The mirror lists the registry. */
  ghost predicate MirroredNow(s: State) {
    Replay(s.base, s.calls) == Some(Mirror(View(s.entries), s.auto))
  }

  lemma StaysMirrored(events: seq<Event>, event: Event)
    requires Possible(INITIAL, events) && Enabled(Run(INITIAL, events), event) && Step(Run(INITIAL, events), event).live
    ensures MirroredNow(Step(Run(INITIAL, events), event))
  {
    RunKeepsInv(INITIAL, events);
    StepKeepsInv(Run(INITIAL, events), event);
    hide Step, Run;
  }

  /** A new transport is registered last, with its tags each once, and mirrored; otherwise nothing changes. */
  lemma AcceptanceRegisters(events: seq<Event>, raw: nat, tags: seq<string>, admitted: bool)
    requires Possible(INITIAL, events) && Run(INITIAL, events).live
    ensures var s := Run(INITIAL, events); var t := Step(s, AcceptWebSocket(raw, tags, admitted));
      && MirroredNow(t)
      && (!Takes(s, raw, tags, admitted) ==> t == s)
      && (Takes(s, raw, tags, admitted) ==>
          && raw in t.accepted && |t.entries| == |s.entries| + 1 && t.entries[..|s.entries|] == s.entries
          && var added := t.entries[|s.entries|];
          && added == Entry(raw, added.tags, None, None) && SameTags(added.tags, tags)
          && t.calls == s.calls + [Accepted(raw, added.tags)])
  {
    StaysMirrored(events, AcceptWebSocket(raw, tags, admitted));
    FittingNormalizes(tags);
    hide Run, MirroredNow, NormalizeTags, SameTags;
  }

  /** A transport accepted once, classic or hibernatable, is not taken again. */
  lemma AcceptedOnlyOnce(events: seq<Event>, raw: nat, first: Event, tags: seq<string>, admitted: bool)
    requires Possible(INITIAL, events) && Run(INITIAL, events).live
    requires var s := Run(INITIAL, events);
      first == AcceptClassic(raw) || (first.AcceptWebSocket? && first.raw == raw && Takes(s, raw, first.tags, first.admitted))
    ensures var t := Step(Run(INITIAL, events), first);
      raw in t.accepted && Step(t, AcceptWebSocket(raw, tags, admitted)) == t
  {
    if first.AcceptWebSocket? { FittingNormalizes(first.tags); }
    hide Run, NormalizeTags, SameTags;
  }

  lemma DistinctRaws(events: seq<Event>)
    requires Possible(INITIAL, events) && Run(INITIAL, events).live
    ensures var entries := Run(INITIAL, events).entries;
      forall i, j :: 0 <= i < j < |entries| ==> entries[i].raw != entries[j].raw
  {
    var entries := Run(INITIAL, events).entries;
    forall i, j | 0 <= i < j < |entries| ensures entries[i].raw != entries[j].raw {
      RegisteredOnce(events, i, j);
    }
  }

  /** Only the transport's own entry changed, to this. */
  ghost predicate OnlyEntryOf(before: seq<Entry>, after: seq<Entry>, raw: nat, change: Entry -> Entry) {
    |after| == |before| && forall i :: 0 <= i < |before| ==>
      after[i] == if before[i].raw == raw then change(before[i]) else before[i]
  }

  lemma AttachChangesOne(entries: seq<Entry>, raw: nat, bytes: Bytes)
    requires forall i, j :: 0 <= i < j < |entries| ==> entries[i].raw != entries[j].raw
    ensures OnlyEntryOf(entries, Attach(entries, raw, bytes), raw, (e: Entry) => e.(written := Some(bytes)))
  {
    FirstIndex(entries, raw);
  }

  lemma StampChangesOne(entries: seq<Entry>, raw: nat, now: int)
    requires forall i, j :: 0 <= i < j < |entries| ==> entries[i].raw != entries[j].raw
    ensures OnlyEntryOf(entries, Stamp(entries, raw, now), raw, (e: Entry) => e.(timestamp := Some(now)))
  {
    FirstIndex(entries, raw);
  }

  /** An attachment is on its transport, and on a registered one's entry, which is mirrored. */
  lemma AttachmentIsStored(events: seq<Event>, raw: nat, bytes: Bytes)
    requires Possible(INITIAL, events) && Run(INITIAL, events).live
    ensures var s := Run(INITIAL, events); var t := Step(s, SerializeAttachment(raw, bytes));
      && t.attachments == s.attachments[raw := bytes] && MirroredNow(t)
      && OnlyEntryOf(s.entries, t.entries, raw, (e: Entry) => e.(written := Some(bytes)))
      && t.calls == s.calls + (if Registered(s.entries, raw) then [Attached(raw, bytes)] else [])
  {
    var s := Run(INITIAL, events);
    StaysMirrored(events, SerializeAttachment(raw, bytes));
    DistinctRaws(events);
    AttachChangesOne(s.entries, raw, bytes);
    ListedIsRegistered(s.entries, raw);
    hide Run, MirroredNow, Attach, Listed;
  }

  /** An automatic answer stamps a registered transport, while an auto-response is set. */
  lemma AnswerIsStamped(events: seq<Event>, raw: nat, now: int)
    requires Possible(INITIAL, events) && Run(INITIAL, events).live
    ensures var s := Run(INITIAL, events); var t := Step(s, AnswerAutomatically(raw, now));
      && MirroredNow(t)
      && (s.auto.None? || !Registered(s.entries, raw) ==> t == s)
      && (s.auto.Some? ==> OnlyEntryOf(s.entries, t.entries, raw, (e: Entry) => e.(timestamp := Some(now))))
      && (s.auto.Some? && Registered(s.entries, raw) ==> t.calls == s.calls + [Answered(raw, now)])
  {
    var s := Run(INITIAL, events);
    StaysMirrored(events, AnswerAutomatically(raw, now));
    DistinctRaws(events);
    StampChangesOne(s.entries, raw, now);
    ListedIsRegistered(s.entries, raw);
    hide Run, MirroredNow, Stamp, Listed;
  }

  /** A closed transport is registered no more, the others keep their order, and the mirror is told. */
  lemma CloseUnregisters(events: seq<Event>, raw: nat)
    requires Possible(INITIAL, events) && Run(INITIAL, events).live
    ensures var s := Run(INITIAL, events); var t := Step(s, CloseSettled(raw));
      && MirroredNow(t) && !Registered(t.entries, raw)
      && (!Registered(s.entries, raw) ==> t == s)
      && (Registered(s.entries, raw) ==>
            && t.calls == s.calls + [Closed(raw)]
            && exists i :: 0 <= i < |s.entries| && s.entries[i].raw == raw
                        && t.entries == s.entries[..i] + s.entries[i + 1..])
  {
    var s := Run(INITIAL, events);
    StaysMirrored(events, CloseSettled(raw));
    DistinctRaws(events);
    ListedIsRegistered(s.entries, raw);
    DropTakesOne(s.entries, raw);
    hide Run, MirroredNow, Drop, Listed;
  }

  lemma DropTakesOne(entries: seq<Entry>, raw: nat)
    requires forall i, j :: 0 <= i < j < |entries| ==> entries[i].raw != entries[j].raw
    ensures !Registered(Drop(entries, raw), raw)
    ensures Listed(entries, raw) ==>
      exists i :: 0 <= i < |entries| && entries[i].raw == raw && Drop(entries, raw) == entries[..i] + entries[i + 1..]
  {
    FirstIndex(entries, raw);
    var k := Index(entries, raw);
    if k < |entries| {
      forall j | 0 <= j < |Drop(entries, raw)| ensures Drop(entries, raw)[j].raw != raw {
        assert Drop(entries, raw)[j] == entries[if j < k then j else j + 1];
      }
    }
  }

  /** An auto-response within its limit is set, and mirrored; a longer one throws and changes nothing. */
  lemma AutoResponseIsSet(events: seq<Event>, pair: Option<AutoPair>)
    requires Possible(INITIAL, events) && Run(INITIAL, events).live
    ensures var s := Run(INITIAL, events); var t := Step(s, SetAutoResponse(pair));
      && MirroredNow(t)
      && t == if pair.Some? && !FitsAuto(pair.value) then s
              else s.(auto := pair, calls := s.calls + [AutoResponse(pair)])
  {
    StaysMirrored(events, SetAutoResponse(pair));
    hide Run, MirroredNow, FitsAuto;
  }

  /** A host that answers for an evicted container stamps the transport in what its successor starts from. */
  lemma HostAnswerReachesSuccessor(events: seq<Event>, raw: nat, now: int)
    requires Possible(INITIAL, events) && Enabled(Run(INITIAL, events), HostAnswers(raw, now))
    ensures var t := Step(Step(Run(INITIAL, events), HostAnswers(raw, now)), Respawn);
      exists i :: 0 <= i < |t.entries| && t.entries[i].raw == raw && t.entries[i].timestamp == Some(now)
  {
    RunKeepsInv(INITIAL, events);
    var s := Run(INITIAL, events);
    hide Run, Step, Inv;
    HostStamps(s, raw, now);
    SuccessorStarts(Step(s, HostAnswers(raw, now)));
  }

  lemma HostStamps(s: State, raw: nat, now: int)
    requires Inv(s) && Enabled(s, HostAnswers(raw, now))
    ensures var t := Step(s, HostAnswers(raw, now)); var mirrored := Snapshot(t).entries;
      && Inv(t) && !t.live
      && exists i :: 0 <= i < |mirrored| && mirrored[i].raw == raw && mirrored[i].timestamp == Some(now)
  {
    HostAnswersKeepsInv(s, raw, now);
    ReplayAppend(s.base, s.calls, Answered(raw, now));
    hide Inv, Replay;
    var i := Position(Snapshot(s).entries, raw);
    var mirrored := Snapshot(Step(s, HostAnswers(raw, now))).entries;
    assert mirrored == StampMirrored(Snapshot(s).entries, raw, now);
    assert mirrored[i].raw == raw;
  }

  lemma SuccessorStarts(s: State)
    requires Inv(s) && !s.live
    ensures var t := Step(s, Respawn); var mirrored := Snapshot(s).entries;
      && |t.entries| == |mirrored|
      && forall i :: 0 <= i < |mirrored| ==> t.entries[i] == Rehydrated(mirrored[i])
  {
    hide Replay, Snapshot;
    RehydratedAt(Snapshot(s).entries, s.accepted);
  }
}
