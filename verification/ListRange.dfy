/** The list-range compiler of `src/api/actor-state.ts`: four optional bounds become one half-open range. */
module ListRange {
  import opened Prelude

  /** JavaScript compares strings by their 16-bit code units. */
  newtype Unit = x: int | 0 <= x < 0x1_0000
  type Key = seq<Unit>

  const NULL_CHARACTER: Unit := 0
  const MAX_CODE_UNIT: Unit := 0xffff

  datatype ListOptions = ListOptions(
    start: Option<Key>, startAfter: Option<Key>, end: Option<Key>,
    prefix: Option<Key>, reverse: bool, limit: Option<JsNumber>)

  datatype Range = Range(start: Key, end: Option<Key>, reverse: bool, limit: Option<JsNumber>)

  // ---- Lexicographic order ----

  predicate Less(a: Key, b: Key) {
    if b == [] then false
    else if a == [] then true
    else a[0] < b[0] || (a[0] == b[0] && Less(a[1..], b[1..]))
  }

  predicate AtMost(a: Key, b: Key) {
    a == b || Less(a, b)
  }

  lemma {:induction false} LessTransitive(a: Key, b: Key, c: Key)
    requires Less(a, b) && Less(b, c)
    ensures Less(a, c)
  {
    if a != [] && a[0] == b[0] == c[0] {
      LessTransitive(a[1..], b[1..], c[1..]);
    }
  }

  lemma {:induction false} LessTotal(a: Key, b: Key)
    ensures Less(a, b) || a == b || Less(b, a)
  {
    if a != [] && b != [] && a[0] == b[0] {
      LessTotal(a[1..], b[1..]);
      assert a == [a[0]] + a[1..] && b == [b[0]] + b[1..];
    }
  }

  lemma {:induction false} LessIrreflexive(a: Key)
    ensures !Less(a, a)
  {
    if a != [] { LessIrreflexive(a[1..]); }
  }

  /** A prefix comes before, or equals, everything it is a prefix of. */
  lemma {:induction false} PrefixAtMost(p: Key, k: Key)
    requires p <= k
    ensures AtMost(p, k)
  {
    if p != [] {
      PrefixAtMost(p[1..], k[1..]);
      if p[1..] == k[1..] { assert p == [p[0]] + p[1..] && k == [k[0]] + k[1..]; }
    }
  }

  /** Appending the least unit gives the immediate successor. */
  lemma {:induction false} SuccessorIsLeastAbove(a: Key, k: Key)
    ensures Less(a, k) <==> AtMost(a + [NULL_CHARACTER], k)
  {
    var successor := a + [NULL_CHARACTER];
    if a == [] {
      assert successor[1..] == [];
      if k != [] {
        assert Less(successor[1..], k[1..]) <==> k[1..] != [];
        assert k[1..] == [] ==> k == [k[0]];
        assert Less(successor, k) <==> 0 < k[0] || (k[0] == 0 && k[1..] != []);
      }
    } else {
      assert successor[1..] == a[1..] + [NULL_CHARACTER];
      if k != [] && k[0] == a[0] {
        SuccessorIsLeastAbove(a[1..], k[1..]);
        if successor[1..] == k[1..] { assert successor == [a[0]] + successor[1..] && k == [k[0]] + k[1..]; }
      }
    }
  }

  // ---- The first key after a prefix ----

  predicate AllMaximal(p: Key) {
    forall i :: 0 <= i < |p| ==> p[i] == MAX_CODE_UNIT
  }

  ghost predicate AboveAll(p: Key, bound: Key) {
    forall k :: p <= k ==> Less(k, bound)
  }

  /** `after` is above every key with prefix `p`, and below or equal to every other such bound. */
  ghost predicate LeastAboveAll(p: Key, after: Key) {
    && AboveAll(p, after)
    && (forall bound :: AboveAll(p, bound) ==> AtMost(after, bound))
  }

  /** Keys at or above `p` but below the incremented last unit are exactly those with the prefix. */
  lemma {:induction false} IncrementBounds(head: Key, k: Key)
    requires head != [] && head[|head| - 1] < MAX_CODE_UNIT
    ensures AtMost(head, k) && Less(k, head[..|head| - 1] + [head[|head| - 1] + 1]) <==> head <= k
  {
    var after := head[..|head| - 1] + [head[|head| - 1] + 1];
    if |head| == 1 {
      assert head == [head[0]] && head[1..] == [] && after[1..] == [];
      if k != [] {
        assert Less(head[1..], k[1..]) <==> k[1..] != [];
        assert k[1..] == [] ==> k == [k[0]];
        assert Less(head, k) <==> head[0] < k[0] || (head[0] == k[0] && k[1..] != []);
        assert Less(k, after) <==> k[0] < after[0] || (k[0] == after[0] && Less(k[1..], []));
      }
    } else if k != [] {
      assert after[1..] == head[1..][..|head| - 2] + [head[1..][|head| - 2] + 1];
      assert head[1..] != [];
      if k[0] == head[0] {
        IncrementBounds(head[1..], k[1..]);
        assert head == [head[0]] + head[1..] && k == [k[0]] + k[1..];
        assert head <= k <==> head[1..] <= k[1..];
      }
    }
  }

  /** Maximal units after `head` do not change which bounds lie above every extension. */
  lemma {:induction false} TailOfMaximalUnits(tail: Key, k: Key)
    requires AllMaximal(tail) && Less(tail, k)
    ensures tail <= k
  {
    if tail != [] { TailOfMaximalUnits(tail[1..], k[1..]); }
  }

  lemma {:induction false} LessUnderPrefix(p: Key, a: Key, b: Key)
    ensures Less(p + a, p + b) <==> Less(a, b)
  {
    if p == [] {
      assert p + a == a && p + b == b;
    } else {
      assert (p + a)[1..] == p[1..] + a && (p + b)[1..] == p[1..] + b;
      LessUnderPrefix(p[1..], a, b);
    }
  }

  /** Every key at or above `p` whose other units are maximal and that stays below `after` has prefix `p`. */
  lemma {:induction false} RangeIsPrefix(head: Key, tail: Key, k: Key)
    requires head != [] && head[|head| - 1] < MAX_CODE_UNIT && AllMaximal(tail)
    ensures AtMost(head + tail, k) && Less(k, head[..|head| - 1] + [head[|head| - 1] + 1]) <==> head + tail <= k
  {
    var p := head + tail;
    PrefixAtMost(head, p);
    IncrementBounds(head, k);
    if p <= k {
      PrefixAtMost(p, k);
      assert head <= k;
    } else if AtMost(p, k) && head <= k {
      var rest := k[|head|..];
      assert k == head + rest;
      assert p != k;
      LessUnderPrefix(head, tail, rest);
      TailOfMaximalUnits(tail, rest);
      assert false;
    }
    if AtMost(p, k) { AtMostTransitive(head, p, k); }
  }

  lemma AtMostTransitive(a: Key, b: Key, c: Key)
    requires AtMost(a, b) && AtMost(b, c)
    ensures AtMost(a, c)
  {
    if Less(a, b) && Less(b, c) { LessTransitive(a, b, c); }
  }

  lemma NotLess(a: Key, b: Key)
    ensures !Less(a, b) <==> AtMost(b, a)
  {
    LessTotal(a, b);
    LessIrreflexive(a);
    if Less(a, b) && Less(b, a) { LessTransitive(a, b, a); }
  }

  /** No bound lies above every extension of a key of maximal units. */
  lemma NothingAboveMaximal(p: Key, bound: Key)
    requires AllMaximal(p)
    ensures !AboveAll(p, bound)
  {
    if Less(p, bound) {
      TailOfMaximalUnits(p, bound);
      LessIrreflexive(bound);
    }
  }

  lemma IncrementIsLeast(prefix: Key, increased: Key)
    requires EndsPrefix(prefix, increased)
    ensures LeastAboveAll(prefix, increased)
  {
    forall bound | AboveAll(prefix, bound) ensures AtMost(increased, bound) {
      NotLess(bound, increased);
      if Less(bound, increased) {
        assert Less(prefix, bound);
        LessIrreflexive(bound);
      }
    }
  }

  /** `after` ends the keys with the prefix: nothing at or above the prefix and below it lacks the prefix. */
  ghost predicate EndsPrefix(prefix: Key, after: Key) {
    forall k :: AtMost(prefix, k) && Less(k, after) <==> prefix <= k
  }

  /** Strips maximal trailing units, then increments: the least key above every key with the prefix. */
  method FirstKeyAfterPrefix(prefix: Key) returns (after: Option<Key>)
    ensures after.None? <==> AllMaximal(prefix)
    ensures after.None? ==> forall bound :: !AboveAll(prefix, bound)
    ensures after.Some? ==> LeastAboveAll(prefix, after.value) && EndsPrefix(prefix, after.value)
  {
    var head := prefix;
    while |head| > 0 && head[|head| - 1] == MAX_CODE_UNIT
      invariant head <= prefix && AllMaximal(prefix[|head|..])
    {
      head := head[..|head| - 1];
    }
    if |head| == 0 {
      forall bound ensures !AboveAll(prefix, bound) { NothingAboveMaximal(prefix, bound); }
      return None;
    }
    var increased := head[..|head| - 1] + [head[|head| - 1] + 1];
    ghost var tail := prefix[|head|..];
    assert prefix == head + tail;
    forall k ensures AtMost(prefix, k) && Less(k, increased) <==> prefix <= k {
      RangeIsPrefix(head, tail, k);
    }
    IncrementIsLeast(prefix, increased);
    after := Some(increased);
  }

  // ---- compileListOptions ----

  /** What the caller asked for: the key meets every bound that was given. */
  predicate Qualifies(options: ListOptions, k: Key) {
    && (options.start.Some? ==> AtMost(options.start.value, k))
    && (options.startAfter.Some? ==> Less(options.startAfter.value, k))
    && (options.end.Some? ==> Less(k, options.end.value))
    && (options.prefix.Some? ==> options.prefix.value <= k)
  }

  predicate Within(start: Key, end: Option<Key>, k: Key) {
    AtMost(start, k) && (end.Some? ==> Less(k, end.value))
  }

  predicate InRange(range: Range, k: Key) {
    Within(range.start, range.end, k)
  }

  predicate Refused(options: ListOptions) {
    || (options.start.Some? && options.startAfter.Some?)
    || (options.limit.Some? && !options.limit.value.Positive())
  }

  ghost predicate Exact(options: ListOptions, range: Option<Range>) {
    forall k :: Qualifies(options, k) <==> range.Some? && InRange(range.value, k)
  }

  /** A key between a prefix and one of its extensions is itself an extension. */
  lemma {:induction false} Between(prefix: Key, middle: Key, k: Key)
    requires prefix <= k && AtMost(prefix, middle) && AtMost(middle, k)
    ensures prefix <= middle
  {
    if prefix != [] && middle != prefix && middle != k {
      Between(prefix[1..], middle[1..], k[1..]);
    }
  }

  /** A start before the prefix moves up to it. */
  lemma StartBeforePrefix(start: Key, end: Option<Key>, prefix: Key)
    requires Less(start, prefix)
    ensures forall k :: Within(start, end, k) && prefix <= k <==> Within(prefix, end, k) && prefix <= k
  {
    forall k | prefix <= k ensures AtMost(prefix, k) && AtMost(start, k) {
      PrefixAtMost(prefix, k);
      AtMostTransitive(start, prefix, k);
    }
  }

  /** A start past the prefix's last key leaves nothing. */
  lemma StartPastPrefix(start: Key, prefix: Key)
    requires !Less(start, prefix) && !(prefix <= start)
    ensures forall k :: prefix <= k ==> !AtMost(start, k)
  {
    NotLess(start, prefix);
    forall k | prefix <= k ensures !AtMost(start, k) {
      if AtMost(start, k) { Between(prefix, start, k); }
    }
  }

  /** Nothing sorts after the keys with a prefix of maximal units. */
  lemma MaximalPrefix(start: Key, prefix: Key)
    requires prefix <= start && AllMaximal(prefix)
    ensures forall k :: AtMost(start, k) ==> prefix <= k
  {
    PrefixAtMost(prefix, start);
    forall k | AtMost(start, k) ensures prefix <= k {
      AtMostTransitive(prefix, start, k);
      if Less(prefix, k) { TailOfMaximalUnits(prefix, k); }
    }
  }

  lemma NoEndGiven(start: Key, prefix: Key, after: Key)
    requires prefix <= start && EndsPrefix(prefix, after)
    ensures forall k :: AtMost(start, k) && prefix <= k <==> Within(start, Some(after), k)
  {
    PrefixAtMost(prefix, start);
    forall k | AtMost(start, k) ensures AtMost(prefix, k) { AtMostTransitive(prefix, start, k); }
  }

  lemma EndBeforePrefix(end: Key, prefix: Key)
    requires AtMost(end, prefix)
    ensures forall k :: prefix <= k ==> !Less(k, end)
  {
    forall k | prefix <= k ensures !Less(k, end) {
      PrefixAtMost(prefix, k);
      AtMostTransitive(end, prefix, k);
      NotLess(k, end);
    }
  }

  lemma EndInsidePrefix(start: Key, end: Key, prefix: Key, after: Key)
    requires prefix <= start && prefix <= end && EndsPrefix(prefix, after)
    ensures forall k :: Within(start, Some(end), k) ==> prefix <= k
  {
    NoEndGiven(start, prefix, after);
    assert Less(end, after);
    forall k | Within(start, Some(end), k) ensures prefix <= k {
      LessTransitive(k, end, after);
      assert Within(start, Some(after), k);
    }
  }

  lemma EndPastPrefix(start: Key, end: Key, prefix: Key, after: Key)
    requires prefix <= start && !AtMost(end, prefix) && !(prefix <= end) && EndsPrefix(prefix, after)
    ensures forall k :: Within(start, Some(end), k) && prefix <= k <==> Within(start, Some(after), k)
  {
    NoEndGiven(start, prefix, after);
    NotLess(prefix, end);
    NotLess(end, prefix);
    LessTotal(prefix, end);
    forall k | prefix <= k ensures Less(k, end) {
      NotLess(k, end);
      if AtMost(end, k) { Between(prefix, end, k); }
    }
  }

  lemma EmptyRange(start: Key, end: Key)
    requires AtMost(end, start)
    ensures forall k :: !Within(start, Some(end), k)
  {
    forall k | AtMost(start, k) ensures !Less(k, end) {
      AtMostTransitive(end, start, k);
      NotLess(k, end);
    }
  }

  lemma AfterBecomesStart(after: Key)
    ensures forall k :: Less(after, k) <==> AtMost(after + [NULL_CHARACTER], k)
  {
    forall k ensures Less(after, k) <==> AtMost(after + [NULL_CHARACTER], k) {
      SuccessorIsLeastAbove(after, k);
    }
  }

  /** Narrows a range to the keys with a prefix, unless none of them is in it. */
  method NarrowToPrefix(from: Key, to: Option<Key>, prefix: Key) returns (start: Key, end: Option<Key>, empty: bool)
    requires |prefix| > 0
    ensures empty ==> forall k :: !(Within(from, to, k) && prefix <= k)
    ensures !empty ==> forall k :: Within(from, to, k) && prefix <= k <==> Within(start, end, k)
  {
    start, end, empty := from, to, false;
    if Less(start, prefix) {
      StartBeforePrefix(start, end, prefix);
      start := prefix;
    } else if prefix <= start {
    } else {
      StartPastPrefix(start, prefix);
      return start, end, true;
    }
    var keyAfterPrefix := FirstKeyAfterPrefix(prefix);
    if keyAfterPrefix.None? {
      MaximalPrefix(start, prefix);
    } else if end.None? {
      NoEndGiven(start, prefix, keyAfterPrefix.value);
      end := keyAfterPrefix;
    } else if AtMost(end.value, prefix) {
      EndBeforePrefix(end.value, prefix);
      return start, end, true;
    } else if prefix <= end.value {
      EndInsidePrefix(start, end.value, prefix, keyAfterPrefix.value);
    } else {
      EndPastPrefix(start, end.value, prefix, keyAfterPrefix.value);
      end := keyAfterPrefix;
    }
  }

  /**
   * Turns the given bounds into one half-open range, or refuses them, or reports that no key can
   * qualify. The range is exact over every key, and it is absent only when it would be empty.
   */
  method CompileListOptions(given: Option<ListOptions>) returns (r: Result<Option<Range>>)
    ensures r.Threw? <==> given.Some? && Refused(given.value)
    ensures r.Ok? && given.Some? ==> Exact(given.value, r.value)
    ensures r.Ok? && given.None? ==> r.value.Some? && forall k :: InRange(r.value.value, k)
    ensures r.Ok? && r.value.Some? ==> InRange(r.value.value, r.value.value.start)
    ensures r.Ok? && r.value.Some? ==>
      && r.value.value.reverse == (given.Some? && given.value.reverse)
      && r.value.value.limit == if given.Some? then given.value.limit else None
  {
    var start: Key := [];
    var end: Option<Key> := None;
    var reverse := false;
    var limit: Option<JsNumber> := None;

    if given.Some? {
      var options := given.value;
      if options.start.Some? {
        if options.startAfter.Some? { return Threw; }
        start := options.start.value;
      }
      if options.startAfter.Some? {
        start := options.startAfter.value + [NULL_CHARACTER];
        AfterBecomesStart(options.startAfter.value);
      }
      if options.end.Some? { end := options.end; }
      reverse := options.reverse;
      if options.limit.Some? {
        if !options.limit.value.Positive() { return Threw; }
        limit := options.limit;
      }
      ghost var start0, end0 := start, end;
      assert forall k :: Qualifies(options, k) <==>
        Within(start0, end0, k) && (options.prefix.Some? ==> options.prefix.value <= k);

      if options.prefix.Some? && |options.prefix.value| > 0 {
        var empty;
        start, end, empty := NarrowToPrefix(start, end, options.prefix.value);
        if empty { return Ok(None); }
      }
      assert forall k :: Qualifies(options, k) <==> Within(start, end, k);
    }
    if end.Some? && AtMost(end.value, start) {
      EmptyRange(start, end.value);
      return Ok(None);
    }
    if end.Some? { NotLess(start, end.value); }
    r := Ok(Some(Range(start, end, reverse, limit)));
  }

  /** With `Exact`: no range is returned exactly when no key qualifies. */
  lemma NoRangeExactlyWhenEmpty(options: ListOptions, range: Option<Range>)
    requires Exact(options, range)
    requires range.Some? ==> InRange(range.value, range.value.start)
    ensures range.None? <==> forall k :: !Qualifies(options, k)
  {
    if range.Some? { assert Qualifies(options, range.value.start); }
  }
}
