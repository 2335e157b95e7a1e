/**
 * The await rewrite of `src/vite.ts`. A program is a tree of tokens in which neighbouring subtrees
 * always have a token of their parent between them; positions are token positions. The rewrite edits
 * the text while the tree is visited, as the source does, and the lemmas say which tree it spells.
 */
module AwaitTree {
  type Token = string

  datatype Tree =
    | Leaf(token: Token)
    | Prefix(token: Token, inner: Tree)
    | Suffix(inner: Tree, token: Token)
    | Join(left: Tree, token: Token, right: Tree)
    | Paren(inner: Tree)
    | Call(callee: string, arguments: Arguments)  // of a plain identifier
    | Await(argument: Tree)
    | ForAwait(head: Tree, right: Tree, body: Tree)
    | AwaitUsing(init: Tree)

  datatype Arguments = Done | More(argument: Tree, rest: Arguments)

  function One(t: Tree): Arguments {
    More(t, Done)
  }

  const RESUME := "__resumeAwait"
  const GATE := "__gateAwait"
  const ITERABLE := "__gateAsyncIterable"

  function Print(t: Tree): (tokens: seq<Token>)
    ensures |tokens| > 0
  {
    match t
    case Leaf(token) => [token]
    case Prefix(token, inner) => [token] + Print(inner)
    case Suffix(inner, token) => Print(inner) + [token]
    case Join(left, token, right) => Print(left) + [token] + Print(right)
    case Paren(inner) => ["("] + Print(inner) + [")"]
    case Call(callee, arguments) =>
      [callee] + (if arguments.Done? then ["("] else []) + PrintArguments(arguments, "(")
    case Await(argument) => ["await"] + Print(argument)
    case ForAwait(head, right, body) => ["for await ("] + Print(head) + ["of"] + Print(right) + [")"] + Print(body)
    case AwaitUsing(init) => ["await using"] + Print(init)
  }

  /** Each argument after the token before it, and the closing bracket. */
  function PrintArguments(arguments: Arguments, before: Token): (tokens: seq<Token>)
    ensures |tokens| > 0
  {
    match arguments
    case Done => [")"]
    case More(argument, rest) => [before] + Print(argument) + PrintArguments(rest, ",")
  }

  /** Whether the tree's text begins with that of an await expression in it. */
  predicate StartsWithAwait(t: Tree) {
    match t
    case Await(_) => true
    case Suffix(inner, _) => StartsWithAwait(inner)
    case Join(left, _, _) => StartsWithAwait(left)
    case _ => false
  }

  // ---------- Coverage, as `countAwaitCoverage` counts it

  function Unparenthesized(t: Tree): Tree {
    if t.Paren? then Unparenthesized(t.inner) else t
  }

  predicate DirectCall(t: Tree, name: string) {
    var u := Unparenthesized(t);
    u.Call? && u.callee == name
  }

  predicate CoversAwait(callee: string, arguments: Arguments) {
    && callee == RESUME && arguments.More?
    && var u := Unparenthesized(arguments.argument); u.Await? && DirectCall(u.argument, GATE)
  }

  function Total(t: Tree): nat {
    match t
    case Leaf(_) => 0
    case Prefix(_, inner) => Total(inner)
    case Suffix(inner, _) => Total(inner)
    case Join(left, _, right) => Total(left) + Total(right)
    case Paren(inner) => Total(inner)
    case Call(_, arguments) => TotalOf(arguments)
    case Await(argument) => 1 + Total(argument)
    case ForAwait(head, right, body) => 1 + Total(head) + Total(right) + Total(body)
    case AwaitUsing(init) => 1 + Total(init)
  }

  function TotalOf(arguments: Arguments): nat {
    match arguments
    case Done => 0
    case More(argument, rest) => Total(argument) + TotalOf(rest)
  }

  function Transformed(t: Tree): nat {
    match t
    case Leaf(_) => 0
    case Prefix(_, inner) => Transformed(inner)
    case Suffix(inner, _) => Transformed(inner)
    case Join(left, _, right) => Transformed(left) + Transformed(right)
    case Paren(inner) => Transformed(inner)
    case Call(callee, arguments) => (if CoversAwait(callee, arguments) then 1 else 0) + TransformedOf(arguments)
    case Await(argument) => Transformed(argument)
    case ForAwait(head, right, body) =>
      (if DirectCall(right, ITERABLE) then 1 else 0) + Transformed(head) + Transformed(right) + Transformed(body)
    case AwaitUsing(init) => Transformed(init)
  }

  function TransformedOf(arguments: Arguments): nat {
    match arguments
    case Done => 0
    case More(argument, rest) => Transformed(argument) + TransformedOf(rest)
  }

  // ---------- The tree the edited text spells

  /**
   * `t` rewritten, its leading await (if its text begins with one) wrapped in a call of `leading`.
   * That is `__resumeAwait`, unless an operand starts with the await: both wrappers then open at
   * one position, where the later insertion stands first and so trades places with the earlier one.
   */
  function RewriteAs(t: Tree, leading: string): Tree
    decreases t, 0
  {
    match t
    case Leaf(_) => t
    case Prefix(token, inner) => Prefix(token, RewriteAs(inner, RESUME))
    case Suffix(inner, token) => Suffix(RewriteAs(inner, leading), token)
    case Join(left, token, right) => Join(RewriteAs(left, leading), token, RewriteAs(right, RESUME))
    case Paren(inner) => Paren(RewriteAs(inner, RESUME))
    case Call(callee, arguments) => Call(callee, RewriteArguments(arguments))
    case Await(argument) => Call(leading, One(Paren(Await(Operand(argument, GATE)))))
    case ForAwait(head, right, body) =>
      ForAwait(RewriteAs(head, RESUME), Operand(right, ITERABLE), RewriteAs(body, RESUME))
    case AwaitUsing(init) => AwaitUsing(RewriteAs(init, RESUME))
  }

  function RewriteArguments(arguments: Arguments): Arguments
    decreases arguments, 0
  {
    match arguments
    case Done => Done
    case More(argument, rest) => More(RewriteAs(argument, RESUME), RewriteArguments(rest))
  }

  /** An operand that was wrapped in a call of `wrapper`. */
  function Operand(t: Tree, wrapper: string): Tree
    decreases t, 1
  {
    if StartsWithAwait(t) then Call(RESUME, One(Paren(RewriteAs(t, wrapper))))
    else Call(wrapper, One(Paren(RewriteAs(t, RESUME))))
  }

  function Rewrite(t: Tree): Tree {
    RewriteAs(t, RESUME)
  }

  /** Every operand of an await or a for-await starts with something else than an await. */
  predicate OperandsApart(t: Tree) {
    match t
    case Leaf(_) => true
    case Prefix(_, inner) => OperandsApart(inner)
    case Suffix(inner, _) => OperandsApart(inner)
    case Join(left, _, right) => OperandsApart(left) && OperandsApart(right)
    case Paren(inner) => OperandsApart(inner)
    case Call(_, arguments) => OperandsApartIn(arguments)
    case Await(argument) => !StartsWithAwait(argument) && OperandsApart(argument)
    case ForAwait(head, right, body) =>
      !StartsWithAwait(right) && OperandsApart(head) && OperandsApart(right) && OperandsApart(body)
    case AwaitUsing(init) => OperandsApart(init)
  }

  predicate OperandsApartIn(arguments: Arguments) {
    arguments.More? ==> OperandsApart(arguments.argument) && OperandsApartIn(arguments.rest)
  }

  predicate NoAwaitUsing(t: Tree) {
    match t
    case Leaf(_) => true
    case Prefix(_, inner) => NoAwaitUsing(inner)
    case Suffix(inner, _) => NoAwaitUsing(inner)
    case Join(left, _, right) => NoAwaitUsing(left) && NoAwaitUsing(right)
    case Paren(inner) => NoAwaitUsing(inner)
    case Call(_, arguments) => NoAwaitUsingIn(arguments)
    case Await(argument) => NoAwaitUsing(argument)
    case ForAwait(head, right, body) => NoAwaitUsing(head) && NoAwaitUsing(right) && NoAwaitUsing(body)
    case AwaitUsing(_) => false
  }

  predicate NoAwaitUsingIn(arguments: Arguments) {
    arguments.More? ==> NoAwaitUsing(arguments.argument) && NoAwaitUsingIn(arguments.rest)
  }
}

/** `MagicString`, as far as the rewrite uses it, and the visitor that edits it. */
module AwaitEdits {
  import opened AwaitTree

  /** `left[i]` belongs to what ends at position `i`, `right[i]` to what starts there. */
  datatype Edits = Edits(left: seq<seq<Token>>, right: seq<seq<Token>>)

  predicate Fits(m: Edits, length: nat) {
    |m.left| == |m.right| == length + 1
  }

  function PrependLeft(m: Edits, i: nat, text: seq<Token>): Edits
    requires i < |m.left|
  {
    m.(left := m.left[i := text + m.left[i]])
  }

  function AppendLeft(m: Edits, i: nat, text: seq<Token>): Edits
    requires i < |m.left|
  {
    m.(left := m.left[i := m.left[i] + text])
  }

  function AppendRight(m: Edits, i: nat, text: seq<Token>): Edits
    requires i < |m.right|
  {
    m.(right := m.right[i := m.right[i] + text])
  }

  const CLOSE := [")", ")"]

  function Open(name: string): seq<Token> { [name, "(", "("] }

  /** The visitor, parents first, over a tree whose text starts at `at`. */
  function Visit(t: Tree, at: nat, m: Edits): (r: Edits)
    requires |m.left| == |m.right| && at + |Print(t)| < |m.left|
    ensures |r.left| == |r.right| == |m.left|
  {
    match t
    case Leaf(_) => m
    case Prefix(_, inner) => Visit(inner, at + 1, m)
    case Suffix(inner, _) => Visit(inner, at, m)
    case Join(left, _, right) => Visit(right, at + |Print(left)| + 1, Visit(left, at, m))
    case Paren(inner) => Visit(inner, at + 1, m)
    case Call(_, arguments) => VisitArguments(arguments, "(", at + 1, m)
    case Await(argument) =>
      var end := at + |Print(t)|;
      var m1 := PrependLeft(PrependLeft(m, at, Open(RESUME)), at + 1, Open(GATE));
      var m2 := AppendRight(AppendRight(m1, end, CLOSE), end, CLOSE);
      Visit(argument, at + 1, m2)
    case ForAwait(head, right, body) =>
      var start := at + 1 + |Print(head)| + 1;
      var end := start + |Print(right)|;
      var m1 := AppendRight(PrependLeft(m, start, Open(ITERABLE)), end, CLOSE);
      Visit(body, end + 1, Visit(right, start, Visit(head, at + 1, m1)))
    case AwaitUsing(init) => Visit(init, at + 1, m)
  }

  /** The visitor over arguments whose text, with the token before them, starts at `at`. */
  function VisitArguments(arguments: Arguments, before: Token, at: nat, m: Edits): (r: Edits)
    requires |m.left| == |m.right| && at + |PrintArguments(arguments, before)| < |m.left|
    ensures |r.left| == |r.right| == |m.left|
  {
    match arguments
    case Done => m
    case More(argument, rest) =>
      VisitArguments(rest, ",", at + 1 + |Print(argument)|, Visit(argument, at + 1, m))
  }

  /** The text from token `a` to before position `b`, without what is inserted at these two. */
  function Text(m: Edits, tokens: seq<Token>, a: nat, b: nat): seq<Token>
    requires a < b <= |tokens| && Fits(m, |tokens|)
    decreases b - a
  {
    if a + 1 == b then [tokens[a]]
    else [tokens[a]] + m.left[a + 1] + m.right[a + 1] + Text(m, tokens, a + 1, b)
  }

  function Render(m: Edits, tokens: seq<Token>): seq<Token>
    requires |tokens| > 0 && Fits(m, |tokens|)
  {
    m.left[0] + m.right[0] + Text(m, tokens, 0, |tokens|) + m.left[|tokens|] + m.right[|tokens|]
  }

  function Untouched(length: nat): Edits {
    Edits(seq(length + 1, _ => []), seq(length + 1, _ => []))
  }
}

module AwaitRewriteTheorems {
  import opened AwaitTree
  import opened AwaitEdits

  // ---------- What visiting a tree inserts

  function Closers(n: nat): seq<Token> {
    seq(n, _ => ")")
  }

  function OwnLeft(t: Tree): seq<Token> {
    if StartsWithAwait(t) then Open(RESUME) else []
  }

  /** The brackets closed where the tree's text ends. */
  function OwnRight(t: Tree): nat {
    match t
    case Leaf(_) => 0
    case Prefix(_, inner) => OwnRight(inner)
    case Suffix(_, _) => 0
    case Join(_, _, right) => OwnRight(right)
    case Paren(_) => 0
    case Call(_, _) => 0
    case Await(argument) => 4 + OwnRight(argument)
    case ForAwait(_, _, body) => OwnRight(body)
    case AwaitUsing(init) => OwnRight(init)
  }

  lemma ClosersAdd(m: nat, n: nat)
    ensures Closers(m) + Closers(n) == Closers(m + n)
  {
  }

  /** From `m` to `r` text came before all at the left of `a`, after all at the right of `b`, or between. */
  ghost predicate Within(m: Edits, r: Edits, a: nat, b: nat, before: seq<Token>, closers: nat) {
    && |m.left| == |m.right| == |r.left| == |r.right| && a < b < |m.left|
    && (forall i :: 0 <= i < |m.left| && (i < a || b <= i) ==> r.left[i] == m.left[i])
    && (forall i :: 0 <= i < |m.left| && (i <= a || b < i) ==> r.right[i] == m.right[i])
    && r.left[a] == before + m.left[a]
    && r.right[b] == m.right[b] + Closers(closers)
  }

  lemma Unedited(m: Edits, a: nat, b: nat)
    requires |m.left| == |m.right| && a < b < |m.left|
    ensures Within(m, m, a, b, [], 0)
  {
    assert Closers(0) == [];
    assert [] + m.left[a] == m.left[a];
  }

  lemma Wider(m: Edits, r: Edits, a: nat, b: nat, before: seq<Token>, closers: nat, a2: nat, b2: nat)
    requires Within(m, r, a, b, before, closers) && a2 <= a && b <= b2 < |m.left|
    ensures Within(m, r, a2, b2, if a2 == a then before else [], if b2 == b then closers else 0)
  {
    assert Closers(0) == [];
    assert [] + m.left[a2] == m.left[a2];
  }

  lemma OneThenOther(m: Edits, x: Edits, r: Edits, a: nat, c: nat, d: nat, b: nat,
                     before: seq<Token>, before2: seq<Token>, closers: nat, closers2: nat)
    requires Within(m, x, a, c, before, closers) && Within(x, r, d, b, before2, closers2) && c < d
    ensures Within(m, r, a, b, before, closers2)
  {
  }

  /** Visiting a tree inserts at its start, at its end and between, and nowhere else. */
  ghost predicate OnlyWithin(m: Edits, r: Edits, t: Tree, at: nat) {
    Within(m, r, at, at + |Print(t)|, OwnLeft(t), OwnRight(t))
  }

  lemma {:induction false} VisitOnlyWithin(t: Tree, at: nat, m: Edits)
    requires |m.left| == |m.right| && at + |Print(t)| < |m.left|
    ensures OnlyWithin(m, Visit(t, at, m), t, at)
    decreases t, 1
  {
    hide Within;
    var end := at + |Print(t)|;
    match t
    case Leaf(_) => Unedited(m, at, end);
    case Prefix(_, inner) =>
      VisitOnlyWithin(inner, at + 1, m);
      Wider(m, Visit(t, at, m), at + 1, end, OwnLeft(inner), OwnRight(inner), at, end);
    case Suffix(inner, _) =>
      VisitOnlyWithin(inner, at, m);
      Wider(m, Visit(t, at, m), at, end - 1, OwnLeft(inner), OwnRight(inner), at, end);
    case Join(_, _, _) => JoinOnlyWithin(t, at, m);
    case Paren(inner) =>
      VisitOnlyWithin(inner, at + 1, m);
      Wider(m, Visit(t, at, m), at + 1, end - 1, OwnLeft(inner), OwnRight(inner), at, end);
    case Call(_, arguments) =>
      ArgumentsOnlyWithin(arguments, "(", at + 1, m);
      CallEnds(t, at);
      Wider(m, Visit(t, at, m), at + 1, at + 1 + |PrintArguments(arguments, "(")|, [], 0, at, end);
    case Await(_) => AwaitOnlyWithin(t, at, m);
    case ForAwait(_, _, _) => ForAwaitOnlyWithin(t, at, m);
    case AwaitUsing(init) =>
      VisitOnlyWithin(init, at + 1, m);
      Wider(m, Visit(t, at, m), at + 1, end, OwnLeft(init), OwnRight(init), at, end);
  }

  lemma CallEnds(t: Tree, at: nat)
    requires t.Call?
    ensures at + |Print(t)| == at + 1 + |PrintArguments(t.arguments, "(")| + if t.arguments.Done? then 1 else 0
  {
  }

  /** Visiting arguments inserts between the token before them and their closing bracket only. */
  lemma {:induction false} ArgumentsOnlyWithin(arguments: Arguments, before: Token, at: nat, m: Edits)
    requires |m.left| == |m.right| && at + |PrintArguments(arguments, before)| < |m.left|
    ensures Within(m, VisitArguments(arguments, before, at, m), at, at + |PrintArguments(arguments, before)|, [], 0)
    decreases arguments, 1
  {
    hide Within;
    var end := at + |PrintArguments(arguments, before)|;
    match arguments
    case Done => Unedited(m, at, end);
    case More(argument, rest) =>
      var c := at + 1 + |Print(argument)|;
      var x := Visit(argument, at + 1, m);
      VisitOnlyWithin(argument, at + 1, m);
      ArgumentsOnlyWithin(rest, ",", c, x);
      OneMoreArgument(m, x, VisitArguments(rest, ",", c, x), at, c, end, OwnLeft(argument), OwnRight(argument));
  }

  lemma OneMoreArgument(m: Edits, x: Edits, r: Edits, at: nat, c: nat, end: nat, before: seq<Token>, closers: nat)
    requires Within(m, x, at + 1, c, before, closers) && Within(x, r, c, end, [], 0)
    ensures Within(m, r, at, end, [], 0)
  {
    assert Closers(0) == [];
    assert [] + m.left[at] == m.left[at];
  }

  lemma {:induction false} JoinOnlyWithin(t: Tree, at: nat, m: Edits)
    requires t.Join? && |m.left| == |m.right| && at + |Print(t)| < |m.left|
    ensures OnlyWithin(m, Visit(t, at, m), t, at)
    decreases t, 0
  {
    hide Within;
    var x := Visit(t.left, at, m);
    var c := at + |Print(t.left)|;
    VisitOnlyWithin(t.left, at, m);
    VisitOnlyWithin(t.right, c + 1, x);
    OneThenOther(m, x, Visit(t, at, m), at, c, c + 1, at + |Print(t)|,
                 OwnLeft(t.left), OwnLeft(t.right), OwnRight(t.left), OwnRight(t.right));
  }

  /** The edits of an await itself, before its argument is visited. */
  function OpenAwait(m: Edits, at: nat, end: nat): (r: Edits)
    requires |m.left| == |m.right| && at + 1 < end < |m.left|
    ensures |r.left| == |r.right| == |m.left|
  {
    AppendRight(AppendRight(PrependLeft(PrependLeft(m, at, Open(RESUME)), at + 1, Open(GATE)), end, CLOSE), end, CLOSE)
  }

  lemma AwaitWraps(m: Edits, x: Edits, r: Edits, at: nat, end: nat, before: seq<Token>, closers: nat)
    requires |m.left| == |m.right| && at + 1 < end < |m.left|
    requires x == OpenAwait(m, at, end) && Within(x, r, at + 1, end, before, closers)
    ensures Within(m, r, at, end, Open(RESUME), 4 + closers)
  {
    assert x.right[end] == m.right[end] + Closers(4);
    ClosersAdd(4, closers);
  }

  lemma {:induction false} AwaitOnlyWithin(t: Tree, at: nat, m: Edits)
    requires t.Await? && |m.left| == |m.right| && at + |Print(t)| < |m.left|
    ensures OnlyWithin(m, Visit(t, at, m), t, at)
    decreases t, 0
  {
    var end := at + |Print(t)|;
    var x := OpenAwait(m, at, end);
    VisitOnlyWithin(t.argument, at + 1, x);
    AwaitWraps(m, x, Visit(t, at, m), at, end, OwnLeft(t.argument), OwnRight(t.argument));
  }

  /** The edits of a for-await itself. */
  function OpenForAwait(m: Edits, start: nat, end: nat): (r: Edits)
    requires |m.left| == |m.right| && start < end < |m.left|
    ensures |r.left| == |r.right| == |m.left|
  {
    AppendRight(PrependLeft(m, start, Open(ITERABLE)), end, CLOSE)
  }

  lemma ForAwaitWraps(m: Edits, x: Edits, r: Edits, at: nat, start: nat, end: nat, stop: nat,
                      before: seq<Token>, closers: nat)
    requires |m.left| == |m.right| && at < start < end < stop < |m.left|
    requires x == OpenForAwait(m, start, end) && Within(x, r, at + 1, stop, before, closers)
    requires at + 1 < start
    ensures Within(m, r, at, stop, [], closers)
  {
    assert [] + m.left[at] == m.left[at];
  }

  lemma ForAwaitParts(m: Edits, x: Edits, x2: Edits, x3: Edits, r: Edits,
                      at: nat, c: nat, start: nat, end: nat, stop: nat,
                      before: seq<Token>, before2: seq<Token>, before3: seq<Token>,
                      closers: nat, closers2: nat, closers3: nat)
    requires |m.left| == |m.right| && at + 1 < c < start < end < end + 1 < stop < |m.left|
    requires x == OpenForAwait(m, start, end)
    requires Within(x, x2, at + 1, c, before, closers)
    requires Within(x2, x3, start, end, before2, closers2)
    requires Within(x3, r, end + 1, stop, before3, closers3)
    ensures Within(m, r, at, stop, [], closers3)
  {
    hide Within;
    OneThenOther(x, x2, x3, at + 1, c, start, end, before, before2, closers, closers2);
    OneThenOther(x, x3, r, at + 1, end, end + 1, stop, before, before3, closers2, closers3);
    ForAwaitWraps(m, x, r, at, start, end, stop, before, closers3);
  }

  lemma ForAwaitVisit(t: Tree, at: nat, m: Edits)
    requires t.ForAwait? && |m.left| == |m.right| && at + |Print(t)| < |m.left|
    ensures var c := at + 1 + |Print(t.head)|; var end := c + 1 + |Print(t.right)|;
      && at + |Print(t)| == end + 1 + |Print(t.body)|
      && Visit(t, at, m)
      == Visit(t.body, end + 1, Visit(t.right, c + 1, Visit(t.head, at + 1, OpenForAwait(m, c + 1, end))))
  {
  }

  lemma {:induction false} ForAwaitOnlyWithin(t: Tree, at: nat, m: Edits)
    requires t.ForAwait? && |m.left| == |m.right| && at + |Print(t)| < |m.left|
    ensures OnlyWithin(m, Visit(t, at, m), t, at)
    decreases t, 0
  {
    hide Within;
    hide Visit;
    hide Print;
    hide OpenForAwait;
    ForAwaitVisit(t, at, m);
    var c := at + 1 + |Print(t.head)|;
    var end := c + 1 + |Print(t.right)|;
    var x := OpenForAwait(m, c + 1, end);
    var x2 := Visit(t.head, at + 1, x);
    var x3 := Visit(t.right, c + 1, x2);
    VisitOnlyWithin(t.head, at + 1, x);
    VisitOnlyWithin(t.right, c + 1, x2);
    VisitOnlyWithin(t.body, end + 1, x3);
    ForAwaitParts(m, x, x2, x3, Visit(t.body, end + 1, x3), at, c, c + 1, end, at + |Print(t)|,
                  OwnLeft(t.head), OwnLeft(t.right), OwnLeft(t.body), OwnRight(t.head), OwnRight(t.right), OwnRight(t.body));
  }

  // ---------- What the edited text spells

  ghost predicate Blank(m: Edits, a: nat, b: nat) {
    |m.left| == |m.right| && b <= |m.left| && forall i :: a < i < b ==> m.left[i] == [] && m.right[i] == []
  }

  function Lead(t: Tree, leading: string): seq<Token> {
    if StartsWithAwait(t) then Open(leading) else []
  }

  /** With its own opening and closing, `text` spells the tree rewritten, whoever wraps its leading await. */
  ghost predicate Spells(t: Tree, text: seq<Token>) {
    forall leading :: Lead(t, leading) + text + Closers(OwnRight(t)) == Print(RewriteAs(t, leading))
  }

  /** The text of a part with all that is inserted at its two ends. */
  function Segment(m: Edits, tokens: seq<Token>, a: nat, b: nat): seq<Token>
    requires a < b <= |tokens| && Fits(m, |tokens|)
  {
    m.left[a] + m.right[a] + Text(m, tokens, a, b) + m.left[b] + m.right[b]
  }

  lemma {:induction false} TextSplits(m: Edits, tokens: seq<Token>, a: nat, c: nat, b: nat)
    requires a < c < b <= |tokens| && Fits(m, |tokens|)
    ensures Text(m, tokens, a, b) == Text(m, tokens, a, c) + m.left[c] + m.right[c] + Text(m, tokens, c, b)
    decreases c - a
  {
    if a + 1 == c {
    } else {
      TextSplits(m, tokens, a + 1, c, b);
    }
  }

  lemma {:induction false} TextSame(m: Edits, r: Edits, tokens: seq<Token>, a: nat, b: nat)
    requires a < b <= |tokens| && Fits(m, |tokens|) && Fits(r, |tokens|)
    requires forall i :: a < i < b ==> m.left[i] == r.left[i] && m.right[i] == r.right[i]
    ensures Text(m, tokens, a, b) == Text(r, tokens, a, b)
    decreases b - a
  {
    if a + 1 == b {
    } else {
      TextSame(m, r, tokens, a + 1, b);
    }
  }

  lemma TextAfter(m: Edits, tokens: seq<Token>, a: nat, b: nat)
    requires a + 1 < b <= |tokens| && Fits(m, |tokens|)
    ensures Text(m, tokens, a, b) == [tokens[a]] + m.left[a + 1] + m.right[a + 1] + Text(m, tokens, a + 1, b)
  {
  }

  lemma OneToken(m: Edits, tokens: seq<Token>, a: nat)
    requires a < |tokens| && Fits(m, |tokens|)
    ensures Text(m, tokens, a, a + 1) == [tokens[a]]
  {
  }

  /** A part between two tokens of its parent. */
  lemma TextAround(m: Edits, tokens: seq<Token>, a: nat, b: nat)
    requires a + 1 < b - 1 && b <= |tokens| && Fits(m, |tokens|)
    ensures Text(m, tokens, a, b) == [tokens[a]] + Segment(m, tokens, a + 1, b - 1) + [tokens[b - 1]]
  {
    hide Text;
    TextAfter(m, tokens, a, b);
    TextSplits(m, tokens, a + 1, b - 1, b);
    OneToken(m, tokens, b - 1);
  }

  /** A plain part of a tree spells itself rewritten. */
  lemma PlainSegment(t: Tree, m: Edits, r: Edits, tokens: seq<Token>, a: nat, b: nat)
    requires Fits(m, |tokens|) && b <= |tokens| && Within(m, r, a, b, OwnLeft(t), OwnRight(t))
    requires m.left[a] == m.right[a] == m.left[b] == m.right[b] == []
    requires Spells(t, Text(r, tokens, a, b))
    ensures Segment(r, tokens, a, b) == Print(RewriteAs(t, RESUME))
  {
    hide Text, Print, RewriteAs, OwnRight, StartsWithAwait;
    var text := Text(r, tokens, a, b);
    assert Lead(t, RESUME) + text + Closers(OwnRight(t)) == Print(RewriteAs(t, RESUME));
    assert r.left[a] == Lead(t, RESUME) && r.right[a] == [];
    assert r.left[b] == [] && r.right[b] == Closers(OwnRight(t));
    BlanksVanish(Lead(t, RESUME), text, Closers(OwnRight(t)));
  }

  lemma BlanksVanish(a: seq<Token>, b: seq<Token>, c: seq<Token>)
    ensures a + [] + b + [] + c == a + b + c
  {
  }

  // ---------- What a tree spells once its parts do

  lemma CloseTwice(x: seq<Token>, n: nat)
    ensures x + Closers(2) + Closers(n) == x + Closers(n) + CLOSE
  {
    ClosersAdd(2, n);
    ClosersAdd(n, 2);
    assert Closers(2) == CLOSE;
    assert x + Closers(2) + Closers(n) == x + (Closers(2) + Closers(n));
    assert x + Closers(n) + CLOSE == x + (Closers(n) + Closers(2));
  }

  /** An operand spells what `Operand` says, with both wrappers opened at its start. */
  lemma OperandSpells(t: Tree, wrapper: string, text: seq<Token>)
    requires Spells(t, text)
    ensures OwnLeft(t) + Open(wrapper) + text + Closers(2) + Closers(OwnRight(t)) == Print(Operand(t, wrapper))
  {
    var n := OwnRight(t);
    CloseTwice(OwnLeft(t) + Open(wrapper) + text, n);
    if StartsWithAwait(t) {
      var rest := Print(RewriteAs(t, wrapper));
      assert Lead(t, wrapper) + text + Closers(n) == rest;
      assert OwnLeft(t) + Open(wrapper) + text + Closers(n) == OwnLeft(t) + (Lead(t, wrapper) + text + Closers(n));
      assert Print(Operand(t, wrapper)) == Open(RESUME) + rest + CLOSE by {
        PrintWrapped(RESUME, RewriteAs(t, wrapper));
      }
    } else {
      var rest := Print(RewriteAs(t, RESUME));
      assert Lead(t, RESUME) + text + Closers(n) == rest;
      assert Lead(t, RESUME) == OwnLeft(t) == [];
      assert OwnLeft(t) + Open(wrapper) + text + Closers(n)
          == Open(wrapper) + (Lead(t, RESUME) + text + Closers(n));
      assert Print(Operand(t, wrapper)) == Open(wrapper) + rest + CLOSE by {
        PrintWrapped(wrapper, RewriteAs(t, RESUME));
      }
    }
  }

  lemma PrintWrapped(name: string, t: Tree)
    ensures Print(Call(name, One(Paren(t)))) == Open(name) + Print(t) + CLOSE
  {
    var argument := Paren(t);
    assert PrintArguments(One(argument), "(") == ["("] + Print(argument) + PrintArguments(Done, ",");
    assert Print(Call(name, One(argument))) == [name] + (["("] + (["("] + Print(t) + [")"]) + [")"]);
  }

  lemma PrefixSpells(t: Tree, text: seq<Token>)
    requires t.Prefix? && text + Closers(OwnRight(t.inner)) == [t.token] + Print(RewriteAs(t.inner, RESUME))
    ensures Spells(t, text)
  {
    assert [] + text == text;
  }

  lemma UsingSpells(t: Tree, text: seq<Token>)
    requires t.AwaitUsing? && text + Closers(OwnRight(t.init)) == ["await using"] + Print(RewriteAs(t.init, RESUME))
    ensures Spells(t, text)
  {
    assert [] + text == text;
  }

  lemma SuffixSpells(t: Tree, inner: seq<Token>, text: seq<Token>)
    requires t.Suffix? && Spells(t.inner, inner) && text == inner + Closers(OwnRight(t.inner)) + [t.token]
    ensures Spells(t, text)
  {
    forall leading ensures Lead(t, leading) + text + Closers(0) == Print(RewriteAs(t, leading)) {
      assert Lead(t.inner, leading) + inner + Closers(OwnRight(t.inner)) == Print(RewriteAs(t.inner, leading));
      Concatenated(Lead(t.inner, leading), inner, Closers(OwnRight(t.inner)), [t.token], Closers(0));
      assert [t.token] + Closers(0) == [t.token];
    }
  }

  lemma JoinSpells(t: Tree, left: seq<Token>, right: seq<Token>, text: seq<Token>)
    requires t.Join? && Spells(t.left, left)
    requires right + Closers(OwnRight(t.right)) == [t.token] + Print(RewriteAs(t.right, RESUME))
    requires text == left + Closers(OwnRight(t.left)) + right
    ensures Spells(t, text)
  {
    forall leading ensures Lead(t, leading) + text + Closers(OwnRight(t)) == Print(RewriteAs(t, leading)) {
      var first := Print(RewriteAs(t.left, leading));
      assert Lead(t.left, leading) + left + Closers(OwnRight(t.left)) == first;
      Concatenated(Lead(t.left, leading), left, Closers(OwnRight(t.left)), right, Closers(OwnRight(t.right)));
      assert Print(RewriteAs(t, leading)) == first + [t.token] + Print(RewriteAs(t.right, RESUME));
      assert first + [t.token] + Print(RewriteAs(t.right, RESUME)) == first + (right + Closers(OwnRight(t.right)));
    }
  }

  lemma Concatenated(a: seq<Token>, b: seq<Token>, c: seq<Token>, d: seq<Token>, e: seq<Token>)
    ensures a + (b + c + d) + e == (a + b + c) + (d + e)
  {
  }

  lemma ParenSpells(t: Tree, text: seq<Token>)
    requires t.Paren? && text == ["("] + Print(RewriteAs(t.inner, RESUME)) + [")"]
    ensures Spells(t, text)
  {
    assert [] + text + Closers(0) == text;
  }

  lemma CallSpells(t: Tree, text: seq<Token>)
    requires t.Call? && text == Print(Call(t.callee, RewriteArguments(t.arguments)))
    ensures Spells(t, text)
  {
    assert [] + text + Closers(0) == text;
  }

  lemma AwaitSpells(t: Tree, argument: seq<Token>, text: seq<Token>)
    requires t.Await? && Spells(t.argument, argument)
    requires text == ["await"] + OwnLeft(t.argument) + Open(GATE) + argument
    ensures Spells(t, text)
  {
    var n := OwnRight(t.argument);
    var rest := Print(Operand(t.argument, GATE));
    OperandSpells(t.argument, GATE, argument);
    AwaitClosers(text, OwnLeft(t.argument) + Open(GATE) + argument, n);
    assert text == ["await"] + (OwnLeft(t.argument) + Open(GATE) + argument);
    assert text + Closers(4 + n) == ["await"] + rest + CLOSE;
    hide Closers;
    forall leading ensures Lead(t, leading) + text + Closers(OwnRight(t)) == Print(RewriteAs(t, leading)) {
      PrintWrapped(leading, Await(Operand(t.argument, GATE)));
      Regrouped(Open(leading), text, Closers(4 + n), ["await"] + rest, CLOSE);
    }
  }

  lemma Regrouped(a: seq<Token>, b: seq<Token>, c: seq<Token>, d: seq<Token>, e: seq<Token>)
    requires b + c == d + e
    ensures a + b + c == a + d + e
  {
    assert a + b + c == a + (b + c);
    assert a + d + e == a + (d + e);
  }

  lemma AwaitClosers(text: seq<Token>, rest: seq<Token>, n: nat)
    requires text == ["await"] + rest
    ensures text + Closers(4 + n) == ["await"] + (rest + Closers(2) + Closers(n)) + CLOSE
  {
    CloseTwice(text + Closers(2), n);
    ClosersAdd(2, 2);
    ClosersAdd(4, n);
    assert text + Closers(4 + n) == text + (Closers(2) + Closers(2) + Closers(n));
    assert text + Closers(2) + Closers(2) + Closers(n) == text + (Closers(2) + Closers(2) + Closers(n));
    assert text + Closers(2) + Closers(n) == ["await"] + (rest + Closers(2) + Closers(n));
  }

  lemma ForAwaitSpells(t: Tree, head: seq<Token>, right: seq<Token>, body: seq<Token>, text: seq<Token>)
    requires t.ForAwait?
    requires head == Print(RewriteAs(t.head, RESUME)) && right == Print(Operand(t.right, ITERABLE))
    requires body + Closers(OwnRight(t.body)) == [")"] + Print(RewriteAs(t.body, RESUME))
    requires text == ["for await ("] + head + ["of"] + right + body
    ensures Spells(t, text)
  {
    var rest := body + Closers(OwnRight(t.body));
    forall leading ensures Lead(t, leading) + text + Closers(OwnRight(t)) == Print(RewriteAs(t, leading)) {
      assert Lead(t, leading) + text + Closers(OwnRight(t)) == ["for await ("] + head + ["of"] + right + rest;
    }
  }

  // ---------- What visiting a tree spells

  /** `t` is what the tokens from `at` on spell, and nothing was inserted inside them yet. */
  ghost predicate At(t: Tree, at: nat, m: Edits, tokens: seq<Token>) {
    && at + |Print(t)| <= |tokens| && Fits(m, |tokens|)
    && tokens[at..at + |Print(t)|] == Print(t) && Blank(m, at, at + |Print(t)|)
  }

  /** A part of a tree's text is the text of that part. */
  lemma PartOf(tokens: seq<Token>, at: nat, text: seq<Token>, from: nat, part: seq<Token>)
    requires at + |text| <= |tokens| && tokens[at..at + |text|] == text
    requires from + |part| <= |text| && text[from..from + |part|] == part
    ensures tokens[at + from..at + from + |part|] == part
  {
    var x := tokens[at + from..at + from + |part|];
    forall i | 0 <= i < |part| ensures x[i] == part[i] {
      assert part[i] == text[from..from + |part|][i] == text[from + i];
      assert text[from + i] == tokens[at..at + |text|][from + i] == tokens[at + from + i];
    }
  }

  lemma TokenOf(tokens: seq<Token>, at: nat, text: seq<Token>, i: nat)
    requires at + |text| <= |tokens| && tokens[at..at + |text|] == text && i < |text|
    ensures tokens[at + i] == text[i]
  {
    assert tokens[at..at + |text|][i] == tokens[at + i];
  }

  lemma TokenFirst(first: seq<Token>, lead: seq<Token>, text: seq<Token>, after: seq<Token>)
    ensures first + lead + [] + text + after == first + (lead + text + after)
  {
  }

  /** A last part after a token of its parent. */
  lemma AfterToken(t: Tree, m: Edits, r: Edits, tokens: seq<Token>, at: nat, end: nat)
    requires Fits(m, |tokens|) && at + 1 < end <= |tokens| && Within(m, r, at + 1, end, OwnLeft(t), OwnRight(t))
    requires m.left[at + 1] == m.right[at + 1] == []
    requires Spells(t, Text(r, tokens, at + 1, end))
    ensures Text(r, tokens, at, end) + Closers(OwnRight(t)) == [tokens[at]] + Print(RewriteAs(t, RESUME))
  {
    hide Text;
    hide Print;
    hide RewriteAs;
    hide OwnRight;
    hide StartsWithAwait;
    var text := Text(r, tokens, at + 1, end);
    assert Lead(t, RESUME) + text + Closers(OwnRight(t)) == Print(RewriteAs(t, RESUME));
    assert r.left[at + 1] == Lead(t, RESUME) && r.right[at + 1] == [];
    TextAfter(r, tokens, at, end);
    TokenFirst([tokens[at]], Lead(t, RESUME), text, Closers(OwnRight(t)));
  }

  /** A first part before a token of its parent. */
  lemma BeforeToken(t: Tree, m: Edits, r: Edits, tokens: seq<Token>, at: nat, c: nat, end: nat)
    requires Fits(m, |tokens|) && at < c < end <= |tokens|
    requires Within(m, r, at, c, OwnLeft(t), OwnRight(t))
    requires m.left[c] == m.right[c] == []
    ensures Text(r, tokens, at, end) == Text(r, tokens, at, c) + Closers(OwnRight(t)) + Text(r, tokens, c, end)
  {
    hide Text;
    TextSplits(r, tokens, at, c, end);
    assert r.left[c] == [] && r.right[c] == Closers(OwnRight(t));
  }

  lemma {:induction false} VisitSpells(t: Tree, at: nat, m: Edits, tokens: seq<Token>)
    requires At(t, at, m, tokens)
    ensures Spells(t, Text(Visit(t, at, m), tokens, at, at + |Print(t)|))
    decreases t, 1
  {
    match t
    case Leaf(token) =>
      TokenOf(tokens, at, Print(t), 0);
      assert [] + [token] + Closers(0) == [token];
    case Prefix(_, _) => VisitPrefix(t, at, m, tokens);
    case Suffix(_, _) => VisitSuffix(t, at, m, tokens);
    case Join(_, _, _) => VisitJoin(t, at, m, tokens);
    case Paren(_) => VisitParen(t, at, m, tokens);
    case Call(_, _) => VisitCall(t, at, m, tokens);
    case Await(_) => VisitAwait(t, at, m, tokens);
    case ForAwait(_, _, _) => VisitForAwait(t, at, m, tokens);
    case AwaitUsing(_) => VisitUsing(t, at, m, tokens);
  }

  lemma {:induction false} VisitPrefix(t: Tree, at: nat, m: Edits, tokens: seq<Token>)
    requires t.Prefix? && At(t, at, m, tokens)
    ensures Spells(t, Text(Visit(t, at, m), tokens, at, at + |Print(t)|))
    decreases t, 0
  {
    hide RewriteAs;
    hide Spells;
    hide Within;
    hide Text;
    var end := at + |Print(t)|;
    PartOf(tokens, at, Print(t), 1, Print(t.inner));
    TokenOf(tokens, at, Print(t), 0);
    VisitSpells(t.inner, at + 1, m, tokens);
    VisitOnlyWithin(t.inner, at + 1, m);
    AfterToken(t.inner, m, Visit(t, at, m), tokens, at, end);
    PrefixSpells(t, Text(Visit(t, at, m), tokens, at, end));
  }

  lemma {:induction false} VisitUsing(t: Tree, at: nat, m: Edits, tokens: seq<Token>)
    requires t.AwaitUsing? && At(t, at, m, tokens)
    ensures Spells(t, Text(Visit(t, at, m), tokens, at, at + |Print(t)|))
    decreases t, 0
  {
    hide RewriteAs;
    hide Spells;
    hide Within;
    hide Text;
    var end := at + |Print(t)|;
    PartOf(tokens, at, Print(t), 1, Print(t.init));
    TokenOf(tokens, at, Print(t), 0);
    VisitSpells(t.init, at + 1, m, tokens);
    VisitOnlyWithin(t.init, at + 1, m);
    AfterToken(t.init, m, Visit(t, at, m), tokens, at, end);
    UsingSpells(t, Text(Visit(t, at, m), tokens, at, end));
  }

  lemma {:induction false} VisitSuffix(t: Tree, at: nat, m: Edits, tokens: seq<Token>)
    requires t.Suffix? && At(t, at, m, tokens)
    ensures Spells(t, Text(Visit(t, at, m), tokens, at, at + |Print(t)|))
    decreases t, 0
  {
    hide RewriteAs;
    hide Spells;
    hide Within;
    hide Text;
    var end := at + |Print(t)|;
    var r := Visit(t, at, m);
    PartOf(tokens, at, Print(t), 0, Print(t.inner));
    TokenOf(tokens, at, Print(t), |Print(t)| - 1);
    VisitSpells(t.inner, at, m, tokens);
    VisitOnlyWithin(t.inner, at, m);
    BeforeToken(t.inner, m, r, tokens, at, end - 1, end);
    OneToken(r, tokens, end - 1);
    SuffixSpells(t, Text(r, tokens, at, end - 1), Text(r, tokens, at, end));
  }

  /** A part visited after another, one token on: neither disturbs the other. */
  lemma NextPart(m: Edits, x: Edits, r: Edits, tokens: seq<Token>, at: nat, c: nat, end: nat,
                 before: seq<Token>, before2: seq<Token>, closers: nat, closers2: nat)
    requires Fits(m, |tokens|) && end <= |tokens| && Blank(m, at, end)
    requires Within(m, x, at, c, before, closers) && Within(x, r, c + 1, end, before2, closers2)
    ensures Fits(x, |tokens|) && Fits(r, |tokens|) && Blank(x, c + 1, end)
    ensures x.left[c + 1] == x.right[c + 1] == []
    ensures r.left[c] == [] && r.right[c] == Closers(closers)
    ensures Text(x, tokens, at, c) == Text(r, tokens, at, c)
    ensures Text(r, tokens, at, end) == Text(x, tokens, at, c) + Closers(closers) + Text(r, tokens, c, end)
  {
    TextSame(x, r, tokens, at, c);
    TextSplits(r, tokens, at, c, end);
  }

  lemma {:induction false} VisitJoin(t: Tree, at: nat, m: Edits, tokens: seq<Token>)
    requires t.Join? && At(t, at, m, tokens)
    ensures Spells(t, Text(Visit(t, at, m), tokens, at, at + |Print(t)|))
    decreases t, 0
  {
    hide RewriteAs;
    hide Spells;
    hide Text;
    hide Within;
    hide OwnLeft;
    hide OwnRight;
    hide Print;
    JoinTokens(t, tokens, at);
    var end := at + |Print(t)|;
    var c := at + |Print(t.left)|;
    var x := Visit(t.left, at, m);
    var r := Visit(t.right, c + 1, x);
    VisitOnlyWithin(t.left, at, m);
    VisitOnlyWithin(t.right, c + 1, x);
    NextPart(m, x, r, tokens, at, c, end, OwnLeft(t.left), OwnLeft(t.right), OwnRight(t.left), OwnRight(t.right));
    VisitSpells(t.left, at, m, tokens);
    VisitSpells(t.right, c + 1, x, tokens);
    AfterToken(t.right, x, r, tokens, c, end);
    JoinSpells(t, Text(x, tokens, at, c), Text(r, tokens, c, end), Text(r, tokens, at, end));
  }

  lemma {:induction false} VisitParen(t: Tree, at: nat, m: Edits, tokens: seq<Token>)
    requires t.Paren? && At(t, at, m, tokens)
    ensures Spells(t, Text(Visit(t, at, m), tokens, at, at + |Print(t)|))
    decreases t, 0
  {
    hide RewriteAs;
    hide Spells;
    hide Within;
    hide Text;
    var end := at + |Print(t)|;
    var r := Visit(t, at, m);
    PartOf(tokens, at, Print(t), 1, Print(t.inner));
    TokenOf(tokens, at, Print(t), 0);
    TokenOf(tokens, at, Print(t), |Print(t)| - 1);
    VisitSpells(t.inner, at + 1, m, tokens);
    VisitOnlyWithin(t.inner, at + 1, m);
    PlainSegment(t.inner, m, r, tokens, at + 1, end - 1);
    TextAround(r, tokens, at, end);
    ParenSpells(t, Text(r, tokens, at, end));
  }

  ghost predicate ArgumentsAt(arguments: Arguments, before: Token, at: nat, m: Edits, tokens: seq<Token>) {
    var end := at + |PrintArguments(arguments, before)|;
    && end <= |tokens| && Fits(m, |tokens|)
    && tokens[at..end] == PrintArguments(arguments, before) && Blank(m, at, end)
  }

  /** What visiting the rest of the arguments leaves of one. */
  lemma ArgumentText(m: Edits, x: Edits, r: Edits, tokens: seq<Token>, at: nat, c: nat, end: nat,
                     before: seq<Token>, closers: nat)
    requires Fits(m, |tokens|) && at + 1 < c < end <= |tokens| && Blank(m, at, end)
    requires Within(m, x, at + 1, c, before, closers) && Within(x, r, c, end, [], 0)
    ensures Fits(x, |tokens|) && Fits(r, |tokens|) && Blank(x, c, end)
    ensures Text(r, tokens, at, end) == Text(x, tokens, at, c) + Closers(closers) + Text(r, tokens, c, end)
  {
    TextSame(x, r, tokens, at, c);
    TextSplits(r, tokens, at, c, end);
    assert r.left[c] == [] && r.right[c] == Closers(closers);
  }

  lemma ArgumentsTokens(arguments: Arguments, before: Token, at: nat, m: Edits, tokens: seq<Token>)
    requires ArgumentsAt(arguments, before, at, m, tokens)
    ensures tokens[at] == if arguments.Done? then ")" else before
    ensures arguments.More? ==>
      var c := at + 1 + |Print(arguments.argument)|;
      && c < |tokens| && At(arguments.argument, at + 1, m, tokens)
      && c + |PrintArguments(arguments.rest, ",")| == at + |PrintArguments(arguments, before)|
      && tokens[c..at + |PrintArguments(arguments, before)|] == PrintArguments(arguments.rest, ",")
  {
    var all := PrintArguments(arguments, before);
    TokenOf(tokens, at, all, 0);
    if arguments.More? {
      PartOf(tokens, at, all, 1, Print(arguments.argument));
      PartOf(tokens, at, all, 1 + |Print(arguments.argument)|, PrintArguments(arguments.rest, ","));
    }
  }

  lemma {:induction false} VisitArgumentsSpells(arguments: Arguments, before: Token, at: nat, m: Edits, tokens: seq<Token>)
    requires ArgumentsAt(arguments, before, at, m, tokens)
    ensures Text(VisitArguments(arguments, before, at, m), tokens, at, at + |PrintArguments(arguments, before)|)
         == PrintArguments(RewriteArguments(arguments), before)
    decreases arguments, 1
  {
    hide RewriteAs;
    hide Spells;
    hide Text;
    hide Within;
    hide Print;
    hide Visit;
    hide OwnLeft;
    hide OwnRight;
    ArgumentsTokens(arguments, before, at, m, tokens);
    match arguments
    case Done => OneToken(m, tokens, at);
    case More(argument, rest) =>
      var end := at + |PrintArguments(arguments, before)|;
      var c := at + 1 + |Print(argument)|;
      var x := Visit(argument, at + 1, m);
      var r := VisitArguments(rest, ",", c, x);
      VisitSpells(argument, at + 1, m, tokens);
      VisitOnlyWithin(argument, at + 1, m);
      ArgumentsOnlyWithin(rest, ",", c, x);
      ArgumentText(m, x, r, tokens, at, c, end, OwnLeft(argument), OwnRight(argument));
      AfterToken(argument, m, x, tokens, at, c);
      VisitArgumentsSpells(rest, ",", c, x, tokens);
  }

  /** What follows the first token of a part is a part of its own. */
  lemma AfterFirst(m: Edits, tokens: seq<Token>, at: nat, first: Token, part: seq<Token>)
    requires |part| > 0 && at + 1 + |part| <= |tokens| && Fits(m, |tokens|)
    requires tokens[at..at + 1 + |part|] == [first] + part && Blank(m, at, at + 1 + |part|)
    ensures tokens[at] == first && tokens[at + 1..at + 1 + |part|] == part
    ensures Blank(m, at + 1, at + 1 + |part|) && m.left[at + 1] == m.right[at + 1] == []
  {
    TokenOf(tokens, at, [first] + part, 0);
    PartOf(tokens, at, [first] + part, 1, part);
  }

  lemma VisitOfCall(t: Tree, at: nat, m: Edits)
    requires t.Call? && |m.left| == |m.right| && at + |Print(t)| < |m.left|
    ensures at + 1 + |PrintArguments(t.arguments, "(")| < |m.left|
    ensures Visit(t, at, m) == VisitArguments(t.arguments, "(", at + 1, m)
  {
    hide VisitArguments;
  }

  lemma CallArgumentsAt(t: Tree, at: nat, m: Edits, tokens: seq<Token>)
    requires t.Call? && t.arguments.More? && At(t, at, m, tokens)
    ensures ArgumentsAt(t.arguments, "(", at + 1, m, tokens)
    ensures at + 1 + |PrintArguments(t.arguments, "(")| == at + |Print(t)| < |m.left|
    ensures Visit(t, at, m) == VisitArguments(t.arguments, "(", at + 1, m)
    ensures tokens[at] == t.callee && m.left[at + 1] == m.right[at + 1] == []
  {
    hide Print, PrintArguments, Visit, VisitArguments, Blank;
    PrintCall(t.callee, t.arguments);
    AfterFirst(m, tokens, at, t.callee, PrintArguments(t.arguments, "("));
    VisitOfCall(t, at, m);
  }

  lemma {:induction false} VisitCall(t: Tree, at: nat, m: Edits, tokens: seq<Token>)
    requires t.Call? && At(t, at, m, tokens)
    ensures Spells(t, Text(Visit(t, at, m), tokens, at, at + |Print(t)|))
    decreases t, 0
  {
    hide RewriteAs;
    hide Spells;
    hide Text;
    hide Within;
    hide Print;
    hide PrintArguments;
    hide Visit;
    hide VisitArguments;
    var end := at + |Print(t)|;
    PrintCall(t.callee, RewriteArguments(t.arguments));
    if t.arguments.Done? {
      EmptyCallText(t, at, m, tokens);
      CallSpells(t, Text(m, tokens, at, end));
    } else {
      CallArgumentsAt(t, at, m, tokens);
      var r := VisitArguments(t.arguments, "(", at + 1, m);
      VisitArgumentsSpells(t.arguments, "(", at + 1, m, tokens);
      ArgumentsOnlyWithin(t.arguments, "(", at + 1, m);
      FullCallText(m, r, tokens, at, end);
      CallSpells(t, Text(r, tokens, at, end));
    }
  }

  lemma EmptyCallText(t: Tree, at: nat, m: Edits, tokens: seq<Token>)
    requires t.Call? && t.arguments.Done? && At(t, at, m, tokens)
    ensures |Print(t)| == 3 && Visit(t, at, m) == m
    ensures Text(m, tokens, at, at + 3) == [t.callee, "(", ")"]
  {
    hide Text;
    PrintCall(t.callee, Done);
    TokenOf(tokens, at, Print(t), 0);
    TokenOf(tokens, at, Print(t), 1);
    TokenOf(tokens, at, Print(t), 2);
    TextAfter(m, tokens, at, at + 3);
    TextAfter(m, tokens, at + 1, at + 3);
    OneToken(m, tokens, at + 2);
  }

  /** A token before a part nothing is inserted around. */
  lemma FullCallText(m: Edits, r: Edits, tokens: seq<Token>, at: nat, end: nat)
    requires Fits(m, |tokens|) && at + 1 < end <= |tokens|
    requires m.left[at + 1] == m.right[at + 1] == [] && Within(m, r, at + 1, end, [], 0)
    ensures Fits(r, |tokens|)
    ensures Text(r, tokens, at, end) == [tokens[at]] + Text(r, tokens, at + 1, end)
  {
    hide Text, Within;
    WithinFits(m, r, at + 1, end, |tokens|);
    TextAfter(r, tokens, at, end);
    StartStays(m, r, at + 1, end);
    var text := Text(r, tokens, at + 1, end);
    assert [tokens[at]] + [] + [] + text == [tokens[at]] + text;
  }

  lemma WithinFits(m: Edits, r: Edits, a: nat, b: nat, length: nat)
    requires Within(m, r, a, b, [], 0) && Fits(m, length)
    ensures Fits(r, length)
  {
  }

  lemma PrintCall(callee: string, arguments: Arguments)
    ensures Print(Call(callee, arguments)) ==
      if arguments.Done? then [callee, "(", ")"] else [callee] + PrintArguments(arguments, "(")
  {
    assert [callee] + [] == [callee];
  }

  lemma StartStays(m: Edits, r: Edits, a: nat, b: nat)
    requires Within(m, r, a, b, [], 0)
    ensures r.left[a] == m.left[a] && r.right[a] == m.right[a]
  {
  }

  lemma AwaitOpened(m: Edits, x: Edits, r: Edits, tokens: seq<Token>, at: nat, end: nat,
                    before: seq<Token>, closers: nat)
    requires Fits(m, |tokens|) && at + 1 < end <= |tokens| && Blank(m, at, end)
    requires x == OpenAwait(m, at, end) && Within(x, r, at + 1, end, before, closers)
    ensures Fits(x, |tokens|) && Fits(r, |tokens|) && Blank(x, at + 1, end)
    ensures r.left[at + 1] == before + Open(GATE) && r.right[at + 1] == []
  {
  }

  lemma {:induction false} VisitAwait(t: Tree, at: nat, m: Edits, tokens: seq<Token>)
    requires t.Await? && At(t, at, m, tokens)
    ensures Spells(t, Text(Visit(t, at, m), tokens, at, at + |Print(t)|))
    decreases t, 0
  {
    hide RewriteAs;
    hide Spells;
    hide Text;
    hide Within;
    var end := at + |Print(t)|;
    var x := OpenAwait(m, at, end);
    var r := Visit(t.argument, at + 1, x);
    PartOf(tokens, at, Print(t), 1, Print(t.argument));
    TokenOf(tokens, at, Print(t), 0);
    VisitOnlyWithin(t.argument, at + 1, x);
    AwaitOpened(m, x, r, tokens, at, end, OwnLeft(t.argument), OwnRight(t.argument));
    VisitSpells(t.argument, at + 1, x, tokens);
    TextAfter(r, tokens, at, end);
    AwaitSpells(t, Text(r, tokens, at + 1, end), Text(r, tokens, at, end));
  }

  /** What the later parts of a for-await leave of its head. */
  lemma HeadText(m: Edits, x: Edits, x2: Edits, r: Edits, tokens: seq<Token>, at: nat, c: nat, end: nat, stop: nat,
                 before: seq<Token>, before2: seq<Token>, closers: nat, closers2: nat)
    requires Fits(m, |tokens|) && at + 1 < c < c + 1 < end < stop <= |tokens|
    requires Blank(m, at, stop) && x == OpenForAwait(m, c + 1, end)
    requires Within(x, x2, at + 1, c, before, closers) && Within(x2, r, c + 1, stop, before2, closers2)
    ensures Fits(x, |tokens|) && Fits(x2, |tokens|) && Fits(r, |tokens|)
    ensures Blank(x, at + 1, c) && x.left[at + 1] == x.right[at + 1] == x.left[c] == x.right[c] == []
    ensures Segment(x2, tokens, at + 1, c) == Segment(r, tokens, at + 1, c)
  {
    TextSame(x2, r, tokens, at + 1, c);
  }

  /** What its body leaves of its operand, whose two wrappers open at one position. */
  lemma OperandText(m: Edits, x: Edits, x2: Edits, x3: Edits, r: Edits, tokens: seq<Token>,
                    at: nat, c: nat, end: nat, stop: nat,
                    before: seq<Token>, before2: seq<Token>, before3: seq<Token>,
                    closers: nat, closers2: nat, closers3: nat)
    requires Fits(m, |tokens|) && at + 1 < c < c + 1 < end < end + 1 < stop <= |tokens|
    requires Blank(m, at, stop) && x == OpenForAwait(m, c + 1, end)
    requires Within(x, x2, at + 1, c, before, closers)
    requires Within(x2, x3, c + 1, end, before2, closers2)
    requires Within(x3, r, end + 1, stop, before3, closers3)
    ensures Fits(x2, |tokens|) && Fits(x3, |tokens|) && Fits(r, |tokens|)
    ensures Blank(x2, c + 1, end) && Blank(x3, end + 1, stop)
    ensures x3.left[end + 1] == x3.right[end + 1] == []
    ensures Segment(r, tokens, c + 1, end)
         == before2 + Open(ITERABLE) + Text(x3, tokens, c + 1, end) + Closers(2) + Closers(closers2)
  {
    TextSame(x3, r, tokens, c + 1, end);
    assert r.left[c + 1] == before2 + Open(ITERABLE) && r.right[c + 1] == [];
    assert CLOSE == Closers(2);
    assert r.left[end] == [] && r.right[end] == Closers(2) + Closers(closers2);
  }

  lemma ForAwaitTexts(m: Edits, x: Edits, x2: Edits, x3: Edits, r: Edits, tokens: seq<Token>,
                      at: nat, c: nat, end: nat, stop: nat,
                      before: seq<Token>, before2: seq<Token>, before3: seq<Token>,
                      closers: nat, closers2: nat, closers3: nat)
    requires Fits(m, |tokens|) && at + 1 < c < c + 1 < end < end + 1 < stop <= |tokens|
    requires Blank(m, at, stop) && x == OpenForAwait(m, c + 1, end)
    requires Within(x, x2, at + 1, c, before, closers)
    requires Within(x2, x3, c + 1, end, before2, closers2)
    requires Within(x3, r, end + 1, stop, before3, closers3)
    ensures Fits(x, |tokens|) && Fits(x2, |tokens|) && Fits(x3, |tokens|) && Fits(r, |tokens|)
    ensures Blank(x, at + 1, c) && Blank(x2, c + 1, end) && Blank(x3, end + 1, stop)
    ensures x.left[at + 1] == x.right[at + 1] == x.left[c] == x.right[c] == []
    ensures x3.left[end + 1] == x3.right[end + 1] == []
    ensures Segment(x2, tokens, at + 1, c) == Segment(r, tokens, at + 1, c)
    ensures Segment(r, tokens, c + 1, end)
         == before2 + Open(ITERABLE) + Text(x3, tokens, c + 1, end) + Closers(2) + Closers(closers2)
  {
    hide Within;
    hide Segment;
    hide Text;
    hide OpenForAwait;
    hide Blank;
    OneThenOther(x2, x3, r, c + 1, end, end + 1, stop, before2, before3, closers2, closers3);
    HeadText(m, x, x2, r, tokens, at, c, end, stop, before, before2, closers, closers3);
    OperandText(m, x, x2, x3, r, tokens, at, c, end, stop, before, before2, before3, closers, closers2, closers3);
  }

  lemma ForAwaitText(r: Edits, tokens: seq<Token>, at: nat, c: nat, end: nat, stop: nat)
    requires Fits(r, |tokens|) && at + 1 < c < c + 1 < end < end + 1 < stop <= |tokens|
    ensures Text(r, tokens, at, stop) ==
      [tokens[at]] + Segment(r, tokens, at + 1, c) + [tokens[c]] + Segment(r, tokens, c + 1, end) + Text(r, tokens, end, stop)
  {
    hide Text;
    TextAfter(r, tokens, at, stop);
    TextSplits(r, tokens, at + 1, c, stop);
    TextAfter(r, tokens, c, stop);
    TextSplits(r, tokens, c + 1, end, stop);
  }

  lemma {:induction false} VisitForAwait(t: Tree, at: nat, m: Edits, tokens: seq<Token>)
    requires t.ForAwait? && At(t, at, m, tokens)
    ensures Spells(t, Text(Visit(t, at, m), tokens, at, at + |Print(t)|))
    decreases t, 0
  {
    hide RewriteAs;
    hide Spells;
    hide Text;
    hide Within;
    hide Segment;
    hide OwnLeft;
    hide OwnRight;
    hide Visit;
    hide Print;
    hide OpenForAwait;
    ForAwaitTokens(t, tokens, at);
    ForAwaitVisit(t, at, m);
    var c := at + 1 + |Print(t.head)|;
    var end := c + 1 + |Print(t.right)|;
    var stop := at + |Print(t)|;
    var x := OpenForAwait(m, c + 1, end);
    var x2 := Visit(t.head, at + 1, x);
    var x3 := Visit(t.right, c + 1, x2);
    var r := Visit(t.body, end + 1, x3);
    VisitOnlyWithin(t.head, at + 1, x);
    VisitOnlyWithin(t.right, c + 1, x2);
    VisitOnlyWithin(t.body, end + 1, x3);
    ForAwaitTexts(m, x, x2, x3, r, tokens, at, c, end, stop, OwnLeft(t.head), OwnLeft(t.right), OwnLeft(t.body),
                  OwnRight(t.head), OwnRight(t.right), OwnRight(t.body));
    VisitSpells(t.head, at + 1, x, tokens);
    VisitSpells(t.right, c + 1, x2, tokens);
    VisitSpells(t.body, end + 1, x3, tokens);
    ForAwaitAssembles(t, x, x2, x3, r, tokens, at, c, end, stop);
  }

  lemma ForAwaitAssembles(t: Tree, x: Edits, x2: Edits, x3: Edits, r: Edits, tokens: seq<Token>,
                          at: nat, c: nat, end: nat, stop: nat)
    requires t.ForAwait? && at + 1 < c < c + 1 < end < end + 1 < stop <= |tokens|
    requires Fits(x, |tokens|) && Fits(x2, |tokens|) && Fits(x3, |tokens|) && Fits(r, |tokens|)
    requires tokens[at] == "for await (" && tokens[c] == "of" && tokens[end] == ")"
    requires x.left[at + 1] == x.right[at + 1] == x.left[c] == x.right[c] == []
    requires x3.left[end + 1] == x3.right[end + 1] == []
    requires Within(x, x2, at + 1, c, OwnLeft(t.head), OwnRight(t.head))
    requires Within(x3, r, end + 1, stop, OwnLeft(t.body), OwnRight(t.body))
    requires Spells(t.head, Text(x2, tokens, at + 1, c)) && Spells(t.right, Text(x3, tokens, c + 1, end))
    requires Spells(t.body, Text(r, tokens, end + 1, stop))
    requires Segment(x2, tokens, at + 1, c) == Segment(r, tokens, at + 1, c)
    requires Segment(r, tokens, c + 1, end)
          == OwnLeft(t.right) + Open(ITERABLE) + Text(x3, tokens, c + 1, end) + Closers(2) + Closers(OwnRight(t.right))
    ensures Spells(t, Text(r, tokens, at, stop))
  {
    hide RewriteAs;
    hide Spells;
    hide Text;
    hide Within;
    hide Segment;
    hide OwnLeft;
    hide OwnRight;
    hide Print;
    PlainSegment(t.head, x, x2, tokens, at + 1, c);
    OperandSpells(t.right, ITERABLE, Text(x3, tokens, c + 1, end));
    AfterToken(t.body, x3, r, tokens, end, stop);
    ForAwaitText(r, tokens, at, c, end, stop);
    ForAwaitSpells(t, Segment(r, tokens, at + 1, c), Segment(r, tokens, c + 1, end), Text(r, tokens, end, stop),
                   Text(r, tokens, at, stop));
  }

  lemma ForAwaitTokens(t: Tree, tokens: seq<Token>, at: nat)
    requires t.ForAwait? && at + |Print(t)| <= |tokens| && tokens[at..at + |Print(t)|] == Print(t)
    ensures var c := at + 1 + |Print(t.head)|; var end := c + 1 + |Print(t.right)|;
      && |Print(t)| == end + 1 + |Print(t.body)| - at
      && tokens[at] == "for await (" && tokens[c] == "of" && tokens[end] == ")"
      && tokens[at + 1..c] == Print(t.head) && tokens[c + 1..end] == Print(t.right)
      && tokens[end + 1..end + 1 + |Print(t.body)|] == Print(t.body)
  {
    var head, right, body := Print(t.head), Print(t.right), Print(t.body);
    assert Print(t) == ["for await ("] + head + ["of"] + right + [")"] + body;
    hide Print;
    ThreeParts(tokens, at, "for await (", head, "of", right, ")", body);
  }

  lemma ThreeParts(tokens: seq<Token>, at: nat, a: Token, x: seq<Token>, b: Token, y: seq<Token>, c: Token, z: seq<Token>)
    requires var text := [a] + x + [b] + y + [c] + z; at + |text| <= |tokens| && tokens[at..at + |text|] == text
    ensures var i := at + 1 + |x|; var j := i + 1 + |y|;
      && tokens[at] == a && tokens[i] == b && tokens[j] == c
      && tokens[at + 1..i] == x && tokens[i + 1..j] == y && tokens[j + 1..j + 1 + |z|] == z
  {
    var text := [a] + x + [b] + y + [c] + z;
    TokenOf(tokens, at, text, 0);
    TokenOf(tokens, at, text, 1 + |x|);
    TokenOf(tokens, at, text, 2 + |x| + |y|);
    PartOf(tokens, at, text, 1, x);
    PartOf(tokens, at, text, 2 + |x|, y);
    PartOf(tokens, at, text, 3 + |x| + |y|, z);
  }

  lemma JoinTokens(t: Tree, tokens: seq<Token>, at: nat)
    requires t.Join? && at + |Print(t)| <= |tokens| && tokens[at..at + |Print(t)|] == Print(t)
    ensures var c := at + |Print(t.left)|;
      && |Print(t)| == c + 1 + |Print(t.right)| - at
      && tokens[at..c] == Print(t.left) && tokens[c] == t.token
      && tokens[c + 1..c + 1 + |Print(t.right)|] == Print(t.right)
  {
    PartOf(tokens, at, Print(t), 0, Print(t.left));
    TokenOf(tokens, at, Print(t), |Print(t.left)|);
    PartOf(tokens, at, Print(t), |Print(t.left)| + 1, Print(t.right));
  }

  // ---------- The transform's output

  const MARKER := "/* @do-runtime-gated */"
  const IMPORT := "import { __gateAsyncIterable, __gateAwait, __resumeAwait } from \"@mcp-b/do-runtime/gate\";"

  /** The edited text: the visitor's edits, then the import put in front. */
  function Output(t: Tree): seq<Token> {
    var m := Visit(t, 0, Untouched(|Print(t)|));
    Render(AppendLeft(m, 0, [MARKER, IMPORT]), Print(t))
  }

  lemma OutputText(t: Tree)
    ensures exists rest ::
      && Output(t) == OwnLeft(t) + [MARKER, IMPORT] + rest
      && OwnLeft(t) + rest == Print(Rewrite(t))
  {
    hide Text;
    hide Visit;
    hide Print;
    hide RewriteAs;
    hide OwnRight;
    hide Within;
    var tokens := Print(t);
    var n := |tokens|;
    var blank := Untouched(n);
    var r := Visit(t, 0, blank);
    assert tokens[0..n] == tokens;
    VisitSpells(t, 0, blank, tokens);
    VisitOnlyWithin(t, 0, blank);
    EndsOf(blank, r, n, OwnLeft(t), OwnRight(t));
    ImportInFront(r, tokens, OwnLeft(t), Closers(OwnRight(t)));
    assert Lead(t, RESUME) + Text(r, tokens, 0, n) + Closers(OwnRight(t)) == Print(RewriteAs(t, RESUME));
    Concatenated(OwnLeft(t), Text(r, tokens, 0, n), Closers(OwnRight(t)), [], []);
  }

  lemma ImportInFront(r: Edits, tokens: seq<Token>, before: seq<Token>, after: seq<Token>)
    requires |tokens| > 0 && Fits(r, |tokens|)
    requires r.left[0] == before && r.right[0] == [] && r.left[|tokens|] == [] && r.right[|tokens|] == after
    ensures Render(AppendLeft(r, 0, [MARKER, IMPORT]), tokens)
         == before + [MARKER, IMPORT] + (Text(r, tokens, 0, |tokens|) + after)
  {
    hide Text;
    var n := |tokens|;
    var m := AppendLeft(r, 0, [MARKER, IMPORT]);
    TextSame(m, r, tokens, 0, n);
    assert m.left[0] == before + [MARKER, IMPORT] && m.right == r.right && m.left[n] == [];
    WithoutBlanks(m.left[0], Text(m, tokens, 0, n), after);
    hide AppendLeft;
    assert Render(m, tokens) == m.left[0] + m.right[0] + Text(m, tokens, 0, n) + m.left[n] + m.right[n];
  }

  lemma WithoutBlanks(a: seq<Token>, b: seq<Token>, c: seq<Token>)
    ensures a + [] + b + [] + c == a + (b + c)
  {
  }

  lemma EndsOf(blank: Edits, r: Edits, n: nat, before: seq<Token>, closers: nat)
    requires n > 0 && blank == Untouched(n) && Within(blank, r, 0, n, before, closers)
    ensures Fits(r, n)
    ensures r.left[0] == before && r.right[0] == [] && r.left[n] == [] && r.right[n] == Closers(closers)
  {
  }

  /**
   * The edited text is the import followed by the rewritten tree, exactly when the program does not
   * start with an await; one that does has its first wrapper opened before the import.
   */
  lemma OutputSpellsRewrite(t: Tree)
    ensures Output(t) == [MARKER, IMPORT] + Print(Rewrite(t)) <==> !StartsWithAwait(t)
  {
    OutputText(t);
    var rest :| Output(t) == OwnLeft(t) + [MARKER, IMPORT] + rest && OwnLeft(t) + rest == Print(Rewrite(t));
    if StartsWithAwait(t) {
      assert Output(t)[0] == RESUME;
      assert RESUME != MARKER by {
        assert RESUME[0] != MARKER[0];
      }
    } else {
      assert [] + [MARKER, IMPORT] + rest == [MARKER, IMPORT] + ([] + rest);
    }
  }

  /** `await x` as a whole program: its first wrapper opens before the marker and the import. */
  lemma LeadingAwaitIsMisspelled()
    ensures var t := Await(Leaf("x"));
      && Output(t) == [RESUME, "(", "(", MARKER, IMPORT, "await", GATE, "(", "(", "x", ")", ")", ")", ")"]
      && Output(t) != [MARKER, IMPORT] + Print(Rewrite(t))
  {
    var t := Await(Leaf("x"));
    OutputText(t);
    var rest :| Output(t) == OwnLeft(t) + [MARKER, IMPORT] + rest && OwnLeft(t) + rest == Print(Rewrite(t));
    PrintWrapped(GATE, Leaf("x"));
    PrintWrapped(RESUME, Await(Operand(Leaf("x"), GATE)));
    assert Print(Rewrite(t)) == Open(RESUME) + (["await"] + (Open(GATE) + ["x"] + CLOSE)) + CLOSE;
    assert rest == Print(Rewrite(t))[3..];
    OutputSpellsRewrite(t);
  }

  // ---------- Coverage

  lemma {:induction false} UnparenthesizedCounts(t: Tree)
    ensures Total(Unparenthesized(t)) == Total(t)
    ensures Transformed(Unparenthesized(t)) == Transformed(t)
    ensures !Unparenthesized(t).Paren?
  {
    if t.Paren? {
      UnparenthesizedCounts(t.inner);
    }
  }

  /** Whatever the program, and whatever it calls its own functions: nothing is counted twice. */
  lemma {:induction false} TransformedAtMostTotal(t: Tree)
    ensures Transformed(t) <= Total(t)
  {
    match t
    case Leaf(_) =>
    case Prefix(_, inner) => TransformedAtMostTotal(inner);
    case Suffix(inner, _) => TransformedAtMostTotal(inner);
    case Join(left, _, right) =>
      TransformedAtMostTotal(left);
      TransformedAtMostTotal(right);
    case Paren(inner) => TransformedAtMostTotal(inner);
    case Call(callee, arguments) =>
      ArgumentsAtMostTotal(arguments);
      if arguments.More? {
        var argument := arguments.argument;
        UnparenthesizedCounts(argument);
        ArgumentsAtMostTotal(arguments.rest);
        var u := Unparenthesized(argument);
        if u.Await? {
          AwaitedWithin(argument);
          TransformedAtMostTotal(u.argument);
        }
      }
    case Await(argument) => TransformedAtMostTotal(argument);
    case ForAwait(head, right, body) =>
      TransformedAtMostTotal(head);
      TransformedAtMostTotal(right);
      TransformedAtMostTotal(body);
    case AwaitUsing(init) => TransformedAtMostTotal(init);
  }

  lemma {:induction false} ArgumentsAtMostTotal(arguments: Arguments)
    ensures TransformedOf(arguments) <= TotalOf(arguments)
  {
    if arguments.More? {
      TransformedAtMostTotal(arguments.argument);
      ArgumentsAtMostTotal(arguments.rest);
    }
  }

  lemma {:induction false} AwaitedWithin(t: Tree)
    requires Unparenthesized(t).Await?
    ensures Unparenthesized(t).argument < t
  {
    if t.Paren? {
      AwaitedWithin(t.inner);
    }
  }

  lemma {:induction false} RewrittenIsNoAwait(t: Tree, leading: string)
    ensures !Unparenthesized(RewriteAs(t, leading)).Await?
  {
    if t.Paren? {
      RewrittenIsNoAwait(t.inner, RESUME);
    }
  }

  lemma WrappedCounts(name: string, t: Tree)
    ensures Total(Call(name, One(Paren(t)))) == Total(t)
    ensures t.Await? ==>
      Transformed(Call(name, One(Paren(t)))) == Transformed(t) + (if CoversAwait(name, One(t)) then 1 else 0)
  {
    assert TotalOf(Done) == 0 && TransformedOf(Done) == 0;
    assert Total(Paren(t)) == Total(t) && Transformed(Paren(t)) == Transformed(t);
    assert t.Await? ==> Unparenthesized(Paren(t)) == t;
  }

  lemma OperandTotal(t: Tree, wrapper: string)
    ensures Total(Operand(t, wrapper)) == Total(RewriteAs(t, if StartsWithAwait(t) then wrapper else RESUME))
  {
    WrappedCounts(RESUME, RewriteAs(t, wrapper));
    WrappedCounts(wrapper, RewriteAs(t, RESUME));
  }

  lemma {:induction false} RewriteKeepsTotal(t: Tree, leading: string)
    ensures Total(RewriteAs(t, leading)) == Total(t)
  {
    match t
    case Leaf(_) =>
    case Prefix(_, inner) => RewriteKeepsTotal(inner, RESUME);
    case Suffix(inner, _) => RewriteKeepsTotal(inner, leading);
    case Join(left, _, right) =>
      RewriteKeepsTotal(left, leading);
      RewriteKeepsTotal(right, RESUME);
    case Paren(inner) => RewriteKeepsTotal(inner, RESUME);
    case Call(_, arguments) => RewriteKeepsTotalOf(arguments);
    case Await(argument) =>
      RewriteKeepsTotal(argument, if StartsWithAwait(argument) then GATE else RESUME);
      OperandTotal(argument, GATE);
      WrappedCounts(leading, Await(Operand(argument, GATE)));
    case ForAwait(head, right, body) =>
      OperandTotal(right, ITERABLE);
      RewriteKeepsTotal(head, RESUME);
      RewriteKeepsTotal(right, if StartsWithAwait(right) then ITERABLE else RESUME);
      RewriteKeepsTotal(body, RESUME);
    case AwaitUsing(init) => RewriteKeepsTotal(init, RESUME);
  }

  lemma {:induction false} RewriteKeepsTotalOf(arguments: Arguments)
    ensures TotalOf(RewriteArguments(arguments)) == TotalOf(arguments)
  {
    if arguments.More? {
      RewriteKeepsTotal(arguments.argument, RESUME);
      RewriteKeepsTotalOf(arguments.rest);
    }
  }

  /** How many awaits and for-awaits the rewrite covers; `leads` unless an operand starts with the tree. */
  function Covered(t: Tree, leads: bool): nat {
    match t
    case Leaf(_) => 0
    case Prefix(_, inner) => Covered(inner, true)
    case Suffix(inner, _) => Covered(inner, leads)
    case Join(left, _, right) => Covered(left, leads) + Covered(right, true)
    case Paren(inner) => Covered(inner, true)
    case Call(_, arguments) => CoveredOf(arguments)
    case Await(argument) =>
      (if leads && !StartsWithAwait(argument) then 1 else 0) + Covered(argument, !StartsWithAwait(argument))
    case ForAwait(head, right, body) =>
      (if StartsWithAwait(right) then 0 else 1)
      + Covered(head, true) + Covered(right, !StartsWithAwait(right)) + Covered(body, true)
    case AwaitUsing(init) => Covered(init, true)
  }

  function CoveredOf(arguments: Arguments): nat {
    match arguments
    case Done => 0
    case More(argument, rest) => Covered(argument, true) + CoveredOf(rest)
  }

  lemma DistinctWrappers()
    ensures RESUME != GATE && RESUME != ITERABLE && GATE != ITERABLE
  {
    assert RESUME[2] != GATE[2] && RESUME[2] != ITERABLE[2] && GATE[7] != ITERABLE[7];
  }

  lemma OperandCoverage(t: Tree, wrapper: string)
    requires wrapper != RESUME
    ensures DirectCall(Operand(t, wrapper), wrapper) <==> !StartsWithAwait(t)
    ensures Transformed(Operand(t, wrapper))
         == Transformed(RewriteAs(t, if StartsWithAwait(t) then wrapper else RESUME))
  {
    RewrittenIsNoAwait(t, wrapper);
    RewrittenIsNoAwait(t, RESUME);
    OneCounts(Paren(RewriteAs(t, wrapper)));
    OneCounts(Paren(RewriteAs(t, RESUME)));
  }

  lemma OneCounts(t: Tree)
    ensures TransformedOf(One(t)) == Transformed(t)
  {
    assert TransformedOf(Done) == 0;
  }

  lemma {:induction false} CoverageOf(t: Tree, leading: string)
    ensures Transformed(RewriteAs(t, leading)) == Covered(t, leading == RESUME)
  {
    DistinctWrappers();
    match t
    case Leaf(_) =>
    case Prefix(_, inner) => CoverageOf(inner, RESUME);
    case Suffix(inner, _) => CoverageOf(inner, leading);
    case Join(left, _, right) =>
      CoverageOf(left, leading);
      CoverageOf(right, RESUME);
    case Paren(inner) => CoverageOf(inner, RESUME);
    case Call(_, arguments) =>
      CoverageOfArguments(arguments);
      if arguments.More? { RewrittenIsNoAwait(arguments.argument, RESUME); }
    case Await(argument) =>
      CoverageOf(argument, if StartsWithAwait(argument) then GATE else RESUME);
      OperandCoverage(argument, GATE);
      WrappedCounts(leading, Await(Operand(argument, GATE)));
    case ForAwait(head, right, body) =>
      CoverageOf(head, RESUME);
      CoverageOf(right, if StartsWithAwait(right) then ITERABLE else RESUME);
      CoverageOf(body, RESUME);
      OperandCoverage(right, ITERABLE);
    case AwaitUsing(init) => CoverageOf(init, RESUME);
  }

  lemma {:induction false} CoverageOfArguments(arguments: Arguments)
    ensures TransformedOf(RewriteArguments(arguments)) == CoveredOf(arguments)
  {
    if arguments.More? {
      CoverageOf(arguments.argument, RESUME);
      CoverageOfArguments(arguments.rest);
    }
  }

  lemma {:induction false} CoveredAll(t: Tree, leads: bool)
    ensures Covered(t, leads) <= Total(t)
    ensures Covered(t, leads) == Total(t)
      <==> OperandsApart(t) && NoAwaitUsing(t) && (leads || !StartsWithAwait(t))
  {
    match t
    case Leaf(_) =>
    case Prefix(_, inner) => CoveredAll(inner, true);
    case Suffix(inner, _) => CoveredAll(inner, leads);
    case Join(left, _, right) =>
      CoveredAll(left, leads);
      CoveredAll(right, true);
    case Paren(inner) => CoveredAll(inner, true);
    case Call(_, arguments) => CoveredAllOf(arguments);
    case Await(argument) => CoveredAll(argument, !StartsWithAwait(argument));
    case ForAwait(head, right, body) =>
      CoveredAll(head, true);
      CoveredAll(right, !StartsWithAwait(right));
      CoveredAll(body, true);
    case AwaitUsing(init) => CoveredAll(init, true);
  }

  lemma {:induction false} CoveredAllOf(arguments: Arguments)
    ensures CoveredOf(arguments) <= TotalOf(arguments)
    ensures CoveredOf(arguments) == TotalOf(arguments) <==> OperandsApartIn(arguments) && NoAwaitUsingIn(arguments)
  {
    if arguments.More? {
      CoveredAll(arguments.argument, true);
      CoveredAllOf(arguments.rest);
    }
  }

  /**
   * Coverage is n/n, with n the number of awaits the source has, exactly when no operand of an await
   * or for-await starts with an await and nothing is declared with `await using`.
   */
  lemma FullCoverage(t: Tree)
    ensures Total(Rewrite(t)) == Total(t)
    ensures Transformed(Rewrite(t)) == Total(Rewrite(t)) <==> OperandsApart(t) && NoAwaitUsing(t)
  {
    RewriteKeepsTotal(t, RESUME);
    CoverageOf(t, RESUME);
    CoveredAll(t, true);
  }

  /** `await await x` has two awaits and no `await using`, and neither is covered. */
  lemma NestedAwaitIsMissed()
    ensures var t := Await(Await(Leaf("x")));
      NoAwaitUsing(t) && Total(Rewrite(t)) == 2 && Transformed(Rewrite(t)) == 0
  {
    var t := Await(Await(Leaf("x")));
    RewriteKeepsTotal(t, RESUME);
    CoverageOf(t, RESUME);
  }

  // ---------- Meaning outside an actor

  /** What each construct makes of what its parts mean; parentheses mean nothing. */
  datatype Meaning<!V> = Meaning(
    leaf: Token -> V, prefix: (Token, V) -> V, suffix: (V, Token) -> V, join: (V, Token, V) -> V,
    call: (string, seq<V>) -> V, awaits: V -> V, forAwait: (V, V, V) -> V, awaitUsing: V -> V)

  function Eval<V>(t: Tree, s: Meaning<V>): V {
    match t
    case Leaf(token) => s.leaf(token)
    case Prefix(token, inner) => s.prefix(token, Eval(inner, s))
    case Suffix(inner, token) => s.suffix(Eval(inner, s), token)
    case Join(left, token, right) => s.join(Eval(left, s), token, Eval(right, s))
    case Paren(inner) => Eval(inner, s)
    case Call(callee, arguments) => s.call(callee, EvalArguments(arguments, s))
    case Await(argument) => s.awaits(Eval(argument, s))
    case ForAwait(head, right, body) => s.forAwait(Eval(head, s), Eval(right, s), Eval(body, s))
    case AwaitUsing(init) => s.awaitUsing(Eval(init, s))
  }

  function EvalArguments<V>(arguments: Arguments, s: Meaning<V>): seq<V> {
    match arguments
    case Done => []
    case More(argument, rest) => [Eval(argument, s)] + EvalArguments(rest, s)
  }

  /**
   * Without an actor `__resumeAwait` and `__gateAwait` hand a single argument back. `__gateAsyncIterable`
   * never does: it returns a wrapper, which a for-await goes through as it would through what is wrapped.
   */
  ghost predicate OutsideActors<V(!new)>(s: Meaning<V>) {
    && (forall v :: s.call(RESUME, [v]) == v && s.call(GATE, [v]) == v)
    && (forall head, v, body :: s.forAwait(head, s.call(ITERABLE, [v]), body) == s.forAwait(head, v, body))
  }

  /** The iterable starts with an await that is only a part of it, which then is wrapped in its place. */
  predicate WrapsPart(iterable: Tree) {
    StartsWithAwait(iterable) && !iterable.Await?
  }

  /** How many for-awaits have such an iterable. */
  function Misplaced(t: Tree): nat {
    match t
    case Leaf(_) => 0
    case Prefix(_, inner) => Misplaced(inner)
    case Suffix(inner, _) => Misplaced(inner)
    case Join(left, _, right) => Misplaced(left) + Misplaced(right)
    case Paren(inner) => Misplaced(inner)
    case Call(_, arguments) => MisplacedIn(arguments)
    case Await(argument) => Misplaced(argument)
    case ForAwait(head, right, body) =>
      (if WrapsPart(right) then 1 else 0) + Misplaced(head) + Misplaced(right) + Misplaced(body)
    case AwaitUsing(init) => Misplaced(init)
  }

  function MisplacedIn(arguments: Arguments): nat {
    match arguments
    case Done => 0
    case More(argument, rest) => Misplaced(argument) + MisplacedIn(rest)
  }

  lemma WrappedMeaning<V(!new)>(name: string, t: Tree, s: Meaning<V>)
    ensures Eval(Call(name, One(Paren(t))), s) == s.call(name, [Eval(t, s)])
  {
    assert EvalArguments(One(Paren(t)), s) == [Eval(Paren(t), s)];
    assert Eval(Paren(t), s) == Eval(t, s);
  }

  /** The operand of an await: whichever wrapper comes first, both hand it back. */
  lemma OperandMeaning<V(!new)>(t: Tree, s: Meaning<V>)
    requires OutsideActors(s)
    ensures Eval(Operand(t, GATE), s) == Eval(RewriteAs(t, if StartsWithAwait(t) then GATE else RESUME), s)
  {
    WrappedMeaning(RESUME, RewriteAs(t, GATE), s);
    WrappedMeaning(GATE, RewriteAs(t, RESUME), s);
  }

  /** The iterable of a for-await that is an await, or does not start with one, is wrapped as a whole. */
  lemma IterableMeaning<V(!new)>(t: Tree, s: Meaning<V>)
    requires OutsideActors(s) && !WrapsPart(t)
    ensures Eval(Operand(t, ITERABLE), s) == s.call(ITERABLE, [Eval(RewriteAs(t, RESUME), s)])
  {
    WrappedMeaning(RESUME, RewriteAs(t, ITERABLE), s);
    WrappedMeaning(ITERABLE, RewriteAs(t, RESUME), s);
    if t.Await? {
      WrappedMeaning(ITERABLE, Await(Operand(t.argument, GATE)), s);
      WrappedMeaning(RESUME, Await(Operand(t.argument, GATE)), s);
    }
  }

  lemma {:induction false} MeaningKept<V(!new)>(t: Tree, leading: string, s: Meaning<V>)
    requires OutsideActors(s) && (leading == RESUME || leading == GATE) && Misplaced(t) == 0
    ensures Eval(RewriteAs(t, leading), s) == Eval(t, s)
  {
    match t
    case Leaf(_) =>
    case Prefix(_, inner) => MeaningKept(inner, RESUME, s);
    case Suffix(inner, _) => MeaningKept(inner, leading, s);
    case Join(left, _, right) =>
      MeaningKept(left, leading, s);
      MeaningKept(right, RESUME, s);
    case Paren(inner) => MeaningKept(inner, RESUME, s);
    case Call(_, arguments) => ArgumentsMeaningKept(arguments, s);
    case Await(argument) =>
      MeaningKept(argument, if StartsWithAwait(argument) then GATE else RESUME, s);
      OperandMeaning(argument, s);
      WrappedMeaning(leading, Await(Operand(argument, GATE)), s);
    case ForAwait(head, right, body) =>
      IterableMeaning(right, s);
      MeaningKept(head, RESUME, s);
      MeaningKept(right, RESUME, s);
      MeaningKept(body, RESUME, s);
    case AwaitUsing(init) => MeaningKept(init, RESUME, s);
  }

  lemma {:induction false} ArgumentsMeaningKept<V(!new)>(arguments: Arguments, s: Meaning<V>)
    requires OutsideActors(s) && MisplacedIn(arguments) == 0
    ensures EvalArguments(RewriteArguments(arguments), s) == EvalArguments(arguments, s)
  {
    if arguments.More? {
      MeaningKept(arguments.argument, RESUME, s);
      ArgumentsMeaningKept(arguments.rest, s);
    }
  }

  /** Outside an actor the rewritten program means what the program meant, missed awaits included, if no for-await wraps a part. */
  lemma RewriteKeepsMeaning<V(!new)>(t: Tree, s: Meaning<V>)
    requires OutsideActors(s) && Misplaced(t) == 0
    ensures Eval(Rewrite(t), s) == Eval(t, s)
  {
    MeaningKept(t, RESUME, s);
  }

  /** Each rewritten await evaluates to what the await did; one that is a for-await's iterable is then wrapped. */
  lemma EachAwaitKeepsMeaning<V(!new)>(argument: Tree, leading: string, s: Meaning<V>)
    requires OutsideActors(s) && Misplaced(argument) == 0
    requires leading == RESUME || leading == GATE || leading == ITERABLE
    ensures Eval(RewriteAs(Await(argument), leading), s) ==
      var v := s.awaits(Eval(argument, s)); if leading == ITERABLE then s.call(ITERABLE, [v]) else v
  {
    DistinctWrappers();
    MeaningKept(Await(argument), RESUME, s);
    WrappedMeaning(RESUME, Await(Operand(argument, GATE)), s);
    WrappedMeaning(leading, Await(Operand(argument, GATE)), s);
  }

  lemma {:induction false} ApartIsNotMisplaced(t: Tree)
    requires OperandsApart(t)
    ensures Misplaced(t) == 0
  {
    match t
    case Leaf(_) =>
    case Prefix(_, inner) => ApartIsNotMisplaced(inner);
    case Suffix(inner, _) => ApartIsNotMisplaced(inner);
    case Join(left, _, right) =>
      ApartIsNotMisplaced(left);
      ApartIsNotMisplaced(right);
    case Paren(inner) => ApartIsNotMisplaced(inner);
    case Call(_, arguments) => ApartIsNotMisplacedIn(arguments);
    case Await(argument) => ApartIsNotMisplaced(argument);
    case ForAwait(head, right, body) =>
      ApartIsNotMisplaced(head);
      ApartIsNotMisplaced(right);
      ApartIsNotMisplaced(body);
    case AwaitUsing(init) => ApartIsNotMisplaced(init);
  }

  lemma {:induction false} ApartIsNotMisplacedIn(arguments: Arguments)
    requires OperandsApartIn(arguments)
    ensures MisplacedIn(arguments) == 0
  {
    if arguments.More? {
      ApartIsNotMisplaced(arguments.argument);
      ApartIsNotMisplacedIn(arguments.rest);
    }
  }

  /** A program whose rewriting passes the coverage check keeps its meaning. */
  lemma CoveredKeepsMeaning<V(!new)>(t: Tree, s: Meaning<V>)
    requires OutsideActors(s) && Transformed(Rewrite(t)) == Total(Rewrite(t))
    ensures Eval(Rewrite(t), s) == Eval(t, s)
  {
    FullCoverage(t);
    ApartIsNotMisplaced(t);
    RewriteKeepsMeaning(t, s);
  }
}

/** Readings in which the other programs and their rewritings differ. */
module AwaitReadings {
  import opened AwaitTree
  import opened AwaitRewriteTheorems

  // ---------- A reading that tells every other program from its rewriting

  /** How often `__gateAsyncIterable` is applied in a value: anywhere, and where a for-await does not see through it. */
  datatype Wraps = Wraps(all: nat, seen: nat)

  function AllWraps(values: seq<Wraps>): nat {
    if values == [] then 0 else values[0].all + AllWraps(values[1..])
  }

  function Plain(n: nat): Wraps { Wraps(n, n) }

  function CallWraps(callee: string, values: seq<Wraps>): Wraps {
    if |values| == 1 && (callee == RESUME || callee == GATE) then values[0]
    else if |values| == 1 && callee == ITERABLE then Wraps(values[0].all + 1, values[0].seen)
    else Plain(AllWraps(values))
  }

  function LeafWraps(token: Token): Wraps { Plain(0) }

  function PrefixWraps(token: Token, v: Wraps): Wraps { Plain(v.all) }

  function SuffixWraps(v: Wraps, token: Token): Wraps { Plain(v.all) }

  function JoinWraps(v: Wraps, token: Token, w: Wraps): Wraps { Plain(v.all + w.all) }

  function AwaitWraps(v: Wraps): Wraps { Plain(v.all) }

  function ForAwaitWraps(head: Wraps, v: Wraps, body: Wraps): Wraps { Plain(head.all + v.seen + body.all) }

  function Counting(): Meaning<Wraps> {
    Meaning(LeafWraps, PrefixWraps, SuffixWraps, JoinWraps, CallWraps, AwaitWraps, ForAwaitWraps, AwaitWraps)
  }

  lemma HelperWraps(v: Wraps)
    ensures CallWraps(RESUME, [v]) == CallWraps(GATE, [v]) == v
    ensures CallWraps(ITERABLE, [v]) == Wraps(v.all + 1, v.seen)
  {
    hide RESUME, GATE, ITERABLE;
    DistinctWrappers();
  }

  lemma CountingIsOutside()
    ensures OutsideActors(Counting())
  {
    forall v: Wraps ensures Counting().call(RESUME, [v]) == v && Counting().call(GATE, [v]) == v {
      HelperWraps(v);
      hide CallWraps, RESUME, GATE, ITERABLE;
    }
    forall head: Wraps, v: Wraps, body: Wraps
      ensures Counting().forAwait(head, Counting().call(ITERABLE, [v]), body) == Counting().forAwait(head, v, body)
    {
      HelperWraps(v);
      hide CallWraps, RESUME, GATE, ITERABLE;
    }
    hide CallWraps, RESUME, GATE, ITERABLE;
  }

  /** `Eval` in this reading. */
  function Count(t: Tree): Wraps {
    match t
    case Leaf(_) => Plain(0)
    case Prefix(_, inner) => Plain(Count(inner).all)
    case Suffix(inner, _) => Plain(Count(inner).all)
    case Join(left, _, right) => Plain(Count(left).all + Count(right).all)
    case Paren(inner) => Count(inner)
    case Call(callee, arguments) => CallWraps(callee, CountEach(arguments))
    case Await(argument) => Plain(Count(argument).all)
    case ForAwait(head, right, body) => Plain(Count(head).all + Count(right).seen + Count(body).all)
    case AwaitUsing(init) => Plain(Count(init).all)
  }

  function CountEach(arguments: Arguments): seq<Wraps> {
    match arguments
    case Done => []
    case More(argument, rest) => [Count(argument)] + CountEach(rest)
  }

  /** One node, once its parts read as they count. */
  lemma NodeCounts(t: Tree)
    requires t.Prefix? || t.Suffix? || t.Paren? ==> Eval(t.inner, Counting()) == Count(t.inner)
    requires t.Join? ==> Eval(t.left, Counting()) == Count(t.left) && Eval(t.right, Counting()) == Count(t.right)
    requires t.Call? ==> EvalArguments(t.arguments, Counting()) == CountEach(t.arguments)
    requires t.Await? ==> Eval(t.argument, Counting()) == Count(t.argument)
    requires t.ForAwait? ==>
      && Eval(t.head, Counting()) == Count(t.head) && Eval(t.right, Counting()) == Count(t.right)
      && Eval(t.body, Counting()) == Count(t.body)
    requires t.AwaitUsing? ==> Eval(t.init, Counting()) == Count(t.init)
    ensures Eval(t, Counting()) == Count(t)
  {
    hide CallWraps, Plain;
  }

  lemma {:induction false} EvalCounts(t: Tree)
    ensures Eval(t, Counting()) == Count(t)
    decreases t, 1
  {
    hide Eval, Count, Counting;
    match t {
      case Leaf(_) =>
      case Prefix(_, inner) => EvalCounts(inner);
      case Suffix(inner, _) => EvalCounts(inner);
      case Join(left, _, right) =>
        EvalCounts(left);
        EvalCounts(right);
      case Paren(inner) => EvalCounts(inner);
      case Call(_, arguments) => EvalCountsEach(arguments);
      case Await(argument) => EvalCounts(argument);
      case ForAwait(head, right, body) =>
        EvalCounts(head);
        EvalCounts(right);
        EvalCounts(body);
      case AwaitUsing(init) => EvalCounts(init);
    }
    NodeCounts(t);
  }

  lemma {:induction false} EvalCountsEach(arguments: Arguments)
    ensures EvalArguments(arguments, Counting()) == CountEach(arguments)
  {
    if arguments.More? {
      EvalCounts(arguments.argument);
      EvalCountsEach(arguments.rest);
    }
  }

  /** What a count is off by once the tree is rewritten, its leading await wrapped in a call of `leading`. */
  predicate CountsMore(t: Tree, leading: string) {
    var before, after := Count(t), Count(RewriteAs(t, leading));
    var own := leading == ITERABLE && StartsWithAwait(t);
    && after.all == before.all + Misplaced(t) + (if own then 1 else 0)
    && after.seen == before.seen + Misplaced(t) + (if own && !t.Await? then 1 else 0)
  }

  lemma WrappedCount(name: string, t: Tree)
    ensures Count(Call(name, One(Paren(t)))) == CallWraps(name, [Count(t)])
  {
    hide CallWraps;
    var argument := Paren(t);
    assert Count(argument) == Count(t);
    assert One(argument) == More(argument, Done) && CountEach(Done) == [];
    assert CountEach(More(argument, Done)) == [Count(argument)] + CountEach(Done) == [Count(t)];
  }

  lemma OperandCount(t: Tree, wrapper: string)
    requires wrapper == GATE || wrapper == ITERABLE
    ensures Count(Operand(t, wrapper)) ==
      if StartsWithAwait(t) then Count(RewriteAs(t, wrapper)) else CallWraps(wrapper, [Count(RewriteAs(t, RESUME))])
  {
    hide CallWraps, RewriteAs, Count, RESUME, GATE, ITERABLE;
    WrappedCount(RESUME, RewriteAs(t, wrapper));
    WrappedCount(wrapper, RewriteAs(t, RESUME));
    HelperWraps(Count(RewriteAs(t, wrapper)));
  }

  lemma AwaitCounts(argument: Tree, leading: string)
    requires leading == RESUME || leading == GATE || leading == ITERABLE
    requires CountsMore(argument, if StartsWithAwait(argument) then GATE else RESUME)
    ensures CountsMore(Await(argument), leading)
  {
    hide Operand, CallWraps, RESUME, GATE, ITERABLE;
    DistinctWrappers();
    OperandCount(argument, GATE);
    HelperWraps(Count(RewriteAs(argument, RESUME)));
    WrappedCount(leading, Await(Operand(argument, GATE)));
    HelperWraps(Count(Await(Operand(argument, GATE))));
  }

  lemma ForAwaitCounts(head: Tree, right: Tree, body: Tree, leading: string)
    requires CountsMore(head, RESUME) && CountsMore(body, RESUME)
    requires CountsMore(right, if StartsWithAwait(right) then ITERABLE else RESUME)
    ensures CountsMore(ForAwait(head, right, body), leading)
  {
    hide Operand, CallWraps, RESUME, GATE, ITERABLE;
    DistinctWrappers();
    OperandCount(right, ITERABLE);
    HelperWraps(Count(RewriteAs(right, RESUME)));
  }

  lemma CallCounts(callee: string, arguments: Arguments, leading: string)
    requires ArgumentsCountMore(arguments)
    ensures CountsMore(Call(callee, arguments), leading)
  {
    hide RESUME, GATE, ITERABLE;
  }

  predicate ArgumentsCountMore(arguments: Arguments) {
    var before, after := CountEach(arguments), CountEach(RewriteArguments(arguments));
    && |after| == |before| && AllWraps(after) == AllWraps(before) + MisplacedIn(arguments)
    && (|before| == 1 ==>
        && after[0].all == before[0].all + MisplacedIn(arguments)
        && after[0].seen == before[0].seen + MisplacedIn(arguments))
  }

  lemma MoreCounts(argument: Tree, rest: Arguments)
    requires CountsMore(argument, RESUME) && ArgumentsCountMore(rest)
    ensures ArgumentsCountMore(More(argument, rest))
  {
    hide RESUME, GATE, ITERABLE, Count, RewriteAs;
    DistinctWrappers();
    NoneCount(rest);
  }

  lemma NoneCount(arguments: Arguments)
    ensures |CountEach(arguments)| == 0 ==> MisplacedIn(arguments) == 0
  {
  }

  lemma {:induction false} ArgumentsCount(arguments: Arguments)
    ensures ArgumentsCountMore(arguments)
    decreases arguments, 1
  {
    if arguments.More? {
      hide ArgumentsCountMore, CountsMore;
      RewriteCounts(arguments.argument, RESUME);
      ArgumentsCount(arguments.rest);
      MoreCounts(arguments.argument, arguments.rest);
    }
  }

  /** The cases whose parts are rewritten where they are. */
  lemma PlainCounts(t: Tree, leading: string)
    requires !t.Call? && !t.Await? && !t.ForAwait?
    requires leading == RESUME || leading == GATE || leading == ITERABLE
    requires t.Prefix? ==> CountsMore(t.inner, RESUME)
    requires t.Suffix? ==> CountsMore(t.inner, leading)
    requires t.Join? ==> CountsMore(t.left, leading) && CountsMore(t.right, RESUME)
    requires t.Paren? ==> CountsMore(t.inner, RESUME)
    requires t.AwaitUsing? ==> CountsMore(t.init, RESUME)
    ensures CountsMore(t, leading)
  {
    hide RESUME, GATE, ITERABLE, CallWraps;
    DistinctWrappers();
  }

  lemma {:induction false} RewriteCounts(t: Tree, leading: string)
    requires leading == RESUME || leading == GATE || leading == ITERABLE
    ensures CountsMore(t, leading)
    decreases t, 1
  {
    hide CountsMore, ArgumentsCountMore;
    match t
    case Leaf(_) => PlainCounts(t, leading);
    case Prefix(_, inner) =>
      RewriteCounts(inner, RESUME);
      PlainCounts(t, leading);
    case Suffix(inner, _) =>
      RewriteCounts(inner, leading);
      PlainCounts(t, leading);
    case Join(left, _, right) =>
      RewriteCounts(left, leading);
      RewriteCounts(right, RESUME);
      PlainCounts(t, leading);
    case Paren(inner) =>
      RewriteCounts(inner, RESUME);
      PlainCounts(t, leading);
    case Call(callee, arguments) =>
      ArgumentsCount(arguments);
      CallCounts(callee, arguments, leading);
    case Await(argument) =>
      RewriteCounts(argument, if StartsWithAwait(argument) then GATE else RESUME);
      AwaitCounts(argument, leading);
    case ForAwait(head, right, body) =>
      RewriteCounts(head, RESUME);
      RewriteCounts(right, if StartsWithAwait(right) then ITERABLE else RESUME);
      RewriteCounts(body, RESUME);
      ForAwaitCounts(head, right, body, leading);
    case AwaitUsing(init) =>
      RewriteCounts(init, RESUME);
      PlainCounts(t, leading);
  }

  /** The rewriting adds one wrapper that shows for each for-await that wraps a part. */
  lemma SeparatingReading(t: Tree)
    ensures OutsideActors(Counting())
    ensures Eval(Rewrite(t), Counting()).all == Eval(t, Counting()).all + Misplaced(t)
  {
    DistinctWrappers();
    CountingIsOutside();
    RewriteCounts(t, RESUME);
    EvalCounts(t);
    EvalCounts(Rewrite(t));
  }

  /**
   * Outside an actor the rewriting keeps a program's meaning in every reading if and only if no
   * for-await has an iterable that starts with an await without being one.
   */
  lemma MeaningKeptExactly(t: Tree)
    ensures Misplaced(t) == 0
      <==> forall s: Meaning<Wraps> :: OutsideActors(s) ==> Eval(Rewrite(t), s) == Eval(t, s)
  {
    SeparatingReading(t);
    if Misplaced(t) == 0 {
      forall s: Meaning<Wraps> | OutsideActors(s) ensures Eval(Rewrite(t), s) == Eval(t, s) {
        RewriteKeepsMeaning(t, s);
      }
    }
  }

  // ---------- The smallest such program

  /** What a loop over `await y ?? []` is about: a nullish `y`, a list, an iterable's wrapper, and how a loop ends. */
  datatype Outcome = Nullish | List | Wrapper(of: Outcome) | Completed | TypeError

  function Looped(iterable: Outcome): Outcome {
    match iterable
    case List => Completed
    case Wrapper(inner) => Looped(inner)
    case _ => TypeError
  }

  function LoopLeaf(token: Token): Outcome {
    if token == "[]" then List else Nullish
  }

  function LoopPrefix(token: Token, v: Outcome): Outcome { v }

  function LoopSuffix(v: Outcome, token: Token): Outcome { v }

  function LoopJoin(v: Outcome, token: Token, w: Outcome): Outcome {
    if token == "??" && v == Nullish then w else v
  }

  function LoopCall(callee: string, values: seq<Outcome>): Outcome {
    if |values| != 1 then Nullish else if callee == ITERABLE then Wrapper(values[0]) else values[0]
  }

  function LoopAwait(v: Outcome): Outcome { v }

  function LoopForAwait(head: Outcome, v: Outcome, body: Outcome): Outcome { Looped(v) }

  function Looping(): Meaning<Outcome> {
    Meaning(LoopLeaf, LoopPrefix, LoopSuffix, LoopJoin, LoopCall, LoopAwait, LoopForAwait, LoopAwait)
  }

  /** `for await (x of await y ?? [])` with a nullish `y` completes; rewritten, it throws. */
  lemma NullishIterableThrows()
    ensures var t := ForAwait(Leaf("x"), Join(Await(Leaf("y")), "??", Leaf("[]")), Leaf("b"));
      && OutsideActors(Looping()) && Misplaced(t) == 1
      && Eval(t, Looping()) == Completed && Eval(Rewrite(t), Looping()) == TypeError
  {
    DistinctWrappers();
    var iterable := Join(Await(Leaf("y")), "??", Leaf("[]"));
    WrappedMeaning(GATE, Leaf("y"), Looping());
    WrappedMeaning(ITERABLE, Await(Operand(Leaf("y"), GATE)), Looping());
    WrappedMeaning(RESUME, RewriteAs(iterable, ITERABLE), Looping());
  }
}

/** The editing visitor itself. */
module AwaitTransform {
  import opened Prelude
  import opened AwaitTree
  import opened AwaitEdits
  import opened AwaitRewriteTheorems

  class MagicString {
    const original: seq<Token>
    var left: seq<seq<Token>>
    var right: seq<seq<Token>>

    ghost function Model(): Edits
      reads this
    {
      Edits(left, right)
    }

    ghost predicate Valid()
      reads this
    {
      |original| > 0 && Fits(Model(), |original|)
    }

    constructor (original: seq<Token>)
      requires |original| > 0
      ensures Valid() && this.original == original && Model() == Untouched(|original|)
    {
      this.original := original;
      left, right := seq(|original| + 1, _ => []), seq(|original| + 1, _ => []);
    }

    method PrependLeft(i: nat, text: seq<Token>)
      requires Valid() && i <= |original|
      modifies this`left
      ensures Valid() && Model() == AwaitEdits.PrependLeft(old(Model()), i, text)
    {
      left := left[i := text + left[i]];
    }

    method AppendLeft(i: nat, text: seq<Token>)
      requires Valid() && i <= |original|
      modifies this`left
      ensures Valid() && Model() == AwaitEdits.AppendLeft(old(Model()), i, text)
    {
      left := left[i := left[i] + text];
    }

    method AppendRight(i: nat, text: seq<Token>)
      requires Valid() && i <= |original|
      modifies this`right
      ensures Valid() && Model() == AwaitEdits.AppendRight(old(Model()), i, text)
    {
      right := right[i := right[i] + text];
    }

    method ToString() returns (text: seq<Token>)
      requires Valid()
      ensures text == Render(Model(), original)
    {
      var n := |original|;
      text := [];
      for i := n downto 0
        invariant i == n ==> text == []
        invariant i < n ==> text == Text(Model(), original, i, n)
      {
        text := if i + 1 == n then [original[i]] else [original[i]] + left[i + 1] + right[i + 1] + text;
      }
      text := left[0] + right[0] + text + left[n] + right[n];
    }
  }

  predicate HasAwait(t: Tree) {
    match t
    case Leaf(_) => false
    case Prefix(_, inner) => HasAwait(inner)
    case Suffix(inner, _) => HasAwait(inner)
    case Join(left, _, right) => HasAwait(left) || HasAwait(right)
    case Paren(inner) => HasAwait(inner)
    case Call(_, arguments) => HasAwaitIn(arguments)
    case Await(_) => true
    case ForAwait(_, _, _) => true
    case AwaitUsing(init) => HasAwait(init)
  }

  predicate HasAwaitIn(arguments: Arguments) {
    arguments.More? && (HasAwait(arguments.argument) || HasAwaitIn(arguments.rest))
  }

  /** The edits around an await and its argument. */
  method OpenAwaitIn(source: MagicString, at: nat, end: nat)
    requires source.Valid() && at + 1 < end <= |source.original|
    modifies source
    ensures source.Valid() && source.Model() == OpenAwait(old(source.Model()), at, end)
  {
    source.PrependLeft(at, Open(RESUME));
    source.PrependLeft(at + 1, Open(GATE));
    source.AppendRight(end, CLOSE);
    source.AppendRight(end, CLOSE);
  }

  method VisitNode(source: MagicString, t: Tree, at: nat) returns (transformed: bool)
    requires source.Valid() && at + |Print(t)| <= |source.original|
    modifies source
    ensures source.Valid() && source.Model() == Visit(t, at, old(source.Model()))
    ensures transformed == HasAwait(t)
    decreases t, 1
  {
    match t
    case Leaf(_) => transformed := false;
    case Prefix(_, inner) => transformed := VisitNode(source, inner, at + 1);
    case Suffix(inner, _) => transformed := VisitNode(source, inner, at);
    case Join(left, _, right) =>
      var first := VisitNode(source, left, at);
      var second := VisitNode(source, right, at + |Print(left)| + 1);
      transformed := first || second;
    case Paren(inner) => transformed := VisitNode(source, inner, at + 1);
    case Call(_, arguments) => transformed := VisitEach(source, arguments, "(", at + 1);
    case Await(argument) =>
      OpenAwaitIn(source, at, at + |Print(t)|);
      var _ := VisitNode(source, argument, at + 1);
      transformed := true;
    case ForAwait(_, _, _) =>
      VisitForAwaitNode(source, t, at);
      transformed := true;
    case AwaitUsing(init) => transformed := VisitNode(source, init, at + 1);
  }

  method VisitForAwaitNode(source: MagicString, t: Tree, at: nat)
    requires source.Valid() && t.ForAwait? && at + |Print(t)| <= |source.original|
    modifies source
    ensures source.Valid() && source.Model() == Visit(t, at, old(source.Model()))
    decreases t, 0
  {
    var start := at + 1 + |Print(t.head)| + 1;
    var end := start + |Print(t.right)|;
    source.PrependLeft(start, Open(ITERABLE));
    source.AppendRight(end, CLOSE);
    var _ := VisitNode(source, t.head, at + 1);
    var _ := VisitNode(source, t.right, start);
    var _ := VisitNode(source, t.body, end + 1);
  }

  method VisitEach(source: MagicString, arguments: Arguments, before: Token, at: nat) returns (transformed: bool)
    requires source.Valid() && at + |PrintArguments(arguments, before)| <= |source.original|
    modifies source
    ensures source.Valid() && source.Model() == VisitArguments(arguments, before, at, old(source.Model()))
    ensures transformed == HasAwaitIn(arguments)
    decreases arguments, 1
  {
    transformed := false;
    if arguments.More? {
      var first := VisitNode(source, arguments.argument, at + 1);
      var others := VisitEach(source, arguments.rest, ",", at + 1 + |Print(arguments.argument)|);
      transformed := first || others;
    }
  }

  /**
   * The transform: nothing when there is nothing to rewrite, else the import and a text that spells
   * the rewritten program; only a program that starts with an await is spelled otherwise.
   */
  method Transform(program: Tree) returns (text: Option<seq<Token>>)
    ensures text.None? <==> !HasAwait(program)
    ensures text.Some? ==> text.value == Output(program)
    ensures text.Some? && !StartsWithAwait(program) ==> text.value == [MARKER, IMPORT] + Print(Rewrite(program))
  {
    var source := new MagicString(Print(program));
    var transformed := VisitNode(source, program, 0);
    if !transformed {
      return None;
    }
    source.AppendLeft(0, [MARKER, IMPORT]);
    var output := source.ToString();
    OutputSpellsRewrite(program);
    text := Some(output);
  }

  method CountAwaitCoverage(program: Tree) returns (total: nat, transformed: nat)
    ensures total == Total(program) && transformed == Transformed(program)
    ensures transformed <= total
    decreases program
  {
    TransformedAtMostTotal(program);
    match program
    case Leaf(_) => total, transformed := 0, 0;
    case Prefix(_, inner) => total, transformed := CountAwaitCoverage(inner);
    case Suffix(inner, _) => total, transformed := CountAwaitCoverage(inner);
    case Join(left, _, right) =>
      var total2, transformed2;
      total, transformed := CountAwaitCoverage(left);
      total2, transformed2 := CountAwaitCoverage(right);
      total, transformed := total + total2, transformed + transformed2;
    case Paren(inner) => total, transformed := CountAwaitCoverage(inner);
    case Call(callee, arguments) =>
      total, transformed := CountEach(arguments);
      if CoversAwait(callee, arguments) {
        transformed := transformed + 1;
      }
    case Await(argument) =>
      total, transformed := CountAwaitCoverage(argument);
      total := total + 1;
    case ForAwait(head, right, body) =>
      var total2, transformed2, total3, transformed3;
      total, transformed := CountAwaitCoverage(head);
      total2, transformed2 := CountAwaitCoverage(right);
      total3, transformed3 := CountAwaitCoverage(body);
      total, transformed := 1 + total + total2 + total3, transformed + transformed2 + transformed3;
      if DirectCall(right, ITERABLE) {
        transformed := transformed + 1;
      }
    case AwaitUsing(init) =>
      total, transformed := CountAwaitCoverage(init);
      total := total + 1;
  }

  method CountEach(arguments: Arguments) returns (total: nat, transformed: nat)
    ensures total == TotalOf(arguments) && transformed == TransformedOf(arguments)
    decreases arguments
  {
    total, transformed := 0, 0;
    if arguments.More? {
      var total2, transformed2;
      total, transformed := CountAwaitCoverage(arguments.argument);
      total2, transformed2 := CountEach(arguments.rest);
      total, transformed := total + total2, transformed + transformed2;
    }
  }
}
