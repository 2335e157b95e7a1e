/** Names of pool files in `backends/sqlite-wasm.ts`: one placement's databases share a prefix. */
module PoolNames {
  const SQLITE := ".sqlite"
  const JOURNAL := "-journal"

  predicate StartsWith(text: string, prefix: string) {
    prefix <= text
  }

  predicate EndsWith(text: string, suffix: string) {
    |suffix| <= |text| && text[|text| - |suffix|..] == suffix
  }

  predicate SafeCharacter(c: char) {
    'A' <= c <= 'Z' || 'a' <= c <= 'z' || '0' <= c <= '9' || c == '_' || c == '-'
  }

  predicate SafeDatabaseName(name: string) {
    name != "" && forall c :: c in name ==> SafeCharacter(c)
  }

  function DatabaseFile(prefix: string, name: string): string {
    prefix + "." + name + SQLITE
  }

  /** `file.slice(prefix.length + 1, -".sqlite".length)`, before it is checked. */
  function SlicedName(prefix: string, file: string): string {
    if |prefix| + 1 <= |file| - |SQLITE| then file[|prefix| + 1..|file| - |SQLITE|] else ""
  }

  function PrefixFiles(files: seq<string>, prefix: string): seq<string> {
    if files == [] then []
    else (if StartsWith(files[0], prefix + ".") then [files[0]] else []) + PrefixFiles(files[1..], prefix)
  }

  lemma {:induction false} PrefixFilesAre(files: seq<string>, prefix: string)
    ensures forall f :: f in PrefixFiles(files, prefix) <==> f in files && StartsWith(f, prefix + ".")
    ensures Distinct(files) ==> Distinct(PrefixFiles(files, prefix))
  {
    if files == [] {
    } else {
      PrefixFilesAre(files[1..], prefix);
      assert files == [files[0]] + files[1..];
      assert Distinct(files) ==> Distinct(files[1..]) && files[0] !in files[1..];
    }
  }

  ghost predicate Distinct(names: seq<string>) {
    forall i, j :: 0 <= i < j < |names| ==> names[i] != names[j]
  }

  lemma FileHasItsName(prefix: string, name: string)
    ensures SlicedName(prefix, DatabaseFile(prefix, name)) == name
    ensures StartsWith(DatabaseFile(prefix, name), prefix + ".")
    ensures EndsWith(DatabaseFile(prefix, name), SQLITE)
  {
    assert DatabaseFile(prefix, name)[..|prefix| + 1] == prefix + ".";
  }

  /**
   * Reading a listed file's name undoes building it, exactly for files the checks let through:
   * listed under the prefix, not a sidecar, and with a safe name.
   */
  lemma NameOfFile(prefix: string, file: string)
    ensures
      (StartsWith(file, prefix + ".") && EndsWith(file, SQLITE) && SafeDatabaseName(SlicedName(prefix, file)))
      <==> (exists name :: SafeDatabaseName(name) && file == DatabaseFile(prefix, name))
  {
    var name := SlicedName(prefix, file);
    if StartsWith(file, prefix + ".") && EndsWith(file, SQLITE) && SafeDatabaseName(name) {
      assert file == file[..|prefix| + 1] + name + file[|file| - |SQLITE|..];
      assert file == DatabaseFile(prefix, name);
    }
    forall other | SafeDatabaseName(other) && file == DatabaseFile(prefix, other)
      ensures StartsWith(file, prefix + ".") && EndsWith(file, SQLITE) && name == other
    {
      FileHasItsName(prefix, other);
    }
  }

  /** A safe name holds no dot, so a file belongs to one prefix and one name, even of nested prefixes. */
  lemma OneOwnerPerFile(p: string, n: string, q: string, m: string)
    requires SafeDatabaseName(n) && SafeDatabaseName(m)
    requires DatabaseFile(p, n) == DatabaseFile(q, m)
    ensures p == q && n == m
  {
    var a, b := p + "." + n, q + "." + m;
    assert a == DatabaseFile(p, n)[..|DatabaseFile(p, n)| - |SQLITE|];
    assert b == DatabaseFile(q, m)[..|DatabaseFile(q, m)| - |SQLITE|];
    assert a == b;
    if |p| < |q| {
      LongerPrefixTakesADot(p, n, q, m);
    } else if |q| < |p| {
      LongerPrefixTakesADot(q, m, p, n);
    } else {
      assert p == a[..|p|] == b[..|q|] == q;
      assert n == a[|p| + 1..] == b[|q| + 1..] == m;
    }
  }

  lemma LongerPrefixTakesADot(p: string, n: string, q: string, m: string)
    requires p + "." + n == q + "." + m && |p| < |q|
    ensures '.' in n
  {
    assert (p + "." + n)[|q|] == n[|q| - |p| - 1];
    assert (q + "." + m)[|q|] == '.';
  }
}

/** The file operations of a SAH pool. Any of them may fail, before or after it took effect. */
module SahPool {
  import opened Prelude
  import opened PoolNames

  type Image = seq<bv8>

  datatype PoolFile = PoolFile(name: string, image: Image)

  datatype Failure =
    | ExportFailed(name: string)
    | NotUnlinked(name: string)
    | ImportFailed(name: string)
    | OpenFailed(name: string)
    | Sidecar(name: string)
    | UnsafeName(name: string)
    | HandlesOpen
    | InvalidFilename(name: string)
    | DuplicateFilename(name: string)
    | UnsoundImage(name: string)
    | NewerStorage(name: string)

  /** A pool operation's value, or the failure it threw. */
  datatype Attempt<+T> = Done(value: T) | Failed(error: Failure)

  /** Whether two pools agree about a name: both without it, or with the same image. */
  predicate SameAt(a: map<string, Image>, b: map<string, Image>, name: string) {
    (name in a <==> name in b) && (name in a && name in b ==> a[name] == b[name])
  }

  predicate IsJournal(file: string) {
    EndsWith(file, JOURNAL)
  }

  function DatabaseOf(journal: string): string
    requires IsJournal(journal)
  {
    journal[..|journal| - |JOURNAL|]
  }

  /** A database's committed image: a hot journal beside it still has a transaction to undo. */
  function Committed(files: map<string, Image>, undo: (Image, Image) -> Image, name: string): Option<Image> {
    if name !in files then None
    else if name + JOURNAL in files then Some(undo(files[name], files[name + JOURNAL]))
    else Some(files[name])
  }

  /** The files once SQLite has rolled back the transaction a database's journal belongs to, if it has one. */
  function RolledBack(files: map<string, Image>, undo: (Image, Image) -> Image, name: string): map<string, Image> {
    if name in files && name + JOURNAL in files
    then files[name := undo(files[name], files[name + JOURNAL])] - {name + JOURNAL} else files
  }

  /** `undo` is what SQLite makes of an image and a journal when it rolls back. */
  class Pool {
    const undo: (Image, Image) -> Image
    var files: map<string, Image>
    ghost var failures: seq<Failure>  // of the pool's operations, in order

    constructor (files: map<string, Image>, undo: (Image, Image) -> Image)
      ensures this.files == files && this.undo == undo && failures == []
    {
      this.files, this.undo, failures := files, undo, [];
    }

    method GetFileNames() returns (names: seq<string>)
      ensures forall n :: n in names <==> n in files
      ensures Distinct(names)
    {
      names := [];
      var rest := files.Keys;
      while rest != {}
        invariant rest <= files.Keys
        invariant forall n :: n in names <==> n in files && n !in rest
        invariant Distinct(names)
        decreases |rest|
      {
        var n :| n in rest;
        names := names + [n];
        rest := rest - {n};
      }
    }

    method ExportFile(name: string) returns (r: Attempt<Image>)
      modifies this`failures
      ensures r.Done? ==> name in files && r.value == files[name] && failures == old(failures)
      ensures r.Failed? ==> failures == old(failures) + [r.error]
    {
      var readable: bool := *;
      if readable && name in files {
        r := Done(files[name]);
      } else {
        failures := failures + [ExportFailed(name)];
        r := Failed(ExportFailed(name));
      }
    }

    /** `unlink`, with its `false` answer already turned into an error. */
    method Unlink(name: string) returns (failure: Option<Failure>)
      modifies this`files, this`failures
      ensures failure.None? ==> name in old(files) && files == old(files) - {name} && failures == old(failures)
      ensures failure.Some? ==>
        && (files == old(files) || files == old(files) - {name})
        && failures == old(failures) + [failure.value]
    {
      var fails: bool, after: bool := *, *;
      failure := None;
      if name !in files || fails {
        failure := Some(NotUnlinked(name));
        failures := failures + [NotUnlinked(name)];
      }
      if failure.None? || after {
        files := files - {name};
      }
    }

    /**
     * Opens a database, reads and closes it. SQLite may replay its hot journal, wholly or, when the
     * read fails, partly; a partly replayed journal stays, and undoes to the same image.
     */
    method OpenAndRead(name: string) returns (failure: Option<Failure>)
      modifies this
      ensures forall n :: n != name && n != name + JOURNAL ==> SameAt(files, old(files), n)
      ensures name in old(files) ==>
        && name in files && Committed(files, undo, name) == Committed(old(files), undo, name)
        && (name + JOURNAL in files ==> SameAt(files, old(files), name + JOURNAL))
      ensures failures == old(failures) + (if failure.Some? then [failure.value] else [])
    {
      var fails: bool, consumes: bool, partial: Image := *, *, *;
      if name in files && name + JOURNAL in files {
        var image := undo(files[name], files[name + JOURNAL]);
        if consumes {
          files := files[name := image] - {name + JOURNAL};
        } else if fails && undo(partial, files[name + JOURNAL]) == image {
          files := files[name := partial];
        }
      } else if name !in files && consumes {
        files := files[name := partial];
      }
      failure := None;
      if fails {
        failure := Some(OpenFailed(name));
        failures := failures + [OpenFailed(name)];
      }
    }

    /** A connection closes; a transaction it had begun to write is rolled back. */
    method CloseDatabase(name: string)
      modifies this`files
      ensures files == RolledBack(old(files), undo, name)
    {
      if name in files && name + JOURNAL in files {
        files := files[name := undo(files[name], files[name + JOURNAL])];
        files := files - {name + JOURNAL};
      }
    }

    /** Whatever other users of the pool do between two awaits of one operation. */
    method OthersRun()
      modifies this
    {
      files, failures := *, *;
    }

    /** An await of one operation: other users leave `elsewhere` of the names that are not the operation's own. */
    method Yield(mine: string -> bool, elsewhere: map<string, Image>)
      modifies this`files
      ensures forall n :: SameAt(files, if mine(n) then old(files) else elsewhere, n)
    {
      files := map n | n in files.Keys + elsewhere.Keys && (if mine(n) then n in files else n in elsewhere)
        :: if mine(n) then files[n] else elsewhere[n];
    }

    method ImportDb(name: string, image: Image) returns (failure: Option<Failure>)
      modifies this`files, this`failures
      ensures failure.None? ==> files == old(files)[name := image] && failures == old(failures)
      ensures failure.Some? ==>
        && (forall n :: n != name ==> SameAt(files, old(files), n))
        && failures == old(failures) + [failure.value]
    {
      var fails: bool, written: bool, cleared: bool := *, *, *;
      if !fails {
        files := files[name := image];
        return None;
      }
      if written {
        var remains: Image := *;
        files := files[name := remains];
      } else if cleared {
        files := files - {name};
      }
      failures := failures + [ImportFailed(name)];
      failure := Some(ImportFailed(name));
    }
  }
}

/** `replacePoolFiles` and its callers in `backends/sqlite-wasm.ts`. */
module PoolReplace {
  import opened Prelude
  import opened PoolNames
  import opened SahPool

  datatype Outcome =
    | Returned
    | Refused(error: Failure)  // before the pool is touched
    | Threw(error: Failure)
    | RestoreError(errors: seq<Failure>, original: seq<PoolFile>)

  function Overlay(files: map<string, Image>, images: seq<PoolFile>): map<string, Image> {
    if images == [] then files
    else
      var last := images[|images| - 1];
      Overlay(files, images[..|images| - 1])[last.name := last.image]
  }

  function NamesOf(images: seq<PoolFile>): set<string> {
    set f | f in images :: f.name
  }

  function Elements(names: seq<string>): set<string> {
    set n | n in names
  }

  /** `original` holds the listed files with the images they had. */
  ghost predicate Originals(original: seq<PoolFile>, names: seq<string>, files: map<string, Image>) {
    && |original| == |names|
    && forall i :: 0 <= i < |names| ==>
         names[i] in files && original[i] == PoolFile(names[i], files[names[i]])
  }

  /** What both callers see to: a name to be imported that the pool holds is among those replaced. */
  ghost predicate Covers(names: seq<string>, replacement: seq<PoolFile>, files: map<string, Image>) {
    forall f :: f in replacement && f.name in files ==> f.name in names
  }

  ghost predicate SameOutside(a: map<string, Image>, b: map<string, Image>, touched: set<string>) {
    forall n :: n !in touched ==> SameAt(a, b, n)
  }

  lemma SameEverywhere(a: map<string, Image>, b: map<string, Image>)
    requires forall n :: SameAt(a, b, n)
    ensures a == b
  {
    assert forall n :: SameAt(a, b, n) ==> (n in a <==> n in b);
    assert a.Keys == b.Keys;
    forall n | n in a ensures a[n] == b[n] {
      assert SameAt(a, b, n);
    }
  }

  lemma {:induction false} OverlayOutside(files: map<string, Image>, images: seq<PoolFile>)
    ensures SameOutside(Overlay(files, images), files, NamesOf(images))
  {
    if images == [] {
    } else {
      var before := images[..|images| - 1];
      OverlayOutside(files, before);
      forall n | n !in NamesOf(images) ensures SameAt(Overlay(files, images), files, n) {
        assert n !in NamesOf(before) && n != images[|images| - 1].name;
        assert SameAt(Overlay(files, before), files, n);
      }
    }
  }

  method ExportFiles(pool: Pool, names: seq<string>) returns (r: Attempt<seq<PoolFile>>)
    modifies pool`failures
    ensures r.Done? ==> Originals(r.value, names, pool.files) && pool.failures == old(pool.failures)
    ensures r.Failed? ==> pool.failures == old(pool.failures) + [r.error]
  {
    var exported: seq<PoolFile> := [];
    for i := 0 to |names|
      invariant Originals(exported, names[..i], pool.files)
      invariant pool.failures == old(pool.failures)
    {
      var image := pool.ExportFile(names[i]);
      if image.Failed? {
        return Failed(image.error);
      }
      exported := exported + [PoolFile(names[i], image.value)];
    }
    assert names[..|names|] == names;
    r := Done(exported);
  }

  // ---------- What belongs to one operation, and what to others

  ghost predicate SameMine(a: map<string, Image>, b: map<string, Image>, mine: string -> bool) {
    forall n :: mine(n) ==> SameAt(a, b, n)
  }

  ghost predicate SameOthers(a: map<string, Image>, b: map<string, Image>, mine: string -> bool) {
    forall n :: !mine(n) ==> SameAt(a, b, n)
  }

  /** The other users' last files after an operation awaited `turns` times; `others(k)` is what they leave in the `k`th. */
  function Elsewhere(files: map<string, Image>, others: nat -> map<string, Image>, turns: nat): map<string, Image> {
    if turns == 0 then files else others(turns - 1)
  }

  predicate AllMine(names: seq<string>, replacement: seq<PoolFile>, mine: string -> bool) {
    (forall n :: n in names ==> mine(n)) && (forall f :: f in replacement ==> mine(f.name))
  }

  /** Of an operation's own names only `touched` ones differ. */
  ghost predicate OnlyTouched(a: map<string, Image>, b: map<string, Image>, touched: set<string>, mine: string -> bool) {
    forall n :: mine(n) && n !in touched ==> SameAt(a, b, n)
  }

  lemma OneMoreTouched(after: map<string, Image>, before: map<string, Image>, start: map<string, Image>,
                       touched: set<string>, name: string, mine: string -> bool)
    requires OnlyTouched(before, start, touched, mine)
    requires forall n :: mine(n) && n != name ==> SameAt(after, before, n)
    ensures OnlyTouched(after, start, touched + {name}, mine)
  {
    forall n | mine(n) && n !in touched + {name} ensures SameAt(after, start, n) {
      assert SameAt(after, before, n) && SameAt(before, start, n);
    }
  }

  /** `await pool.importDb(…)`. */
  method ImportAwaited(pool: Pool, file: PoolFile, mine: string -> bool, elsewhere: map<string, Image>)
    returns (failure: Option<Failure>)
    requires mine(file.name)
    modifies pool`files, pool`failures
    ensures failure.None? ==>
      SameMine(pool.files, old(pool.files)[file.name := file.image], mine) && pool.failures == old(pool.failures)
    ensures failure.Some? ==> pool.failures == old(pool.failures) + [failure.value]
    ensures forall n :: mine(n) && n != file.name ==> SameAt(pool.files, old(pool.files), n)
    ensures SameOthers(pool.files, elsewhere, mine)
  {
    failure := pool.ImportDb(file.name, file.image);
    ghost var imported := pool.files;
    pool.Yield(mine, elsewhere);
    forall n | mine(n) ensures SameAt(pool.files, imported, n) {}
    forall n | mine(n) && n != file.name ensures SameAt(pool.files, old(pool.files), n) {
      assert SameAt(pool.files, imported, n) && SameAt(imported, old(pool.files), n);
    }
  }

  lemma OverlayGrows(now: map<string, Image>, next: map<string, Image>, after: map<string, Image>, files: map<string, Image>,
                     images: seq<PoolFile>, i: nat, mine: string -> bool)
    requires i < |images| && SameMine(now, Overlay(files, images[..i]), mine)
    requires next == now[images[i].name := images[i].image] && SameMine(after, next, mine)
    ensures SameMine(after, Overlay(files, images[..i + 1]), mine)
  {
    assert images[..i + 1][..i] == images[..i];
    forall n | mine(n) ensures SameAt(after, Overlay(files, images[..i + 1]), n) {
      assert SameAt(after, next, n) && SameAt(now, Overlay(files, images[..i]), n);
    }
  }

  method UnlinkEach(pool: Pool, names: seq<string>) returns (failure: Option<Failure>, touched: set<string>)
    modifies pool`files, pool`failures
    ensures failure.None? ==>
      touched == Elements(names) && pool.files == old(pool.files) - Elements(names) && pool.failures == old(pool.failures)
    ensures failure.Some? ==> pool.failures == old(pool.failures) + [failure.value]
    ensures touched <= Elements(names)
    ensures SameOutside(pool.files, old(pool.files), touched)
  {
    touched := {};
    for i := 0 to |names|
      invariant touched == Elements(names[..i])
      invariant pool.files == old(pool.files) - Elements(names[..i])
      invariant pool.failures == old(pool.failures)
    {
      touched := touched + {names[i]};
      assert Elements(names[..i + 1]) == Elements(names[..i]) + {names[i]};
      failure := pool.Unlink(names[i]);
      if failure.Some? {
        assert touched <= Elements(names);
        return;
      }
    }
    assert names[..|names|] == names;
    failure := None;
  }

  method ImportEach(pool: Pool, images: seq<PoolFile>, mine: string -> bool, others: nat -> map<string, Image>, start: nat)
    returns (failure: Option<Failure>, touched: set<string>, turns: nat)
    requires forall f :: f in images ==> mine(f.name)
    modifies pool`files, pool`failures
    ensures failure.None? ==> SameMine(pool.files, Overlay(old(pool.files), images), mine) && pool.failures == old(pool.failures)
    ensures failure.Some? ==> pool.failures == old(pool.failures) + [failure.value]
    ensures touched <= NamesOf(images) && OnlyTouched(pool.files, old(pool.files), touched, mine)
    ensures turns >= start
    ensures SameOthers(pool.files, if turns == start then old(pool.files) else others(turns - 1), mine)
  {
    hide OnlyTouched, Overlay;
    touched, turns := {}, start;
    OverlayNothing(pool.files, images, mine);
    for i := 0 to |images|
      invariant touched == NamesOf(images[..i]) && turns == start + i
      invariant SameMine(pool.files, Overlay(old(pool.files), images[..i]), mine)
      invariant OnlyTouched(pool.files, old(pool.files), touched, mine)
      invariant SameOthers(pool.files, if turns == start then old(pool.files) else others(turns - 1), mine)
      invariant pool.failures == old(pool.failures)
    {
      var file := images[i];
      assert file in images;
      ImportTouches(images, i);
      ghost var before := pool.files;
      failure := ImportAwaited(pool, file, mine, others(turns));
      OneMoreTouched(pool.files, before, old(pool.files), touched, file.name, mine);
      touched, turns := touched + {file.name}, turns + 1;
      if failure.Some? {
        return;
      }
      OverlayGrows(before, before[file.name := file.image], pool.files, old(pool.files), images, i, mine);
    }
    assert images[..|images|] == images;
    failure := None;
  }

  lemma OverlayNothing(files: map<string, Image>, images: seq<PoolFile>, mine: string -> bool)
    ensures SameMine(files, Overlay(files, images[..0]), mine) && OnlyTouched(files, files, {}, mine)
    ensures NamesOf(images[..0]) == {}
  {
  }

  lemma ImportTouches(images: seq<PoolFile>, i: nat)
    requires i < |images|
    ensures NamesOf(images[..i + 1]) == NamesOf(images[..i]) + {images[i].name}
    ensures NamesOf(images[..i + 1]) <= NamesOf(images)
  {
    assert images[..i + 1] == images[..i] + [images[i]];
  }

  /** The `try` block: the files go, then the images come; `touched` names all it may have changed. */
  method ReplaceForward(pool: Pool, names: seq<string>, replacement: seq<PoolFile>, mine: string -> bool,
                        others: nat -> map<string, Image>, start: nat)
    returns (failure: Option<Failure>, touched: set<string>, turns: nat)
    requires AllMine(names, replacement, mine)
    modifies pool`files, pool`failures
    ensures failure.None? ==>
      && SameMine(pool.files, Overlay(old(pool.files) - Elements(names), replacement), mine)
      && pool.failures == old(pool.failures)
    ensures failure.Some? ==> pool.failures == old(pool.failures) + [failure.value]
    ensures touched <= Elements(names) + NamesOf(replacement)
    ensures OnlyTouched(pool.files, old(pool.files), touched, mine)
    ensures turns >= start
    ensures SameOthers(pool.files, if turns == start then old(pool.files) else others(turns - 1), mine)
  {
    turns := start;
    failure, touched := UnlinkEach(pool, names);
    ghost var emptied := pool.files;
    assert SameOthers(emptied, old(pool.files), mine);
    if failure.Some? {
      return;
    }
    var imported;
    failure, imported, turns := ImportEach(pool, replacement, mine, others, start);
    TouchedBoth(pool.files, emptied, old(pool.files), imported, touched, mine);
    touched := touched + imported;
  }

  lemma TouchedBoth(a: map<string, Image>, b: map<string, Image>, c: map<string, Image>, second: set<string>,
                    first: set<string>, mine: string -> bool)
    requires OnlyTouched(a, b, second, mine) && SameOutside(b, c, first)
    ensures OnlyTouched(a, c, first + second, mine)
  {
    forall n | mine(n) && n !in first + second ensures SameAt(a, c, n) {
      assert SameAt(a, b, n) && SameAt(b, c, n);
    }
  }

  /** The `catch` block begins by unlinking what is listed of the touched names. */
  method UnlinkTouched(pool: Pool, touched: set<string>, first: Failure) returns (errors: seq<Failure>)
    modifies pool`files, pool`failures
    ensures |errors| >= 1 && errors[0] == first
    ensures pool.failures == old(pool.failures) + errors[1..]
    ensures SameOutside(pool.files, old(pool.files), touched)
    ensures |errors| == 1 ==> forall n :: n in touched ==> n !in pool.files
  {
    errors := [first];
    var listed := pool.GetFileNames();
    for i := 0 to |listed|
      invariant |errors| >= 1 && errors[0] == first
      invariant pool.failures == old(pool.failures) + errors[1..]
      invariant SameOutside(pool.files, old(pool.files), touched)
      invariant pool.files.Keys <= Elements(listed)
      invariant |errors| == 1 ==> forall n :: n in touched && n in listed[..i] ==> n !in pool.files
    {
      if listed[i] in touched {
        var failure := pool.Unlink(listed[i]);
        if failure.Some? {
          errors := errors + [failure.value];
        }
      }
    }
    assert listed[..|listed|] == listed;
  }

  /** The `catch` block. Without an error of its own it puts every touched name back as it was. */
  method RollBack(pool: Pool, original: seq<PoolFile>, touched: set<string>, first: Failure, mine: string -> bool,
                  others: nat -> map<string, Image>, start: nat)
    returns (errors: seq<Failure>, turns: nat)
    requires forall i, j :: 0 <= i < j < |original| && original[i].name == original[j].name ==> original[i] == original[j]
    requires forall n :: n in touched ==> mine(n)
    modifies pool`files, pool`failures
    ensures |errors| >= 1 && errors[0] == first
    ensures pool.failures == old(pool.failures) + errors[1..]
    ensures OnlyTouched(pool.files, old(pool.files), touched, mine)
    ensures |errors| == 1 ==> Restored(pool.files, original, touched)
    ensures turns >= start
    ensures SameOthers(pool.files, if turns == start then old(pool.files) else others(turns - 1), mine)
  {
    errors := UnlinkTouched(pool, touched, first);
    turns := start;
    assert SameOthers(pool.files, old(pool.files), mine) && OnlyTouched(pool.files, old(pool.files), touched, mine);
    assert |errors| == 1 ==> Restored(pool.files, original[..0], touched);
    hide OnlyTouched, Restored;
    for i := 0 to |original|
      invariant |errors| >= 1 && errors[0] == first
      invariant pool.failures == old(pool.failures) + errors[1..]
      invariant OnlyTouched(pool.files, old(pool.files), touched, mine)
      invariant turns >= start
      invariant SameOthers(pool.files, if turns == start then old(pool.files) else others(turns - 1), mine)
      invariant |errors| == 1 ==> Restored(pool.files, original[..i], touched)
    {
      if original[i].name in touched {
        ghost var before := pool.files;
        var failure := ImportAwaited(pool, original[i], mine, others(turns));
        OneMoreTouched(pool.files, before, old(pool.files), touched, original[i].name, mine);
        assert touched + {original[i].name} == touched;
        turns := turns + 1;
        if failure.Some? {
          errors := errors + [failure.value];
        } else if |errors| == 1 {
          RestoredMore(before, before[original[i].name := original[i].image], original, touched, i);
          RestoredStays(before[original[i].name := original[i].image], pool.files, original[..i + 1], touched, mine);
        }
      } else {
        UntouchedRestored(pool.files, original, touched, i);
      }
    }
    assert original[..|original|] == original;
  }

  ghost predicate Restored(files: map<string, Image>, original: seq<PoolFile>, touched: set<string>) {
    forall n :: n in touched ==>
      && (n in files <==> n in NamesOf(original))
      && (forall f :: f in original && f.name == n ==> n in files && files[n] == f.image)
  }

  lemma RestoredMore(before: map<string, Image>, after: map<string, Image>, original: seq<PoolFile>, touched: set<string>, i: nat)
    requires forall i, j :: 0 <= i < j < |original| && original[i].name == original[j].name ==> original[i] == original[j]
    requires i < |original| && original[i].name in touched && Restored(before, original[..i], touched)
    requires after == before[original[i].name := original[i].image]
    ensures Restored(after, original[..i + 1], touched)
  {
    assert original[..i + 1] == original[..i] + [original[i]];
  }

  lemma RestoredStays(a: map<string, Image>, b: map<string, Image>, original: seq<PoolFile>, touched: set<string>,
                      mine: string -> bool)
    requires Restored(a, original, touched) && SameMine(b, a, mine) && forall n :: n in touched ==> mine(n)
    ensures Restored(b, original, touched)
  {
    forall n | n in touched
      ensures n in b <==> n in NamesOf(original)
      ensures forall f :: f in original && f.name == n ==> n in b && b[n] == f.image
    {
      assert SameAt(b, a, n);
    }
  }

  lemma UntouchedRestored(files: map<string, Image>, original: seq<PoolFile>, touched: set<string>, i: nat)
    requires i < |original| && original[i].name !in touched
    ensures Restored(files, original[..i], touched) ==> Restored(files, original[..i + 1], touched)
  {
    assert original[..i + 1] == original[..i] + [original[i]];
  }

  /**
   * Replaces `names` with `replacement`, while in each of its awaits others change whatever is not
   * `mine`. It ends with exactly the replacement if and only if no operation failed; with one failure
   * it throws that failure with its own names as they were; with more it throws all of them, first
   * one first, and every original image. What is not its own ends as others last left it.
   */
  method ReplacePoolFiles(pool: Pool, names: seq<string>, replacement: seq<PoolFile>, mine: string -> bool,
                          others: nat -> map<string, Image>)
    returns (r: Outcome, turns: nat)
    requires AllMine(names, replacement, mine)
    modifies pool`files, pool`failures
    ensures !r.Refused?
    ensures r.Returned? ==>
      && pool.failures == old(pool.failures)
      && SameMine(pool.files, Overlay(old(pool.files) - Elements(names), replacement), mine)
    ensures r.Threw? ==>
      && pool.failures == old(pool.failures) + [r.error]
      && (Covers(names, replacement, old(pool.files)) ==> SameMine(pool.files, old(pool.files), mine))
    ensures r.RestoreError? ==>
      && pool.failures == old(pool.failures) + r.errors && |r.errors| > 1
      && Originals(r.original, names, old(pool.files))
    ensures OnlyTouched(pool.files, old(pool.files), Elements(names) + NamesOf(replacement), mine)
    ensures SameOthers(pool.files, Elsewhere(old(pool.files), others, turns), mine)
  {
    var exported := ExportFiles(pool, names);
    pool.Yield(mine, others(0));
    turns := 1;
    ghost var begun := pool.files;
    assert SameMine(begun, old(pool.files), mine);
    if exported.Failed? {
      return Outcome.Threw(exported.error), turns;
    }
    var original := exported.value;
    var failure, touched;
    failure, touched, turns := ReplaceForward(pool, names, replacement, mine, others, turns);
    if failure.None? {
      ReplacedMine(begun, old(pool.files), pool.files, names, replacement, mine);
      return Returned, turns;
    }
    ghost var stopped := pool.files;
    assert forall n :: n in touched ==> mine(n);
    var errors;
    errors, turns := RollBack(pool, original, touched, failure.value, mine, others, turns);
    assert [errors[0]] + errors[1..] == errors;
    TouchedChain(pool.files, stopped, begun, old(pool.files), touched, Elements(names) + NamesOf(replacement), mine);
    if |errors| > 1 {
      return RestoreError(errors, original), turns;
    }
    if Covers(names, replacement, old(pool.files)) {
      AllRestored(pool.files, old(pool.files), original, names, replacement, touched, mine);
    }
    r := Outcome.Threw(failure.value);
  }

  lemma {:induction false} OverlayMine(a: map<string, Image>, b: map<string, Image>, images: seq<PoolFile>, mine: string -> bool)
    requires SameMine(a, b, mine)
    ensures SameMine(Overlay(a, images), Overlay(b, images), mine)
  {
    if images == [] {
    } else {
      OverlayMine(a, b, images[..|images| - 1], mine);
      forall n | mine(n) ensures SameAt(Overlay(a, images), Overlay(b, images), n) {
        assert SameAt(Overlay(a, images[..|images| - 1]), Overlay(b, images[..|images| - 1]), n);
      }
    }
  }

  lemma ReplacedMine(begun: map<string, Image>, start: map<string, Image>, end: map<string, Image>, names: seq<string>,
                     replacement: seq<PoolFile>, mine: string -> bool)
    requires SameMine(begun, start, mine) && SameMine(end, Overlay(begun - Elements(names), replacement), mine)
    ensures SameMine(end, Overlay(start - Elements(names), replacement), mine)
    ensures OnlyTouched(end, start, Elements(names) + NamesOf(replacement), mine)
  {
    var a, b := begun - Elements(names), start - Elements(names);
    forall n | mine(n) ensures SameAt(a, b, n) { assert SameAt(begun, start, n); }
    OverlayMine(a, b, replacement, mine);
    OverlayOutside(b, replacement);
    forall n | mine(n) ensures SameAt(end, Overlay(b, replacement), n) {
      assert SameAt(end, Overlay(a, replacement), n) && SameAt(Overlay(a, replacement), Overlay(b, replacement), n);
    }
    forall n | mine(n) && n !in Elements(names) + NamesOf(replacement) ensures SameAt(end, start, n) {
      assert SameAt(Overlay(b, replacement), b, n);
    }
  }

  lemma TouchedChain(a: map<string, Image>, b: map<string, Image>, c: map<string, Image>, d: map<string, Image>,
                     touched: set<string>, all: set<string>, mine: string -> bool)
    requires OnlyTouched(a, b, touched, mine) && OnlyTouched(b, c, touched, mine) && SameMine(c, d, mine) && touched <= all
    ensures OnlyTouched(a, d, touched, mine) && OnlyTouched(a, d, all, mine)
  {
    forall n | mine(n) && n !in touched ensures SameAt(a, d, n) {
      assert SameAt(a, b, n) && SameAt(b, c, n) && SameAt(c, d, n);
    }
  }

  lemma AllRestored(end: map<string, Image>, start: map<string, Image>, original: seq<PoolFile>, names: seq<string>,
                    replacement: seq<PoolFile>, touched: set<string>, mine: string -> bool)
    requires Originals(original, names, start) && Covers(names, replacement, start)
    requires touched <= Elements(names) + NamesOf(replacement)
    requires Restored(end, original, touched) && OnlyTouched(end, start, touched, mine)
    ensures SameMine(end, start, mine)
  {
    OriginalNames(original, names, start);
    forall n | mine(n) ensures SameAt(end, start, n) {
      if n in touched && n in names {
        var i :| 0 <= i < |names| && names[i] == n;
        assert original[i] in original && original[i].name == n;
      }
    }
  }

  lemma OriginalNames(original: seq<PoolFile>, names: seq<string>, files: map<string, Image>)
    requires Originals(original, names, files)
    ensures NamesOf(original) == Elements(names)
  {
    forall n | n in NamesOf(original) ensures n in names {
      var f :| f in original && f.name == n;
      var i :| 0 <= i < |original| && original[i] == f;
      assert names[i] in names;
    }
    forall n | n in names ensures n in NamesOf(original) {
      var i :| 0 <= i < |names| && names[i] == n;
      assert original[i] in original && original[i].name == n;
    }
  }

  // ---------- One placement

  type DatabaseName = name: string | SafeDatabaseName(name) witness "a"

  /** A file that is a database of this placement, by a name `open()` would take. */
  predicate Owned(prefix: string, file: string) {
    StartsWith(file, prefix + ".") && EndsWith(file, SQLITE) && SafeDatabaseName(SlicedName(prefix, file))
  }

  ghost predicate DistinctNames(images: seq<PoolFile>) {
    forall i, j :: 0 <= i < j < |images| ==> images[i].name != images[j].name
  }

  /** What `requireValidSqlDatabaseSnapshot` leaves of a snapshot, as far as names go. */
  ghost predicate ValidDatabases(databases: seq<PoolFile>) {
    DistinctNames(databases) && forall d :: d in databases ==> SafeDatabaseName(d.name)
  }

  /** The placement's databases are these and no others. */
  ghost predicate HoldsExactly(files: map<string, Image>, prefix: string, databases: seq<PoolFile>) {
    && (forall d :: d in databases ==>
          DatabaseFile(prefix, d.name) in files && files[DatabaseFile(prefix, d.name)] == d.image)
    && (forall file :: file in files && StartsWith(file, prefix + ".") ==>
          exists d :: d in databases && file == DatabaseFile(prefix, d.name))
  }

  function InPool(prefix: string, databases: seq<PoolFile>): (files: seq<PoolFile>)
    ensures |files| == |databases|
    ensures forall i :: 0 <= i < |files| ==>
      files[i] == PoolFile(DatabaseFile(prefix, databases[i].name), databases[i].image)
  {
    if databases == [] then []
    else [PoolFile(DatabaseFile(prefix, databases[0].name), databases[0].image)] + InPool(prefix, databases[1..])
  }

  function InPlacement(prefix: string, files: seq<PoolFile>): (databases: seq<PoolFile>)
    ensures |databases| == |files|
    ensures forall i :: 0 <= i < |files| ==>
      databases[i] == PoolFile(SlicedName(prefix, files[i].name), files[i].image)
  {
    if files == [] then []
    else [PoolFile(SlicedName(prefix, files[0].name), files[0].image)] + InPlacement(prefix, files[1..])
  }

  lemma {:induction false} OverlayHolds(files: map<string, Image>, images: seq<PoolFile>)
    requires DistinctNames(images)
    ensures forall f :: f in images ==> f.name in Overlay(files, images) && Overlay(files, images)[f.name] == f.image
  {
    if images == [] {
    } else {
      var before, last := images[..|images| - 1], images[|images| - 1];
      OverlayHolds(files, before);
      forall f | f in images
        ensures f.name in Overlay(files, images) && Overlay(files, images)[f.name] == f.image
      {
        var i :| 0 <= i < |images| && images[i] == f;
        assert i < |images| - 1 ==> before[i] == f && f in before;
      }
    }
  }

  lemma InPoolIsDistinct(prefix: string, databases: seq<PoolFile>)
    requires ValidDatabases(databases)
    ensures DistinctNames(InPool(prefix, databases))
    ensures forall n :: n in NamesOf(InPool(prefix, databases)) ==> Owned(prefix, n)
  {
    var files := InPool(prefix, databases);
    forall i | 0 <= i < |files|
      ensures SlicedName(prefix, files[i].name) == databases[i].name && Owned(prefix, files[i].name)
    {
      FileHasItsName(prefix, databases[i].name);
      assert databases[i] in databases;
    }
    forall i, j | 0 <= i < j < |files| ensures files[i].name != files[j].name {
      assert SlicedName(prefix, files[i].name) != SlicedName(prefix, files[j].name);
    }
  }

  /** The listed files of a placement and what replaced them. */
  lemma ReplacedPlacement(files: map<string, Image>, names: seq<string>, prefix: string, databases: seq<PoolFile>)
    requires ValidDatabases(databases)
    requires forall f :: f in names <==> f in files && StartsWith(f, prefix + ".")
    ensures HoldsExactly(Overlay(files - Elements(names), InPool(prefix, databases)), prefix, databases)
  {
    var images := InPool(prefix, databases);
    var base := files - Elements(names);
    var after := Overlay(base, images);
    InPoolIsDistinct(prefix, databases);
    OverlayHolds(base, images);
    OverlayOutside(base, images);
    forall d | d in databases
      ensures DatabaseFile(prefix, d.name) in after && after[DatabaseFile(prefix, d.name)] == d.image
    {
      var i :| 0 <= i < |databases| && databases[i] == d;
      assert images[i] in images;
    }
    forall file | file in after && StartsWith(file, prefix + ".")
      ensures exists d :: d in databases && file == DatabaseFile(prefix, d.name)
    {
      assert file !in base;
      assert file in NamesOf(images) by {
        assert SameAt(after, base, file) || file in NamesOf(images);
      }
      var f :| f in images && f.name == file;
      var i :| 0 <= i < |images| && images[i] == f;
      assert databases[i] in databases;
    }
  }

  lemma OwnedFile(prefix: string, file: string)
    requires Owned(prefix, file)
    ensures SafeDatabaseName(SlicedName(prefix, file)) && file == DatabaseFile(prefix, SlicedName(prefix, file))
  {
    NameOfFile(prefix, file);
    var name :| SafeDatabaseName(name) && file == DatabaseFile(prefix, name);
    FileHasItsName(prefix, name);
  }

  lemma PlacementOriginals(original: seq<PoolFile>, names: seq<string>, files: map<string, Image>, prefix: string)
    requires Originals(original, names, files)
    requires forall f :: f in names <==> f in files && StartsWith(f, prefix + ".")
    requires forall f :: f in names ==> Owned(prefix, f)
    requires Distinct(names)
    ensures ValidDatabases(InPlacement(prefix, original))
    ensures HoldsExactly(files, prefix, InPlacement(prefix, original))
  {
    hide Owned;
    hide DatabaseFile;
    hide SlicedName;
    hide StartsWith;
    hide SafeDatabaseName;
    var databases := InPlacement(prefix, original);
    forall i | 0 <= i < |names|
      ensures SafeDatabaseName(databases[i].name) && names[i] == DatabaseFile(prefix, databases[i].name)
    {
      assert names[i] in names;
      OwnedFile(prefix, names[i]);
    }
    forall file | file in files && StartsWith(file, prefix + ".")
      ensures exists d :: d in databases && file == DatabaseFile(prefix, d.name)
    {
      var i :| 0 <= i < |names| && names[i] == file;
      assert databases[i] in databases;
    }
  }

  method FirstSidecar(names: seq<string>) returns (sidecar: Option<string>)
    ensures sidecar.None? <==> forall f :: f in names ==> EndsWith(f, SQLITE)
    ensures sidecar.Some? ==> sidecar.value in names && !EndsWith(sidecar.value, SQLITE)
  {
    for i := 0 to |names|
      invariant forall j :: 0 <= j < i ==> EndsWith(names[j], SQLITE)
    {
      if !EndsWith(names[i], SQLITE) {
        return Some(names[i]);
      }
    }
    sidecar := None;
  }

  method FirstUnsafe(names: seq<string>, prefix: string) returns (unsafe: Option<string>)
    ensures unsafe.None? <==> forall f :: f in names ==> SafeDatabaseName(SlicedName(prefix, f))
    ensures unsafe.Some? ==> unsafe.value in names && !SafeDatabaseName(SlicedName(prefix, unsafe.value))
  {
    for i := 0 to |names|
      invariant forall j :: 0 <= j < i ==> SafeDatabaseName(SlicedName(prefix, names[j]))
    {
      if !SafeDatabaseName(SlicedName(prefix, names[i])) {
        return Some(names[i]);
      }
    }
    unsafe := None;
  }

  /** Every file under the prefix, unless one is a sidecar or has a name `open()` would refuse. */
  method CheckedFiles(pool: Pool, prefix: string) returns (names: seq<string>, refusal: Option<Failure>)
    ensures forall f :: f in names <==> f in pool.files && StartsWith(f, prefix + ".")
    ensures Distinct(names)
    ensures refusal.None? <==> forall f :: f in names ==> Owned(prefix, f)
  {
    hide EndsWith;
    hide SafeDatabaseName;
    hide SlicedName;
    hide StartsWith;
    var listed := pool.GetFileNames();
    names := PrefixFiles(listed, prefix);
    PrefixFilesAre(listed, prefix);
    var sidecar := FirstSidecar(names);
    if sidecar.Some? {
      return names, Some(Sidecar(sidecar.value));
    }
    var unsafe := FirstUnsafe(names, prefix);
    if unsafe.Some? {
      return names, Some(UnsafeName(unsafe.value));
    }
    refusal := None;
  }

  /** A replacement that stays among a placement's databases leaves its other names alone. */
  lemma ForeignNamesStay(a: map<string, Image>, b: map<string, Image>, names: seq<string>, images: seq<PoolFile>,
                         prefix: string)
    requires OnlyTouched(a, b, Elements(names) + NamesOf(images), InPrefix(prefix))
    requires forall f :: f in names ==> Owned(prefix, f)
    requires forall n :: n in NamesOf(images) ==> Owned(prefix, n)
    ensures forall file :: StartsWith(file, prefix + ".") && !Owned(prefix, file) ==> SameAt(a, b, file)
  {
    forall file | StartsWith(file, prefix + ".") && !Owned(prefix, file) ensures SameAt(a, b, file) {
      assert InPrefix(prefix)(file);
    }
  }

  lemma PlacementCovers(names: seq<string>, databases: seq<PoolFile>, files: map<string, Image>, prefix: string)
    requires ValidDatabases(databases)
    requires forall f :: f in names <==> f in files && StartsWith(f, prefix + ".")
    ensures Covers(names, InPool(prefix, databases), files)
  {
    InPoolIsDistinct(prefix, databases);
    forall f | f in InPool(prefix, databases) && f.name in files ensures f.name in names {
      assert f.name in NamesOf(InPool(prefix, databases));
    }
  }

  /** A placement's own names, databases and sidecars alike. */
  function InPrefix(prefix: string): string -> bool {
    n => StartsWith(n, prefix + ".")
  }

  lemma OwnNames(prefix: string, names: seq<string>, databases: seq<PoolFile>)
    requires ValidDatabases(databases) && forall f :: f in names ==> StartsWith(f, prefix + ".")
    ensures AllMine(names, InPool(prefix, databases), InPrefix(prefix))
  {
    InPoolIsDistinct(prefix, databases);
    forall f | f in InPool(prefix, databases) ensures StartsWith(f.name, prefix + ".") {
      assert f.name in NamesOf(InPool(prefix, databases));
    }
  }

  lemma HeldByPlacement(a: map<string, Image>, b: map<string, Image>, prefix: string, databases: seq<PoolFile>)
    requires HoldsExactly(b, prefix, databases) && SameMine(a, b, InPrefix(prefix))
    ensures HoldsExactly(a, prefix, databases)
  {
    forall d | d in databases
      ensures DatabaseFile(prefix, d.name) in a && a[DatabaseFile(prefix, d.name)] == d.image
    {
      FileHasItsName(prefix, d.name);
      assert InPrefix(prefix)(DatabaseFile(prefix, d.name));
      assert SameAt(a, b, DatabaseFile(prefix, d.name));
    }
    forall file | file in a && StartsWith(file, prefix + ".") ensures file in b {
      assert InPrefix(prefix)(file);
      assert SameAt(a, b, file);
    }
  }

  /**
   * Replaces a placement's databases while other users change other files. A sidecar or a foreign name
   * under the prefix refuses it before the pool is touched; otherwise it leaves exactly `databases`, or
   * the placement as it was, or throws every original database. What is not the placement's ends as
   * others last left it.
   */
  method ReplaceDatabases(pool: Pool, prefix: string, databases: seq<PoolFile>, others: nat -> map<string, Image>)
    returns (r: Outcome, turns: nat)
    requires ValidDatabases(databases)
    modifies pool`files, pool`failures
    ensures r.Refused? <==> exists f :: f in old(pool.files) && StartsWith(f, prefix + ".") && !Owned(prefix, f)
    ensures r.Refused? ==> pool.files == old(pool.files)
    ensures r.Threw? ==> SameMine(pool.files, old(pool.files), InPrefix(prefix))
    ensures r.Refused? || r.Returned? ==> pool.failures == old(pool.failures)
    ensures r.Threw? ==> pool.failures == old(pool.failures) + [r.error]
    ensures r.Returned? ==> HoldsExactly(pool.files, prefix, databases)
    ensures r.RestoreError? ==>
      && pool.failures == old(pool.failures) + r.errors && |r.errors| > 1
      && ValidDatabases(r.original) && HoldsExactly(old(pool.files), prefix, r.original)
    ensures SameOthers(pool.files, Elsewhere(old(pool.files), others, turns), InPrefix(prefix))
    ensures forall file :: StartsWith(file, prefix + ".") && !Owned(prefix, file) ==> SameAt(pool.files, old(pool.files), file)
  {
    var names, refusal := CheckedFiles(pool, prefix);
    if refusal.Some? {
      return Refused(refusal.value), 0;
    }
    var replacement := InPool(prefix, databases);
    InPoolIsDistinct(prefix, databases);
    OwnNames(prefix, names, databases);
    ReplacedPlacement(pool.files, names, prefix, databases);
    PlacementCovers(names, databases, pool.files, prefix);
    r, turns := ReplacePoolFiles(pool, names, replacement, InPrefix(prefix), others);
    ForeignNamesStay(pool.files, old(pool.files), names, replacement, prefix);
    if r.Returned? {
      HeldByPlacement(pool.files, Overlay(old(pool.files) - Elements(names), replacement), prefix, databases);
    }
    if r.RestoreError? {
      PlacementOriginals(r.original, names, old(pool.files), prefix);
      r := RestoreError(r.errors, InPlacement(prefix, r.original));
    }
  }

  // ---------- A placement's storage

  /** An outcome reports exactly the operations of the pool that failed, and no other reason to give up. */
  predicate FailuresAre(r: Outcome, before: seq<Failure>, after: seq<Failure>) {
    match r
    case Returned => after == before
    case Refused(_) => after == before
    case Threw(error) => after == before + [error]
    case RestoreError(errors, _) => after == before + errors && |errors| > 1
  }

  /** A sidecar, or a file with a name `open()` would refuse, is under the prefix. */
  ghost predicate ForeignIn(files: map<string, Image>, prefix: string) {
    exists f :: f in files && StartsWith(f, prefix + ".") && !Owned(prefix, f)
  }

  /** No name outside the placement's prefix differs. */
  ghost predicate SameOutsidePrefix(a: map<string, Image>, b: map<string, Image>, prefix: string) {
    forall file :: !StartsWith(file, prefix + ".") ==> SameAt(a, b, file)
  }

  /** The placement's databases keep their committed images, and no journal of its appears. */
  ghost predicate KeepsPlacement(a: map<string, Image>, b: map<string, Image>, undo: (Image, Image) -> Image, prefix: string) {
    && (forall n :: StartsWith(n, prefix + ".") && !IsJournal(n) ==> Committed(a, undo, n) == Committed(b, undo, n))
    && (forall n :: StartsWith(n, prefix + ".") && IsJournal(n) && n in a ==> n in b)
  }

  lemma PlacementKept(a: map<string, Image>, b: map<string, Image>, c: map<string, Image>, undo: (Image, Image) -> Image,
                      prefix: string)
    requires SameMine(a, b, InPrefix(prefix)) && KeepsCommitted(b, c, undo)
    ensures KeepsPlacement(a, c, undo, prefix)
  {
    forall n | StartsWith(n, prefix + ".") && !IsJournal(n) ensures Committed(a, undo, n) == Committed(c, undo, n) {
      JournalKeepsPrefix(prefix, n);
      assert InPrefix(prefix)(n) && InPrefix(prefix)(n + JOURNAL);
      assert SameAt(a, b, n) && SameAt(a, b, n + JOURNAL);
      assert Committed(b, undo, n) == Committed(c, undo, n);
    }
    forall n | StartsWith(n, prefix + ".") && IsJournal(n) && n in a ensures n in c {
      assert InPrefix(prefix)(n);
      assert SameAt(a, b, n);
    }
  }

  lemma OutsideIsOthers(a: map<string, Image>, closed: map<string, Image>, start: map<string, Image>,
                        others: nat -> map<string, Image>, turns: nat, prefix: string)
    requires SameOthers(a, Elsewhere(closed, others, turns), InPrefix(prefix)) && SameOutsidePrefix(closed, start, prefix)
    ensures SameOthers(a, Elsewhere(start, others, turns), InPrefix(prefix))
  {
    forall n | !InPrefix(prefix)(n) ensures SameAt(a, Elsewhere(start, others, turns), n) {
      assert SameAt(a, Elsewhere(closed, others, turns), n);
      assert SameAt(closed, start, n);
    }
  }

  /** The files once the placement's connections to `names` have closed, one after another. */
  function Closed(files: map<string, Image>, undo: (Image, Image) -> Image, prefix: string, names: seq<DatabaseName>)
    : map<string, Image>
    decreases |names|
  {
    if names == [] then files
    else Closed(RolledBack(files, undo, DatabaseFile(prefix, names[0])), undo, prefix, names[1..])
  }

  lemma ClosingOneKeeps(files: map<string, Image>, undo: (Image, Image) -> Image, prefix: string, name: DatabaseName)
    ensures var after := RolledBack(files, undo, DatabaseFile(prefix, name));
      KeepsCommitted(after, files, undo) && SameOutsidePrefix(after, files, prefix)
  {
    var file := DatabaseFile(prefix, name);
    var after := RolledBack(files, undo, file);
    FileHasItsName(prefix, name);
    JournalEnds(file);
    if IsJournal(file) { JournalIsNoDatabase(file); }
    if after != files {
      OpeningKeepsCommitted(files, after, undo, file);
      JournalKeepsPrefix(prefix, file);
    }
  }

  lemma JournalIsNoDatabase(file: string)
    requires IsJournal(file)
    ensures !EndsWith(file, SQLITE)
  {
    JournalName(file);
    JournalEnds(DatabaseOf(file));
  }

  lemma JournalKeepsPrefix(prefix: string, file: string)
    requires StartsWith(file, prefix + ".")
    ensures StartsWith(file + JOURNAL, prefix + ".")
  {
    assert (file + JOURNAL)[..|prefix| + 1] == file[..|prefix| + 1];
  }

  /** Closing connections keeps every committed image, and touches only the placement's files. */
  lemma {:induction false} ClosingKeeps(files: map<string, Image>, undo: (Image, Image) -> Image, prefix: string,
                                        names: seq<DatabaseName>)
    ensures KeepsCommitted(Closed(files, undo, prefix, names), files, undo)
    ensures SameOutsidePrefix(Closed(files, undo, prefix, names), files, prefix)
    decreases |names|
  {
    if names == [] {
    } else {
      var next := RolledBack(files, undo, DatabaseFile(prefix, names[0]));
      ClosingOneKeeps(files, undo, prefix, names[0]);
      ClosingKeeps(next, undo, prefix, names[1..]);
      ChangesChain(Closed(files, undo, prefix, names), next, files, undo, prefix);
    }
  }

  lemma ChangesChain(a: map<string, Image>, b: map<string, Image>, c: map<string, Image>, undo: (Image, Image) -> Image,
                     prefix: string)
    requires KeepsCommitted(a, b, undo) && KeepsCommitted(b, c, undo)
    requires SameOutsidePrefix(a, b, prefix) && SameOutsidePrefix(b, c, prefix)
    ensures KeepsCommitted(a, c, undo) && SameOutsidePrefix(a, c, prefix)
  {
    forall n | !IsJournal(n) ensures Committed(a, undo, n) == Committed(c, undo, n) {
      assert Committed(a, undo, n) == Committed(b, undo, n);
    }
    forall file | !StartsWith(file, prefix + ".") ensures SameAt(a, c, file) {
      assert SameAt(a, b, file) && SameAt(b, c, file);
    }
  }

  /** What the placement holds is its databases and journals of transactions its open connections write. */
  ghost predicate OnlyOwnJournals(files: map<string, Image>, prefix: string, names: seq<DatabaseName>) {
    forall f :: f in files && StartsWith(f, prefix + ".") && !Owned(prefix, f) ==>
      exists n :: n in names && f == DatabaseFile(prefix, n) + JOURNAL && DatabaseFile(prefix, n) in files
  }

  /** Closing first is what lets a copy over a placement in use proceed: no journal of its own is left to refuse it. */
  lemma {:induction false} ClosingAdmitsReplacement(files: map<string, Image>, undo: (Image, Image) -> Image, prefix: string,
                                                    names: seq<DatabaseName>)
    requires OnlyOwnJournals(files, prefix, names)
    ensures forall f :: f in Closed(files, undo, prefix, names) && StartsWith(f, prefix + ".") ==> Owned(prefix, f)
    decreases |names|
  {
    if names == [] {
    } else {
      var next := RolledBack(files, undo, DatabaseFile(prefix, names[0]));
      OneJournalLess(files, undo, prefix, names);
      ClosingAdmitsReplacement(next, undo, prefix, names[1..]);
    }
  }

  lemma OneJournalLess(files: map<string, Image>, undo: (Image, Image) -> Image, prefix: string, names: seq<DatabaseName>)
    requires names != [] && OnlyOwnJournals(files, prefix, names)
    ensures OnlyOwnJournals(RolledBack(files, undo, DatabaseFile(prefix, names[0])), prefix, names[1..])
  {
    hide Owned, StartsWith;
    var next := RolledBack(files, undo, DatabaseFile(prefix, names[0]));
    forall f | f in next && StartsWith(f, prefix + ".") && !Owned(prefix, f)
      ensures exists n :: n in names[1..] && f == DatabaseFile(prefix, n) + JOURNAL && DatabaseFile(prefix, n) in next
    {
      var n :| n in names && f == DatabaseFile(prefix, n) + JOURNAL && DatabaseFile(prefix, n) in files;
      OtherJournalStays(files, undo, prefix, names[0], n);
      assert n in names[1..] by { assert names == [names[0]] + names[1..]; }
    }
  }

  lemma OtherJournalStays(files: map<string, Image>, undo: (Image, Image) -> Image, prefix: string, closing: DatabaseName,
                          name: DatabaseName)
    requires var file := DatabaseFile(prefix, name);
      file in files && file + JOURNAL in RolledBack(files, undo, DatabaseFile(prefix, closing))
    ensures name != closing
    ensures DatabaseFile(prefix, name) in RolledBack(files, undo, DatabaseFile(prefix, closing))
  {
    FileHasItsName(prefix, name);
    JournalEnds(DatabaseFile(prefix, closing));
    hide DatabaseFile, EndsWith;
  }

  /** `SqliteWasmActorStorage`: one placement's databases, and the ones its connections hold open. */
  class ActorStorage {
    const pool: Pool
    const prefix: string
    var open: seq<DatabaseName>

    constructor (pool: Pool, prefix: string)
      ensures this.pool == pool && this.prefix == prefix && open == []
    {
      this.pool, this.prefix, open := pool, prefix, [];
    }

    method CloseStorage()
      modifies this`open, pool`files
      ensures open == [] && pool.files == Closed(old(pool.files), pool.undo, prefix, old(open))
    {
      while open != []
        invariant Closed(pool.files, pool.undo, prefix, open) == Closed(old(pool.files), pool.undo, prefix, old(open))
        decreases |open|
      {
        pool.CloseDatabase(DatabaseFile(prefix, open[0]));
        open := open[1..];
      }
    }

    /** The first stretch of `copyFrom`: the source's images, as its files were in the caller's own turn. */
    method ReadImages() returns (r: Attempt<seq<PoolFile>>)
      modifies pool`failures
      ensures r.Done? ==>
        ValidDatabases(r.value) && HoldsExactly(pool.files, prefix, r.value) && pool.failures == old(pool.failures)
      ensures r.Failed? ==>
        || pool.failures == old(pool.failures) + [r.error]
        || (pool.failures == old(pool.failures) && ForeignIn(pool.files, prefix))
    {
      var names, refusal := CheckedFiles(pool, prefix);
      if refusal.Some? {
        return Failed(refusal.value);
      }
      var exported := ExportFiles(pool, names);
      if exported.Failed? {
        return exported;
      }
      PlacementOriginals(exported.value, names, pool.files, prefix);
      r := Done(InPlacement(prefix, exported.value));
    }

    /**
     * Its second stretch, in the target pool's queue: the target's connections close, whatever was
     * opened meanwhile, and its files are replaced.
     */
    method InstallImages(images: seq<PoolFile>, others: nat -> map<string, Image>) returns (r: Outcome, turns: nat)
      requires ValidDatabases(images)
      modifies this`open, pool`files, pool`failures
      ensures open == []
      ensures var closed := Closed(old(pool.files), pool.undo, prefix, old(open));
        && (r.Refused? <==> exists f :: f in closed && StartsWith(f, prefix + ".") && !Owned(prefix, f))
        && (r.Refused? ==> pool.files == closed)
        && (r.Threw? ==> SameMine(pool.files, closed, InPrefix(prefix)))
        && (r.Returned? ==> HoldsExactly(pool.files, prefix, images))
        && (r.RestoreError? ==> ValidDatabases(r.original) && HoldsExactly(closed, prefix, r.original))
      ensures FailuresAre(r, old(pool.failures), pool.failures)
      ensures SameOthers(pool.files, Elsewhere(old(pool.files), others, turns), InPrefix(prefix))
      ensures r.Refused? || r.Threw? ==> KeepsPlacement(pool.files, old(pool.files), pool.undo, prefix)
    {
      ClosingKeeps(pool.files, pool.undo, prefix, open);
      CloseStorage();
      ghost var closed := pool.files;
      r, turns := ReplaceDatabases(pool, prefix, images, others);
      OutsideIsOthers(pool.files, closed, old(pool.files), others, turns, prefix);
      if r.Refused? || r.Threw? {
        PlacementKept(pool.files, closed, old(pool.files), pool.undo, prefix);
      }
    }

    /**
     * `copyFrom`. Anything may happen to either pool between reading the source and the target's
     * turn; `found` and `openThen` are what that turn finds. A failed read leaves the target alone.
     */
    method CopyFrom(source: ActorStorage, others: nat -> map<string, Image>)
      returns (r: Outcome, began: bool, turns: nat, ghost databases: seq<PoolFile>, ghost found: map<string, Image>,
               ghost openThen: seq<DatabaseName>, ghost failedThen: seq<Failure>)
      modifies this`open, pool, source.pool
      ensures !began ==>
        && r.Threw? && pool.files == old(pool.files) && open == old(open)
        && (source.pool.failures == old(source.pool.failures) + [r.error]
            || ForeignIn(old(source.pool.files), source.prefix))
      ensures began ==>
        && open == []
        && ValidDatabases(databases) && HoldsExactly(old(source.pool.files), source.prefix, databases)
        && (r.Returned? ==> HoldsExactly(pool.files, prefix, databases))
        && (r.Refused? || r.Threw? ==> KeepsPlacement(pool.files, found, pool.undo, prefix))
        && (r.RestoreError? ==>
            ValidDatabases(r.original) && HoldsExactly(Closed(found, pool.undo, prefix, openThen), prefix, r.original))
        && SameOthers(pool.files, Elsewhere(found, others, turns), InPrefix(prefix))
        && FailuresAre(r, failedThen, pool.failures)
        && (r.Refused? <==> ForeignIn(Closed(found, pool.undo, prefix, openThen), prefix))
        && (OnlyOwnJournals(found, prefix, openThen) ==> !r.Refused?)
    {
      databases, found, openThen, failedThen := [], pool.files, open, pool.failures;
      var images := source.ReadImages();
      if images.Failed? {
        return Outcome.Threw(images.error), false, 0, [], found, openThen, failedThen;
      }
      databases := images.value;
      source.pool.OthersRun();
      pool.OthersRun();
      open := *;
      found, openThen, failedThen := pool.files, open, pool.failures;
      if OnlyOwnJournals(found, prefix, openThen) {
        ClosingAdmitsReplacement(found, pool.undo, prefix, openThen);
      }
      r, turns := InstallImages(images.value, others);
      began := true;
    }
  }

  // ---------- The whole pool

  /** SQLite names no journal after a journal. */
  ghost predicate NoNestedJournals(files: map<string, Image>) {
    forall f :: f in files && IsJournal(f) ==> !IsJournal(DatabaseOf(f))
  }

  /** Every database keeps its committed image, and none appears or vanishes. */
  ghost predicate KeepsCommitted(a: map<string, Image>, b: map<string, Image>, undo: (Image, Image) -> Image) {
    && (forall n :: !IsJournal(n) ==> Committed(a, undo, n) == Committed(b, undo, n))
    && (forall n :: IsJournal(n) && n in a ==> n in b)
  }

  lemma JournalEnds(name: string)
    ensures IsJournal(name + JOURNAL) && DatabaseOf(name + JOURNAL) == name
    ensures !EndsWith(name + JOURNAL, SQLITE)
    ensures forall other: string :: other + JOURNAL == name + JOURNAL ==> other == name
  {
    var file := name + JOURNAL;
    assert file[|file| - 1] == 'l';
    assert SQLITE[|SQLITE| - 1] == 'e';
    assert |file| >= |SQLITE| ==> file[|file| - |SQLITE|..][|SQLITE| - 1] == 'l';
    forall other: string | other + JOURNAL == file ensures other == name {
      assert (other + JOURNAL)[..|other|] == other;
      assert file[..|name|] == name;
    }
  }

  lemma JournalName(file: string)
    requires IsJournal(file)
    ensures file == DatabaseOf(file) + JOURNAL
  {
  }

  /** Opening one database keeps the committed image of every database. */
  lemma OpeningKeepsCommitted(before: map<string, Image>, after: map<string, Image>, undo: (Image, Image) -> Image,
                              name: string)
    requires !IsJournal(name) && name in before
    requires forall n :: n != name && n != name + JOURNAL ==> SameAt(after, before, n)
    requires name in after && Committed(after, undo, name) == Committed(before, undo, name)
    requires name + JOURNAL in after ==> SameAt(after, before, name + JOURNAL)
    ensures KeepsCommitted(after, before, undo)
  {
    forall n | !IsJournal(n) && n != name ensures Committed(after, undo, n) == Committed(before, undo, n) {
      JournalEnds(n);
      JournalEnds(name);
      assert SameAt(after, before, n);
      assert SameAt(after, before, n + JOURNAL);
    }
    forall n | IsJournal(n) && n in after ensures n in before {
      assert n == name + JOURNAL || SameAt(after, before, n);
    }
  }

  /**
   * Every file of an idle pool once each hot journal was replayed. Whatever fails, no database loses
   * its committed image; and what is returned has no sidecar left, so the images are the committed ones.
   */
  method RecoveredPoolFiles(pool: Pool, openConnections: nat) returns (r: Attempt<seq<string>>)
    modifies pool
    ensures openConnections > 0 ==> r == Failed(HandlesOpen) && pool.files == old(pool.files)
    ensures r.Done? ==> pool.failures == old(pool.failures)
    ensures r.Failed? && openConnections == 0 ==>
      || pool.failures == old(pool.failures) + [r.error]
      || (pool.failures == old(pool.failures) && exists f :: f in pool.files && !EndsWith(f, SQLITE))
    ensures NoNestedJournals(old(pool.files)) ==> KeepsCommitted(pool.files, old(pool.files), pool.undo)
    ensures r.Done? ==>
      && Distinct(r.value) && (forall f :: f in r.value <==> f in pool.files)
      && (forall f :: f in pool.files ==> EndsWith(f, SQLITE))
  {
    if openConnections > 0 {
      return Failed(HandlesOpen);
    }
    var files := pool.GetFileNames();
    for i := 0 to |files|
      invariant NoNestedJournals(old(pool.files)) ==> KeepsCommitted(pool.files, old(pool.files), pool.undo)
      invariant pool.failures == old(pool.failures)
    {
      if IsJournal(files[i]) && DatabaseOf(files[i]) in files {
        var failure := OpenListed(pool, files[i], old(pool.files));
        if failure.Some? {
          return Failed(failure.value);
        }
      }
    }
    var recovered := pool.GetFileNames();
    var sidecar := FirstSidecar(recovered);
    if sidecar.Some? {
      return Failed(Sidecar(sidecar.value));
    }
    r := Done(recovered);
  }

  method OpenListed(pool: Pool, journal: string, ghost start: map<string, Image>)
    returns (failure: Option<Failure>)
    requires journal in start && IsJournal(journal) && DatabaseOf(journal) in start
    requires NoNestedJournals(start) ==> KeepsCommitted(pool.files, start, pool.undo)
    modifies pool
    ensures NoNestedJournals(start) ==> KeepsCommitted(pool.files, start, pool.undo)
    ensures pool.failures == old(pool.failures) + (if failure.Some? then [failure.value] else [])
  {
    var name := DatabaseOf(journal);
    ghost var before := pool.files;
    failure := pool.OpenAndRead(name);
    if NoNestedJournals(start) {
      assert Committed(before, pool.undo, name) == Committed(start, pool.undo, name);
      OpeningKeepsCommitted(before, pool.files, pool.undo, name);
    }
  }

  /** Each image is the committed one of the database it names, and every database is there. */
  ghost predicate CommittedImages(images: seq<PoolFile>, files: map<string, Image>, undo: (Image, Image) -> Image) {
    && (forall f :: f in images ==> Committed(files, undo, f.name) == Some(f.image))
    && (forall n :: n in files && !IsJournal(n) ==> n in NamesOf(images))
  }

  lemma SettledImages(images: seq<PoolFile>, names: seq<string>, files: map<string, Image>,
                      start: map<string, Image>, undo: (Image, Image) -> Image)
    requires Originals(images, names, files)
    requires forall f :: f in names <==> f in files
    requires forall f :: f in files ==> EndsWith(f, SQLITE)
    requires KeepsCommitted(files, start, undo)
    ensures CommittedImages(images, start, undo)
  {
    forall f | f in images ensures Committed(start, undo, f.name) == Some(f.image) {
      var i :| 0 <= i < |images| && images[i] == f;
      assert names[i] in names;
      JournalEnds(f.name);
      if IsJournal(f.name) {
        JournalName(f.name);
        JournalEnds(DatabaseOf(f.name));
      }
    }
    forall n | n in start && !IsJournal(n) ensures n in NamesOf(images) {
      assert Committed(files, undo, n) == Committed(start, undo, n);
      assert n in names;
      var i :| 0 <= i < |names| && names[i] == n;
      assert images[i] in images;
    }
  }

  /** A name the driver's file header takes whole. */
  predicate PoolFilename(name: string) {
    StartsWith(name, "/") && '\0' !in name && Utf8Length(name) < 511
  }

  /** What the sqlite3 build says of an image: whether it is an intact database, and one this release may import. */
  datatype Validator = Validator(intact: Image -> bool, importable: Image -> bool)

  ghost predicate ValidPoolFiles(files: seq<PoolFile>, validator: Validator) {
    DistinctNames(files) && forall f :: f in files ==> PoolFilename(f.name) && validator.intact(f.image)
  }

  /** `validatePoolFiles`: the first file that is wrong, if one is. */
  method ValidatePoolFiles(files: seq<PoolFile>, validator: Validator) returns (failure: Option<Failure>)
    ensures failure.None? <==> ValidPoolFiles(files, validator)
  {
    hide Utf8Length;
    var names: set<string> := {};
    for i := 0 to |files|
      invariant names == NamesOf(files[..i])
      invariant ValidPoolFiles(files[..i], validator)
    {
      var file := files[i];
      assert file in files;
      assert files[..i + 1] == files[..i] + [file];
      if !PoolFilename(file.name) {
        return Some(InvalidFilename(file.name));
      }
      if file.name in names {
        RepeatedName(files, i);
        return Some(DuplicateFilename(file.name));
      }
      if !validator.intact(file.image) {
        return Some(UnsoundImage(file.name));
      }
      names := names + {file.name};
      FreshName(files, i);
    }
    assert files[..|files|] == files;
    failure := None;
  }

  lemma RepeatedName(files: seq<PoolFile>, i: nat)
    requires i < |files| && files[i].name in NamesOf(files[..i])
    ensures !DistinctNames(files)
  {
    var f :| f in files[..i] && f.name == files[i].name;
    var j :| 0 <= j < i && files[..i][j] == f;
    assert files[j].name == files[i].name;
  }

  lemma FreshName(files: seq<PoolFile>, i: nat)
    requires i < |files| && files[i].name !in NamesOf(files[..i]) && DistinctNames(files[..i])
    ensures DistinctNames(files[..i + 1]) && NamesOf(files[..i + 1]) == NamesOf(files[..i]) + {files[i].name}
  {
    var more := files[..i + 1];
    assert more == files[..i] + [files[i]];
    forall j, k | 0 <= j < k < |more| ensures more[j].name != more[k].name {
      if k == i { assert files[..i][j] in files[..i]; } else { assert files[..i][j].name != files[..i][k].name; }
    }
    forall n | n in NamesOf(more) ensures n in NamesOf(files[..i]) + {files[i].name} {
      var f :| f in more && f.name == n;
      assert f in files[..i] || f == files[i];
    }
    forall n | n in NamesOf(files[..i]) ensures n in NamesOf(more) {
      var f :| f in files[..i] && f.name == n;
      assert f in more;
    }
    assert files[i] in more;
  }

  /** `requireImportableRuntimeStorage`: the first image a newer release wrote, if one is. */
  method FirstNewer(files: seq<PoolFile>, validator: Validator) returns (failure: Option<Failure>)
    ensures failure.None? <==> forall f :: f in files ==> validator.importable(f.image)
  {
    for i := 0 to |files|
      invariant forall j :: 0 <= j < i ==> validator.importable(files[j].image)
    {
      if !validator.importable(files[i].image) {
        assert files[i] in files;
        return Some(NewerStorage(files[i].name));
      }
    }
    failure := None;
  }

  /** A file of the pool is a sidecar, has a name no pool takes, or is not intact. */
  ghost predicate Unexportable(files: map<string, Image>, validator: Validator) {
    exists f :: f in files && (!EndsWith(f, SQLITE) || !PoolFilename(f) || !validator.intact(files[f]))
  }

  /** Images exported under distinct names are valid unless one of the files is not. */
  lemma InvalidIsUnexportable(images: seq<PoolFile>, names: seq<string>, files: map<string, Image>, validator: Validator)
    requires Originals(images, names, files) && Distinct(names) && !ValidPoolFiles(images, validator)
    ensures Unexportable(files, validator)
  {
    hide PoolFilename, EndsWith;
    assert DistinctNames(images);
    var f :| f in images && !(PoolFilename(f.name) && validator.intact(f.image));
    assert f.name in files && files[f.name] == f.image;
  }

  /**
   * Exports an idle pool: the committed image of every database, each intact and under a name a pool
   * takes, or a failure that loses none.
   */
  method ExportPoolSnapshot(pool: Pool, openConnections: nat, validator: Validator) returns (r: Attempt<seq<PoolFile>>)
    modifies pool
    ensures r.Done? ==> ValidPoolFiles(r.value, validator) && openConnections == 0 && pool.failures == old(pool.failures)
    ensures r.Failed? && openConnections == 0 ==>
      || pool.failures == old(pool.failures) + [r.error]
      || (pool.failures == old(pool.failures) && Unexportable(pool.files, validator))
    ensures NoNestedJournals(old(pool.files)) ==>
      && KeepsCommitted(pool.files, old(pool.files), pool.undo)
      && (r.Done? ==> CommittedImages(r.value, old(pool.files), pool.undo))
  {
    var names := RecoveredPoolFiles(pool, openConnections);
    if names.Failed? {
      return Failed(names.error);
    }
    r := ExportFiles(pool, names.value);
    if r.Done? {
      if NoNestedJournals(old(pool.files)) {
        SettledImages(r.value, names.value, pool.files, old(pool.files), pool.undo);
      }
      var failure := ValidatePoolFiles(r.value, validator);
      if failure.Some? {
        InvalidIsUnexportable(r.value, names.value, pool.files, validator);
        return Failed(failure.value);
      }
    }
  }

  /**
   * Replaces a whole idle pool: it ends holding exactly the snapshot, or with every committed image
   * as it was, or throws them all. A snapshot that is not valid, or newer, is refused untouched.
   */
  method ImportPoolSnapshot(pool: Pool, openConnections: nat, snapshot: seq<PoolFile>, validator: Validator)
    returns (r: Outcome)
    modifies pool
    ensures !ValidPoolFiles(snapshot, validator) || (exists f :: f in snapshot && !validator.importable(f.image)) ==>
      r.Refused? && pool.files == old(pool.files)
    ensures r.Refused? ==>
      || !ValidPoolFiles(snapshot, validator) || (exists f :: f in snapshot && !validator.importable(f.image))
      || openConnections > 0
      || pool.failures == old(pool.failures) + [r.error]
      || (pool.failures == old(pool.failures) && exists f :: f in pool.files && !EndsWith(f, SQLITE))
    ensures !r.Refused? ==> openConnections == 0 && FailuresAre(r, old(pool.failures), pool.failures)
    ensures r.Returned? ==>
      && pool.files.Keys == NamesOf(snapshot)
      && (forall f :: f in snapshot ==> f.name in pool.files && pool.files[f.name] == f.image)
    ensures NoNestedJournals(old(pool.files)) ==>
      && (r.Refused? || r.Threw? ==> KeepsCommitted(pool.files, old(pool.files), pool.undo))
      && (r.RestoreError? ==> CommittedImages(r.original, old(pool.files), pool.undo))
  {
    var failure := ValidatePoolFiles(snapshot, validator);
    if failure.None? {
      failure := FirstNewer(snapshot, validator);
    }
    if failure.Some? {
      return Refused(failure.value);
    }
    var names := RecoveredPoolFiles(pool, openConnections);
    if names.Failed? {
      return Refused(names.error);
    }
    ghost var recovered := pool.files;
    // The caller has stopped every other user of the pool, so every name is this operation's own.
    var turns;
    r, turns := ReplacePoolFiles(pool, names.value, snapshot, Everything(), _ => map[]);
    if r.Returned? {
      assert recovered - Elements(names.value) == map[];
      MineIsAll(pool.files, Overlay(map[], snapshot));
      OverlayHolds(map[], snapshot);
      OverlayOutside(map[], snapshot);
      WholePool(snapshot);
    } else if r.RestoreError? && NoNestedJournals(old(pool.files)) {
      SettledImages(r.original, names.value, recovered, old(pool.files), pool.undo);
    } else if r.Threw? {
      MineIsAll(pool.files, recovered);
    }
  }

  function Everything(): string -> bool {
    _ => true
  }

  lemma MineIsAll(a: map<string, Image>, b: map<string, Image>)
    requires SameMine(a, b, Everything())
    ensures a == b
  {
    forall n ensures SameAt(a, b, n) { assert Everything()(n); }
    SameEverywhere(a, b);
  }

  lemma WholePool(snapshot: seq<PoolFile>)
    requires DistinctNames(snapshot)
    ensures Overlay(map[], snapshot).Keys == NamesOf(snapshot)
  {
    var files := Overlay(map[], snapshot);
    OverlayHolds(map[], snapshot);
    OverlayOutside(map[], snapshot);
    forall n | n in files ensures n in NamesOf(snapshot) {
      assert n in NamesOf(snapshot) || SameAt(files, map[], n);
    }
  }
}
