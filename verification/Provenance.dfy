/** The source identity of `run_provenance.py`: the text the fingerprint is taken over, and the reading of
    git's NUL-separated status. */
module Provenance {
  import opened Wrappers

  const NUL: char := '\0'
  const EOL: char := '\n'

  // -- the fingerprint -------------------------------------------------------------------------------------------

  /** A fingerprinted file: its path and the stamp of its bytes on disk. */
  datatype Stamped = Stamped(path: string, stamp: string)

  function LineOf(f: Stamped): string {
    f.path + [NUL] + f.stamp + [EOL]
  }

  function Encode(fs: seq<Stamped>): string {
    if fs == [] then "" else LineOf(fs[0]) + Encode(fs[1..])
  }

  predicate Encodable(f: Stamped) {
    NUL !in f.path && EOL !in f.stamp
  }

  /** Where `c` first occurs, or the end of the text. */
  function First(text: string, c: char): (i: nat)
    ensures i <= |text|
    ensures i < |text| ==> text[i] == c
    ensures forall j | 0 <= j < i :: text[j] != c
  {
    if text == "" || text[0] == c then 0 else 1 + First(text[1..], c)
  }

  /** The reading of the hashed text: a path up to a NUL, a stamp up to the end of the line, and so on. */
  function Decode(text: string): Option<seq<Stamped>>
    decreases |text|
  {
    if text == "" then Some([])
    else
      var n := First(text, NUL);
      if n == |text| then None
      else
        var rest := text[n + 1..];
        var e := First(rest, EOL);
        if e == |rest| then None
        else
          var tail := Decode(rest[e + 1..]);
          if tail.None? then None else Some([Stamped(text[..n], rest[..e])] + tail.value)
  }

  lemma FirstAfter(before: string, c: char, after: string)
    requires c !in before
    ensures First(before + [c] + after, c) == |before|
  {
    var text := before + [c] + after;
    assert text[|before|] == c;
    assert forall i | 0 <= i < |before| :: text[i] == before[i];
  }

  /** The text decodes to exactly the list it was made from, newlines in paths included. */
  lemma {:induction false} DecodeEncode(fs: seq<Stamped>)
    requires forall f | f in fs :: Encodable(f)
    ensures Decode(Encode(fs)) == Some(fs)
  {
    if fs != [] {
      var f, tail := fs[0], Encode(fs[1..]);
      var text := Encode(fs);
      assert Encodable(f);
      assert text == f.path + [NUL] + (f.stamp + [EOL] + tail);
      FirstAfter(f.path, NUL, f.stamp + [EOL] + tail);
      var rest := text[|f.path| + 1..];
      assert rest == f.stamp + [EOL] + tail && text[..|f.path|] == f.path;
      FirstAfter(f.stamp, EOL, tail);
      assert rest[|f.stamp| + 1..] == tail && rest[..|f.stamp|] == f.stamp;
      DecodeEncode(fs[1..]);
      assert fs == [f] + fs[1..];
    }
  }

  const DELETED := "deleted"

  predicate IsHexDigest(s: string) {
    |s| == 64 && forall i | 0 <= i < |s| :: '0' <= s[i] <= '9' || 'a' <= s[i] <= 'f'
  }

  type Bytes = seq<bv8>

  /** What is on disk at a listed path. A tracked file may have been removed. */
  datatype OnDisk = Readable(bytes: Bytes) | Removed | Unreadable

  type Tree = map<string, OnDisk>

  // -- which files ---------------------------------------------------------------------------------------------

  const EXCLUDED := "backend/app/tests/"

  predicate Relevant(path: string) {
    path != "" && !(EXCLUDED <= path)
  }

  /** The order of Python's `sorted` on text. */
  predicate Before(a: string, b: string) {
    b != "" && (a == "" || a[0] < b[0] || (a[0] == b[0] && Before(a[1..], b[1..])))
  }

  lemma {:induction false} BeforeIsLinear(a: string, b: string)
    ensures a == b || Before(a, b) || Before(b, a)
    ensures !Before(a, a) && !(Before(a, b) && Before(b, a))
  {
    if a != "" {
      BeforeIsLinear(a[1..], if b == "" then a[1..] else b[1..]);
      if b != "" && a[0] == b[0] && a[1..] == b[1..] {
        assert a == [a[0]] + a[1..] && b == [b[0]] + b[1..];
      }
    }
  }

  lemma {:induction false} BeforeIsTransitive(a: string, b: string, c: string)
    requires Before(a, b) && Before(b, c)
    ensures Before(a, c)
  {
    if a != "" && a[0] == b[0] == c[0] {
      BeforeIsTransitive(a[1..], b[1..], c[1..]);
    }
  }

  ghost predicate Ascending(files: seq<string>) {
    forall i, j | 0 <= i < j < |files| :: Before(files[i], files[j])
  }

  function Insert(files: seq<string>, path: string): seq<string> {
    if files == [] then [path]
    else if path == files[0] then files
    else if Before(path, files[0]) then [path] + files
    else [files[0]] + Insert(files[1..], path)
  }

  /** `fingerprinted_files`: the relevant paths of git's list, sorted and each once. */
  function FingerprintedFiles(listed: seq<string>): seq<string> {
    if listed == [] then []
    else
      var later := FingerprintedFiles(listed[1..]);
      if Relevant(listed[0]) then Insert(later, listed[0]) else later
  }

  lemma {:induction false} InsertKeepsAscending(files: seq<string>, path: string)
    requires Ascending(files)
    ensures Ascending(Insert(files, path))
    ensures forall f :: f in Insert(files, path) <==> f in files || f == path
  {
    if files != [] {
      assert files == [files[0]] + files[1..];
      BeforeIsLinear(path, files[0]);
      if Before(path, files[0]) {
        forall j | 0 <= j < |files| ensures Before(path, files[j]) {
          if j > 0 {
            BeforeIsTransitive(path, files[0], files[j]);
          }
        }
      } else if path != files[0] {
        InsertKeepsAscending(files[1..], path);
        var rest := Insert(files[1..], path);
        forall j | 0 <= j < |rest| ensures Before(files[0], rest[j]) {
          assert rest[j] in rest;
        }
      }
    }
  }

  lemma {:induction false} FilesAreTheRelevantOnes(listed: seq<string>)
    ensures Ascending(FingerprintedFiles(listed))
    ensures forall f :: f in FingerprintedFiles(listed) <==> f in listed && Relevant(f)
  {
    if listed != [] {
      FilesAreTheRelevantOnes(listed[1..]);
      assert listed == [listed[0]] + listed[1..];
      if Relevant(listed[0]) {
        InsertKeepsAscending(FingerprintedFiles(listed[1..]), listed[0]);
      }
    }
  }

  lemma FirstIsLeast(a: seq<string>, b: seq<string>)
    requires Ascending(a) && Ascending(b) && a != [] && b != [] && a[0] in b && b[0] in a
    ensures a[0] == b[0]
  {
    BeforeIsLinear(a[0], b[0]);
  }

  lemma {:induction false} AscendingIsUnique(a: seq<string>, b: seq<string>)
    requires Ascending(a) && Ascending(b) && forall f :: f in a <==> f in b
    ensures a == b
  {
    if a != [] || b != [] {
      assert a != [] ==> a[0] in a;
      assert b != [] ==> b[0] in b;
      FirstIsLeast(a, b);
      assert a == [a[0]] + a[1..] && b == [b[0]] + b[1..];
      forall f ensures f in a[1..] <==> f in b[1..] {
        BeforeIsLinear(a[0], a[0]);
        assert f in a <==> f in b;
      }
      AscendingIsUnique(a[1..], b[1..]);
    }
  }

  /** The list does not depend on the order git names the files in, nor on repeats. */
  lemma OrderOfListingDoesNotMatter(listed: seq<string>, listed': seq<string>)
    requires forall f | Relevant(f) :: f in listed <==> f in listed'
    ensures FingerprintedFiles(listed) == FingerprintedFiles(listed')
  {
    FilesAreTheRelevantOnes(listed);
    FilesAreTheRelevantOnes(listed');
    AscendingIsUnique(FingerprintedFiles(listed), FingerprintedFiles(listed'));
  }

  // -- what is hashed --------------------------------------------------------------------------------------------

  function StampOf(content: OnDisk, sha: Bytes -> string): string
    requires !content.Unreadable?
  {
    if content.Removed? then DELETED else sha(content.bytes)
  }

  /** Every file can be read, or is known to be gone. */
  predicate AllReadable(files: seq<string>, tree: Tree) {
    forall f | f in files :: f in tree && !tree[f].Unreadable?
  }

  function StampedFiles(files: seq<string>, tree: Tree, sha: Bytes -> string): (r: seq<Stamped>)
    requires AllReadable(files, tree)
    ensures |r| == |files|
  {
    seq(|files|, i requires 0 <= i < |files| => Stamped(files[i], StampOf(tree[files[i]], sha)))
  }

  datatype Fingerprint = NoSourceFile | CannotRead | DigestOf(text: string)

  lemma {:induction false} EncodeAppend(fs: seq<Stamped>, f: Stamped)
    ensures Encode(fs + [f]) == Encode(fs) + LineOf(f)
  {
    if fs == [] {
      assert Encode([f]) == LineOf(f) + Encode([]);
      assert fs + [f] == [f];
    } else {
      EncodeAppend(fs[1..], f);
      assert (fs + [f])[1..] == fs[1..] + [f];
    }
  }

  /** `source_fingerprint`: one line per file is fed to the hasher, in path order. Without any file, or with
      one that cannot be read, there is no fingerprint. */
  method SourceFingerprint(listed: seq<string>, tree: Tree, sha: Bytes -> string) returns (r: Fingerprint)
    requires forall f | f in listed && Relevant(f) :: f in tree
    ensures r.NoSourceFile? <==> forall f | f in listed :: !Relevant(f)
    ensures r.CannotRead? <==> exists f :: f in listed && Relevant(f) && tree[f].Unreadable?
    ensures r.DigestOf? ==>
              AllReadable(FingerprintedFiles(listed), tree)
              && r.text == Encode(StampedFiles(FingerprintedFiles(listed), tree, sha))
  {
    var files := FingerprintedFiles(listed);
    FilesAreTheRelevantOnes(listed);
    if files == [] {
      return NoSourceFile;
    }
    assert files[0] in files;
    var hashed := "";
    ghost var done: seq<Stamped> := [];
    for i := 0 to |files|
      invariant AllReadable(files[..i], tree) && done == StampedFiles(files[..i], tree, sha)
      invariant hashed == Encode(done)
    {
      assert files[i] in files;
      if tree[files[i]].Unreadable? {
        return CannotRead;
      }
      var stamp := StampOf(tree[files[i]], sha);
      EncodeAppend(done, Stamped(files[i], stamp));
      assert files[..i + 1] == files[..i] + [files[i]];
      hashed := hashed + (files[i] + [NUL] + stamp + [EOL]);
      done := done + [Stamped(files[i], stamp)];
    }
    assert files[..|files|] == files;
    return DigestOf(hashed);
  }

  ghost predicate IsDigest(sha: Bytes -> string) {
    forall b :: IsHexDigest(sha(b))
  }

  /** No two of the contents at hand share a digest. */
  ghost predicate NoCollision(files: seq<string>, t: Tree, u: Tree, sha: Bytes -> string)
    requires forall f | f in files :: f in t && f in u
  {
    forall f | f in files && t[f].Readable? && u[f].Readable? && sha(t[f].bytes) == sha(u[f].bytes) :: t[f] == u[f]
  }

  /** Equal fingerprints mean the same paths, in the same order, with the same contents or deletions. */
  lemma SameFingerprintSameSource(files: seq<string>, t: Tree, files': seq<string>, u: Tree, sha: Bytes -> string)
    requires AllReadable(files, t) && AllReadable(files', u)
    requires (forall f | f in files :: NUL !in f) && (forall f | f in files' :: NUL !in f)
    requires IsDigest(sha)
    requires Encode(StampedFiles(files, t, sha)) == Encode(StampedFiles(files', u, sha))
    ensures files == files'
    ensures NoCollision(files, t, u, sha) ==> forall f | f in files :: t[f] == u[f]
  {
    var a, b := StampedFiles(files, t, sha), StampedFiles(files', u, sha);
    StampsAreEncodable(files, t, sha);
    StampsAreEncodable(files', u, sha);
    DecodeEncode(a);
    DecodeEncode(b);
    assert a == b;
    forall i | 0 <= i < |files| ensures files[i] == files'[i] {
      assert a[i] == b[i];
    }
    forall f | f in files && NoCollision(files, t, u, sha) ensures t[f] == u[f] {
      var i :| 0 <= i < |files| && files[i] == f;
      assert a[i].stamp == b[i].stamp;
      assert |DELETED| != 64;
      assert t[f].Readable? ==> IsHexDigest(sha(t[f].bytes));
      assert u[f].Readable? ==> IsHexDigest(sha(u[f].bytes));
    }
  }

  lemma StampsAreEncodable(files: seq<string>, t: Tree, sha: Bytes -> string)
    requires IsDigest(sha) && AllReadable(files, t) && forall f | f in files :: NUL !in f
    ensures forall x | x in StampedFiles(files, t, sha) :: Encodable(x)
  {
    forall x | x in StampedFiles(files, t, sha) ensures Encodable(x) {
      var i :| 0 <= i < |files| && StampedFiles(files, t, sha)[i] == x;
      var content := t[files[i]];
      assert content.Readable? ==> IsHexDigest(sha(content.bytes));
    }
  }

  // -- git status --porcelain -z ------------------------------------------------------------------------------------

  /** One reported change: its two status columns, its path, and for a rename or copy the original path. */
  datatype Item = Item(x: char, y: char, path: string, original: Option<string>)

  predicate Renames(c: char) {
    c == 'R' || c == 'C'
  }

  /** The documented form: an original path follows exactly the renames and copies, in either column. */
  predicate Reported(i: Item) {
    i.path != "" && (i.original.Some? <==> Renames(i.x) || Renames(i.y))
  }

  function Fields(i: Item): seq<string> {
    [[i.x, i.y, ' '] + i.path] + (if i.original.Some? then [i.original.value] else [])
  }

  /** The output split at its NULs: every item's fields, and the empty text after the last NUL. */
  function Output(items: seq<Item>): seq<string> {
    if items == [] then [""] else Fields(items[0]) + Output(items[1..])
  }

  datatype Changes = Changes(modified: seq<string>, untracked: seq<string>)

  function With(path: string, isUntracked: bool, later: Changes): Changes {
    if isUntracked then later.(untracked := [path] + later.untracked)
    else later.(modified := [path] + later.modified)
  }

  /** What the index-driven loop reads from a list of fields. */
  function Classify(entries: seq<string>): Changes
    decreases |entries|
  {
    if entries == [] then Changes([], [])
    else if |entries[0]| < 4 then Classify(entries[1..])
    else
      var path := entries[0][3..];
      var rest := if Renames(entries[0][0]) && |entries| > 1 then entries[2..] else entries[1..];
      With(path, entries[0][..2] == "??", Classify(rest))
  }

  /** The loop of `capture_source`. */
  method ReadStatus(entries: seq<string>) returns (modified: seq<string>, untracked: seq<string>)
    ensures modified == Classify(entries).modified && untracked == Classify(entries).untracked
  {
    modified, untracked := [], [];
    var index := 0;
    ghost var left := entries;
    assert entries[0..] == entries;
    while index < |entries|
      invariant 0 <= index && left == if index <= |entries| then entries[index..] else []
      invariant Classify(entries).modified == modified + Classify(left).modified
      invariant Classify(entries).untracked == untracked + Classify(left).untracked
      decreases |entries| + 1 - index
    {
      var entry := entries[index];
      ghost var was, m, u := left, modified, untracked;
      assert was[0] == entry && was[1..] == entries[index + 1..];
      assert |was| > 1 ==> was[2..] == entries[index + 2..];
      index := index + 1;
      if |entry| >= 4 {
        var code, path := entry[..2], entry[3..];
        if Renames(code[0]) {
          index := index + 1;
        }
        if code == "??" {
          untracked := untracked + [path];
        } else {
          modified := modified + [path];
        }
      }
      left := if index <= |entries| then entries[index..] else [];
      Associates(m, Classify(was).modified, modified, Classify(left).modified);
      Associates(u, Classify(was).untracked, untracked, Classify(left).untracked);
    }
  }

  /** Moving the first element of what is left to the end of what is done changes nothing. */
  lemma Associates(done: seq<string>, left: seq<string>, done': seq<string>, left': seq<string>)
    requires (done' == done && left == left') || (left != [] && done' == done + [left[0]] && left' == left[1..])
    ensures done + left == done' + left'
  {
    if left != left' {
      assert left == [left[0]] + left[1..];
    }
  }

  predicate IsUntracked(i: Item) {
    i.x == '?' && i.y == '?'
  }

  function Paths(items: seq<Item>, untracked: bool): seq<string> {
    if items == [] then []
    else (if IsUntracked(items[0]) == untracked then [items[0].path] else []) + Paths(items[1..], untracked)
  }

  /** A rename or copy shown only in the second column, whose original path is long enough to be read as
      an entry of its own. */
  predicate Misread(i: Item) {
    !Renames(i.x) && i.original.Some? && |i.original.value| >= 4
  }

  lemma OneItem(i: Item, rest: seq<string>)
    requires Reported(i) && rest != []
    ensures var next := if Renames(i.x) then rest else (if i.original.Some? then [i.original.value] else []) + rest;
            Classify(Fields(i) + rest) == With(i.path, IsUntracked(i), Classify(next))
  {
    var entries := Fields(i) + rest;
    var original := if i.original.Some? then [i.original.value] else [];
    assert entries == [[i.x, i.y, ' '] + i.path] + (original + rest);
    assert entries[0] == [i.x, i.y, ' '] + i.path;
    assert entries[0][3..] == i.path && entries[0][..2] == [i.x, i.y];
    assert [i.x, i.y] == "??" <==> i.x == '?' && i.y == '?';
    assert entries[1..] == original + rest;
    if i.original.Some? {
      assert entries[2..] == rest;
    } else {
      assert original + rest == rest;
    }
  }

  lemma OutputIsNotEmpty(items: seq<Item>)
    ensures Output(items) != []
  {}

  /** Every reported path lands in exactly its own list, in order, and no original path lands in any,
      as long as no second-column rename has an original path of four characters or more. */
  lemma {:induction false} StatusIsReadRight(items: seq<Item>)
    requires forall i | i in items :: Reported(i) && !Misread(i)
    ensures Classify(Output(items)) == Changes(Paths(items, false), Paths(items, true))
  {
    if items != [] {
      var rest := Output(items[1..]);
      OutputIsNotEmpty(items[1..]);
      StatusIsReadRight(items[1..]);
      assert Reported(items[0]) && !Misread(items[0]);
      OneItem(items[0], rest);
      if items[0].original.Some? {
        assert ([items[0].original.value] + rest)[1..] == rest;
      } else {
        assert [] + rest == rest;
      }
    }
  }

  // -- where the entries are read --------------------------------------------------------------------------------

  /** The places at which the loop reads an entry, `at` being the place of the first field. */
  function Reads(entries: seq<string>, at: nat): seq<nat>
    decreases |entries|
  {
    if entries == [] then []
    else if |entries[0]| < 4 then Reads(entries[1..], at + 1)
    else if Renames(entries[0][0]) && |entries| > 1 then [at] + Reads(entries[2..], at + 2)
    else [at] + Reads(entries[1..], at + 1)
  }

  /** The places where the items begin. */
  function Places(items: seq<Item>, at: nat): seq<nat> {
    if items == [] then [] else [at] + Places(items[1..], at + |Fields(items[0])|)
  }

  predicate Legible(entries: seq<string>, places: seq<nat>) {
    forall i | 0 <= i < |places| :: places[i] < |entries| && |entries[places[i]]| >= 4
  }

  /** What the fields at some places say. */
  function Gather(entries: seq<string>, places: seq<nat>): Changes
    requires Legible(entries, places)
  {
    if places == [] then Changes([], [])
    else
      var entry := entries[places[0]];
      assert Legible(entries, places[1..]) by {
        assert forall i | 0 <= i < |places[1..]| :: places[1..][i] == places[i + 1];
      }
      With(entry[3..], entry[..2] == "??", Gather(entries, places[1..]))
  }

  lemma GatherFirst(entries: seq<string>, at: nat, later: seq<nat>)
    requires at < |entries| && |entries[at]| >= 4 && Legible(entries, later)
    ensures Legible(entries, [at] + later)
    ensures Gather(entries, [at] + later) == With(entries[at][3..], entries[at][..2] == "??", Gather(entries, later))
  {
    assert ([at] + later)[1..] == later;
  }

  /** The lists are what stands at the places read, in order, and nothing else. */
  lemma {:induction false} ListsComeFromThePlaces(entries: seq<string>, at: nat)
    requires at <= |entries|
    ensures Legible(entries, Reads(entries[at..], at))
    ensures Classify(entries[at..]) == Gather(entries, Reads(entries[at..], at))
    decreases |entries| - at
  {
    var left := entries[at..];
    if left != [] {
      assert left[0] == entries[at] && left[1..] == entries[at + 1..];
      if |left[0]| < 4 {
        ListsComeFromThePlaces(entries, at + 1);
      } else if Renames(left[0][0]) && |left| > 1 {
        assert left[2..] == entries[at + 2..];
        ListsComeFromThePlaces(entries, at + 2);
        GatherFirst(entries, at, Reads(entries[at + 2..], at + 2));
      } else {
        ListsComeFromThePlaces(entries, at + 1);
        GatherFirst(entries, at, Reads(entries[at + 1..], at + 1));
      }
    }
  }

  lemma OneItemRead(i: Item, rest: seq<string>, at: nat)
    requires Reported(i) && rest != []
    ensures var original := if i.original.Some? then [i.original.value] else [];
            Reads(Fields(i) + rest, at) ==
              [at] + (if Renames(i.x) then Reads(rest, at + 2) else Reads(original + rest, at + 1))
  {
    var entries := Fields(i) + rest;
    var original := if i.original.Some? then [i.original.value] else [];
    assert entries == [[i.x, i.y, ' '] + i.path] + (original + rest);
    assert entries[1..] == original + rest;
    if i.original.Some? {
      assert entries[2..] == rest;
    }
  }

  lemma PlacesAreLater(items: seq<Item>, at: nat)
    ensures items != [] ==> Places(items, at) != [] && Places(items, at)[0] == at
    ensures items == [] ==> Places(items, at) == []
  {}

  lemma MisreadShifts(items: seq<Item>, at: nat)
    requires items != [] && Reported(items[0]) && Misread(items[0])
    ensures Reads(Output(items), at) != Places(items, at)
  {
    var next := at + |Fields(items[0])|;
    OutputIsNotEmpty(items[1..]);
    MisreadIsReadTwice(items[0], Output(items[1..]), at);
    PlacesAreLater(items[1..], next);
    assert Places(items, at) == [at] + Places(items[1..], next);
  }

  lemma RightSoFar(items: seq<Item>, at: nat)
    requires items != [] && Reported(items[0]) && !Misread(items[0])
    ensures var next := at + |Fields(items[0])|;
            Reads(Output(items), at) == Places(items, at) <==>
              Reads(Output(items[1..]), next) == Places(items[1..], next)
  {
    var next := at + |Fields(items[0])|;
    OutputIsNotEmpty(items[1..]);
    RightAfterTheItem(items[0], Output(items[1..]), at);
    SameTails(at, Reads(Output(items[1..]), next), Places(items[1..], next));
  }

  lemma SameTails(at: nat, a: seq<nat>, b: seq<nat>)
    ensures [at] + a == [at] + b <==> a == b
  {
    assert ([at] + a)[1..] == a && ([at] + b)[1..] == b;
  }

  /** Every entry is read where an item begins, and every item is read, exactly when no item is misread:
      whatever the paths are. */
  lemma {:induction false} StatusIsReadRightExactly(items: seq<Item>, at: nat)
    requires forall i | i in items :: Reported(i)
    ensures Reads(Output(items), at) == Places(items, at) <==> forall i | i in items :: !Misread(i)
  {
    if items == [] {
      assert Reads([""], at) == Reads([""][1..], at + 1);
    } else {
      assert items[0] in items && forall j :: j in items <==> j == items[0] || j in items[1..];
      if Misread(items[0]) {
        MisreadShifts(items, at);
      } else {
        RightSoFar(items, at);
        StatusIsReadRightExactly(items[1..], at + |Fields(items[0])|);
      }
    }
  }

  /** The original path of a misread item is read as an entry of its own. */
  lemma MisreadIsReadTwice(i: Item, rest: seq<string>, at: nat)
    requires Reported(i) && Misread(i) && rest != []
    ensures |Reads(Fields(i) + rest, at)| >= 2 && Reads(Fields(i) + rest, at)[1] == at + 1
  {
    OneItemRead(i, rest, at);
    var left := [i.original.value] + rest;
    assert left[0] == i.original.value;
  }

  lemma RightAfterTheItem(i: Item, rest: seq<string>, at: nat)
    requires Reported(i) && !Misread(i) && rest != []
    ensures Reads(Fields(i) + rest, at) == [at] + Reads(rest, at + |Fields(i)|)
  {
    OneItemRead(i, rest, at);
    if i.original.Some? && !Renames(i.x) {
      var left := [i.original.value] + rest;
      assert left[0] == i.original.value && left[1..] == rest;
    } else {
      assert [] + rest == rest;
    }
  }

  // -- what the lists show of it -----------------------------------------------------------------------------------

  /** An original path that itself begins like the entry of a rename: README.md, CHANGELOG.md. */
  predicate OriginalLooksRenamed(i: Item) {
    i.original.Some? && i.original.value != "" && Renames(i.original.value[0])
  }

  function Count(items: seq<Item>): nat {
    if items == [] then 0 else (if Misread(items[0]) then 1 else 0) + Count(items[1..])
  }

  lemma {:induction false} EachMisreadAddsAPath(items: seq<Item>)
    requires forall i | i in items :: Reported(i) && !OriginalLooksRenamed(i)
    ensures |Classify(Output(items)).modified| + |Classify(Output(items)).untracked| == |items| + Count(items)
  {
    if items != [] {
      var i, rest := items[0], Output(items[1..]);
      OutputIsNotEmpty(items[1..]);
      EachMisreadAddsAPath(items[1..]);
      assert i in items;
      OneItem(i, rest);
      if i.original.Some? {
        assert ([i.original.value] + rest)[1..] == rest;
      }
    }
  }

  lemma {:induction false} PathsAreAll(items: seq<Item>)
    ensures |Paths(items, false)| + |Paths(items, true)| == |items|
  {
    if items != [] {
      PathsAreAll(items[1..]);
    }
  }

  lemma {:induction false} NoneCounted(items: seq<Item>)
    ensures Count(items) == 0 <==> forall i | i in items :: !Misread(i)
  {
    if items != [] {
      NoneCounted(items[1..]);
      assert items == [items[0]] + items[1..];
    }
  }

  /** What is listed shows a misreading too, where no original path itself begins like a rename. (Where one
      does, the entry after it is swallowed, which can lose a change, `MisreadLosesAChange`, and can even hide
      the misreading, `MisreadByLuckRight`.) */
  lemma ListsAreRightExactly(items: seq<Item>)
    requires forall i | i in items :: Reported(i) && !OriginalLooksRenamed(i)
    ensures Classify(Output(items)) == Changes(Paths(items, false), Paths(items, true)) <==>
            forall i | i in items :: !Misread(i)
  {
    EachMisreadAddsAPath(items);
    PathsAreAll(items);
    NoneCounted(items);
    if forall i | i in items :: !Misread(i) {
      StatusIsReadRight(items);
    }
  }

  /** The concrete case: `git add -N b.py` after `mv a.py b.py`. */
  lemma SecondColumnRenameIsMisread()
    ensures Classify(Output([Item(' ', 'R', "b.py", Some("a.py"))])) == Changes(["b.py", "y"], [])
  {
    var i := Item(' ', 'R', "b.py", Some("a.py"));
    assert Output([i]) == Fields(i) + [""];
    OneItem(i, [""]);
    var entries := ["a.py", ""];
    assert ["a.py"] + [""] == entries && entries[0][3..] == "y" && entries[1..] == [""];
    assert Classify([""]) == Changes([], []);
    assert entries[0][..2] == "a.";
  }

  /** A rename of README.md in the second column swallows the change after it: x.py is in neither list. */
  lemma MisreadLosesAChange()
    ensures Classify(Output([Item(' ', 'R', "b.md", Some("README.md")), Item(' ', 'M', "x.py", None)]))
            == Changes(["b.md", "DME.md"], [])
  {
    var i, j := Item(' ', 'R', "b.md", Some("README.md")), Item(' ', 'M', "x.py", None);
    var items := [i, j];
    assert items[1..] == [j] && Output([j]) == Fields(j) + [""];
    assert Fields(j) == [[' ', 'M', ' '] + "x.py"] && [' ', 'M', ' '] + "x.py" == " M x.py";
    assert Fields(j) + [""] == [" M x.py", ""];
    OneItem(i, [" M x.py", ""]);
    var entries := ["README.md"] + [" M x.py", ""];
    assert entries[0] == "README.md" && entries[0][3..] == "DME.md" && entries[0][..2] == "RE";
    assert entries[2..] == [""] && Classify([""]) == Changes([], []);
  }

  lemma MisreadByLuckRight()
    ensures var items := [Item(' ', 'R', "b.py", Some("R  a.py")), Item(' ', 'M', "a.py", None)];
            Misread(items[0]) && Classify(Output(items)) == Changes(Paths(items, false), Paths(items, true))
  {
    var i, j := Item(' ', 'R', "b.py", Some("R  a.py")), Item(' ', 'M', "a.py", None);
    var items := [i, j];
    assert items[1..] == [j] && Output([j]) == Fields(j) + [""];
    assert Fields(j) == [[' ', 'M', ' '] + "a.py"] && [' ', 'M', ' '] + "a.py" == " M a.py";
    assert Fields(j) + [""] == [" M a.py", ""];
    var rest := [" M a.py", ""];
    OneItem(i, rest);
    var entries := ["R  a.py"] + rest;
    assert entries[0] == "R  a.py" && entries[0][3..] == "a.py" && entries[0][..2] == "R ";
    assert entries[2..] == [""] && Classify([""]) == Changes([], []);
    assert Paths(items, false) == ["b.py"] + Paths([j], false);
    assert Paths([j], false) == ["a.py"] + Paths([], false);
    assert Paths([j], true) == [] + Paths([], true);
  }

  /** Whatever is misread, a tree is reported dirty exactly when git reports anything. */
  lemma DirtyExactly(items: seq<Item>)
    requires forall i | i in items :: Reported(i)
    ensures Classify(Output(items)) != Changes([], []) <==> items != []
  {
    if items != [] {
      OutputIsNotEmpty(items[1..]);
      assert items[0] in items;
      OneItem(items[0], Output(items[1..]));
    }
  }

  // -- the flag for the fingerprinted paths ------------------------------------------------------------------------

  predicate Within(path: string, base: string) {
    path == base || base + "/" <= path
  }

  /** `_in_scope`. */
  predicate InScope(path: string) {
    && Relevant(path)
    && (Within(path, "backend/app") || Within(path, "backend/scripts") || Within(path, "backend/requirements.txt"))
  }

  predicate Lists(c: Changes, path: string) {
    path in c.modified || path in c.untracked
  }

  /** `fingerprinted_paths_dirty`: a listed path is in scope. */
  ghost predicate ScopeDirty(c: Changes) {
    exists path :: Lists(c, path) && InScope(path)
  }

  /** The original path of an item is read as an entry of its own: it is long enough, and neither a rename in the
      first column nor the item's own path, read before it, has it skipped. */
  predicate Bare(i: Item, swallowed: bool) {
    i.original.Some? && |i.original.value| >= 4 && (swallowed || !Renames(i.x))
  }

  /** Item `k` is skipped as if it were an original path: the original before it was read as the entry of a rename. */
  predicate SwallowedAt(items: seq<Item>, k: nat)
    requires k <= |items|
  {
    k > 0 && Swallows(items[k - 1], SwallowedAt(items, k - 1))
  }

  predicate Swallows(i: Item, swallowed: bool) {
    Bare(i, swallowed) && Renames(i.original.value[0])
  }

  predicate BareAt(items: seq<Item>, k: nat)
    requires k < |items|
  {
    Bare(items[k], SwallowedAt(items, k))
  }

  /** What the two lists show of item `k`. */
  predicate Shows(items: seq<Item>, k: nat, path: string)
    requires k < |items|
  {
    || (!SwallowedAt(items, k) && path == items[k].path)
    || (BareAt(items, k) && path == items[k].original.value[3..])
  }

  function Original(i: Item): seq<string> {
    if i.original.Some? then [i.original.value] else []
  }

  /** The fields the loop has still to read when it comes to item `k`. */
  function From(items: seq<Item>, k: nat): seq<string>
    requires k <= |items|
  {
    OutputIsNotEmpty(items[k..]);
    if SwallowedAt(items, k) then Output(items[k..])[1..] else Output(items[k..])
  }

  lemma OriginalIsRead(original: string, rest: seq<string>, path: string)
    requires rest != []
    ensures var swallows := |original| >= 4 && Renames(original[0]);
            Lists(Classify([original] + rest), path) <==>
              || (|original| >= 4 && path == original[3..])
              || Lists(Classify(if swallows then rest[1..] else rest), path)
  {
    var entries := [original] + rest;
    assert entries[0] == original && entries[1..] == rest && entries[2..] == rest[1..];
  }

  lemma OriginalStep(i: Item, rest: seq<string>, swallowed: bool, path: string)
    requires rest != [] && (i.original.Some? ==> swallowed || !Renames(i.x))
    ensures Lists(Classify(Original(i) + rest), path) <==>
              || Lists(Classify(if Swallows(i, swallowed) then rest[1..] else rest), path)
              || (Bare(i, swallowed) && path == i.original.value[3..])
  {
    if i.original.Some? {
      OriginalIsRead(i.original.value, rest, path);
    } else {
      assert [] + rest == rest;
    }
  }

  lemma ItemStep(i: Item, rest: seq<string>, swallowed: bool, path: string)
    requires rest != [] && Reported(i)
    ensures Lists(Classify(if swallowed then (Fields(i) + rest)[1..] else Fields(i) + rest), path) <==>
              || Lists(Classify(if Swallows(i, swallowed) then rest[1..] else rest), path)
              || (!swallowed && path == i.path)
              || (Bare(i, swallowed) && path == i.original.value[3..])
  {
    if swallowed {
      assert (Fields(i) + rest)[1..] == Original(i) + rest;
      OriginalStep(i, rest, swallowed, path);
    } else {
      OneItem(i, rest);
      if !Renames(i.x) {
        OriginalStep(i, rest, swallowed, path);
      }
    }
  }

  lemma FromItem(items: seq<Item>, k: nat, path: string)
    requires k < |items| && Reported(items[k])
    ensures Lists(Classify(From(items, k)), path) <==>
              Lists(Classify(From(items, k + 1)), path) || Shows(items, k, path)
  {
    var i, rest := items[k], Output(items[k + 1..]);
    OutputIsNotEmpty(items[k + 1..]);
    assert items[k..][0] == i && items[k..][1..] == items[k + 1..];
    assert Output(items[k..]) == Fields(i) + rest;
    ItemStep(i, rest, SwallowedAt(items, k), path);
  }

  /** For every output git documents, the lists are exactly what they show of each item. */
  lemma {:induction false} ListsShow(items: seq<Item>, k: nat, path: string)
    requires k <= |items| && forall i | i in items :: Reported(i)
    ensures Lists(Classify(From(items, k)), path) <==> exists j | k <= j < |items| :: Shows(items, j, path)
    decreases |items| - k
  {
    if k == |items| {
      assert items[k..] == [] && Output(items[k..]) == [""];
      assert [""][1..] == [] && Classify([""]) == Classify([]);
    } else {
      assert items[k] in items;
      FromItem(items, k, path);
      ListsShow(items, k + 1, path);
      assert (exists j | k <= j < |items| :: Shows(items, j, path)) <==>
          Shows(items, k, path) || exists j | k + 1 <= j < |items| :: Shows(items, j, path);
    }
  }

  /** Item `k` puts no path in scope into the lists: if its own is in scope the item is swallowed, and if its original
      is read as an entry, what is read of it is not in scope. */
  predicate PassesUnseen(items: seq<Item>, k: nat)
    requires k < |items|
  {
    && (InScope(items[k].path) ==> SwallowedAt(items, k))
    && (BareAt(items, k) ==> !InScope(items[k].original.value[3..]))
  }

  lemma SeenIsDirty(items: seq<Item>, k: nat)
    requires (forall i | i in items :: Reported(i)) && k < |items| && !PassesUnseen(items, k)
    ensures ScopeDirty(Classify(From(items, 0)))
  {
    var path := if InScope(items[k].path) && !SwallowedAt(items, k) then items[k].path
                else items[k].original.value[3..];
    assert Shows(items, k, path);
    ListsShow(items, 0, path);
  }

  lemma DirtyIsSeen(items: seq<Item>) returns (k: nat)
    requires (forall i | i in items :: Reported(i)) && ScopeDirty(Classify(From(items, 0)))
    ensures k < |items| && !PassesUnseen(items, k)
  {
    var path :| Lists(Classify(From(items, 0)), path) && InScope(path);
    ListsShow(items, 0, path);
    k :| k < |items| && Shows(items, k, path);
  }

  /** For every output git documents, no fingerprinted path is flagged exactly when every item passes unseen. */
  lemma ScopeIsCleanExactly(items: seq<Item>)
    requires forall i | i in items :: Reported(i)
    ensures !ScopeDirty(Classify(Output(items))) <==> forall k | 0 <= k < |items| :: PassesUnseen(items, k)
  {
    assert items[0..] == items && From(items, 0) == Output(items);
    if ScopeDirty(Classify(Output(items))) {
      var k := DirtyIsSeen(items);
      assert !PassesUnseen(items, k);
    } else {
      forall k | 0 <= k < |items| ensures PassesUnseen(items, k) {
        if !PassesUnseen(items, k) {
          SeenIsDirty(items, k);
        }
      }
    }
  }

  /** Where no original path begins with R or C a change in scope is always flagged. */
  lemma NoChangeIsMissed(items: seq<Item>)
    requires forall i | i in items :: Reported(i) && !OriginalLooksRenamed(i)
    ensures (exists i :: i in items && InScope(i.path)) ==> ScopeDirty(Classify(Output(items)))
  {
    ScopeIsCleanExactly(items);
    if i :| i in items && InScope(i.path) {
      var k :| 0 <= k < |items| && items[k] == i;
      assert !SwallowedAt(items, k) by {
        assert k > 0 ==> items[k - 1] in items;
      }
      assert !PassesUnseen(items, k);
    }
  }

  /** A rename of README.md in the second column hides the change after it, though that is of the application. */
  lemma ScopeIsMissed()
    ensures var items := [Item(' ', 'R', "b.md", Some("README.md")), Item(' ', 'M', "backend/app/main.py", None)];
            InScope(items[1].path) && !ScopeDirty(Classify(Output(items)))
  {
    var items := [Item(' ', 'R', "b.md", Some("README.md")), Item(' ', 'M', "backend/app/main.py", None)];
    var path := items[1].path;
    assert "backend/app" + "/" == path[..12] && path[..17] == "backend/app/main." && EXCLUDED[12] == 't';
    assert items[0].original.value[3..] == "DME.md";
    assert !InScope("b.md") && !InScope("DME.md") by {
      assert |"backend/app/"| > 6 && |"backend/scripts/"| > 6 && |"backend/requirements.txt/"| > 6;
    }
    assert BareAt(items, 0) && SwallowedAt(items, 1);
    assert PassesUnseen(items, 0) && PassesUnseen(items, 1);
    ScopeIsCleanExactly(items);
  }
}
