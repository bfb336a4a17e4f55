/** The strict reader of the compiler's version 2 output manifests. */
module OutputManifest {
  import opened Wrappers
  import opened Paths
  import opened Encodings

  const HEADER := "genes-output-manifest-v2"
  const OWNER_PREFIX := "owner-base64:"

  // ---- Locations ------------------------------------------------------------------------------

  // An absolute path is the sequence of its segments.
  type Location = seq<string>

  // path.resolve: empty and "." segments vanish, ".." drops the last one.
  function Resolve(base: Location, segments: seq<string>): Location
    decreases |segments|
  {
    if segments == [] then base
    else
      var s := segments[0];
      Resolve(
        if s == "" || s == "." then base
        else if s != ".." then base + [s]
        else if base == [] then [] else base[..|base| - 1],
        segments[1..])
  }

  function CommonPrefix(p: Location, c: Location): (n: nat)
    ensures n <= |p| && n <= |c| && p[..n] == c[..n]
    ensures n < |p| && n < |c| ==> p[n] != c[n]
    decreases |p|
  {
    if p != [] && c != [] && p[0] == c[0] then
      var n := CommonPrefix(p[1..], c[1..]);
      assert p[..n + 1] == [p[0]] + p[1..][..n] && c[..n + 1] == [c[0]] + c[1..][..n];
      n + 1
    else 0
  }

  function Ups(n: nat): (r: seq<string>)
    ensures |r| == n && forall i :: 0 <= i < n ==> r[i] == ".."
  {
    if n == 0 then [] else [".."] + Ups(n - 1)
  }

  // path.relative.
  function Relative(parent: Location, candidate: Location): seq<string> {
    var n := CommonPrefix(parent, candidate);
    Ups(|parent| - n) + candidate[n..]
  }

  predicate IsPathWithin(parent: Location, candidate: Location) {
    var relative := Relative(parent, candidate);
    relative == [] || relative[0] != ".."
  }

  lemma WithinIffPrefix(parent: Location, candidate: Location)
    requires ".." !in candidate
    ensures IsPathWithin(parent, candidate) <==> parent <= candidate
  {
    var n := CommonPrefix(parent, candidate);
    if n == |parent| {
      assert parent[..n] == parent;
      if candidate[n..] != [] { assert candidate[n..][0] == candidate[n]; }
    } else {
      assert Relative(parent, candidate)[0] == "..";
      assert parent <= candidate ==> n == |candidate|;
    }
  }

  lemma {:induction false} ResolvePlain(base: Location, segments: seq<string>)
    requires forall s :: s in segments ==> s != "" && s != "." && s != ".."
    ensures Resolve(base, segments) == base + segments
    decreases |segments|
  {
    if segments != [] {
      assert segments[0] in segments && forall s :: s in segments[1..] ==> s in segments;
      ResolvePlain(base + [segments[0]], segments[1..]);
      assert base + [segments[0]] + segments[1..] == base + segments;
    } else {
      assert base + segments == base;
    }
  }

  // A portable path always resolves strictly inside the root, so the containment test never fails.
  lemma PortableResolvesInside(root: Location, file: string)
    requires PortableText(file) && ".." !in root
    ensures var place := Resolve(root, Split(file, '/'));
            && place == root + Split(file, '/') && root < place && IsPathWithin(root, place)
  {
    ResolvePlain(root, Split(file, '/'));
    WithinIffPrefix(root, root + Split(file, '/'));
  }

  // ---- Text -----------------------------------------------------------------------------------

  function StripCr(line: string): string {
    if line != "" && line[|line| - 1] == '\r' then line[..|line| - 1] else line
  }

  function StripAll(lines: seq<string>): seq<string> {
    if lines == [] then [] else [StripCr(lines[0])] + StripAll(lines[1..])
  }

  function Lines(text: string): seq<string> { StripAll(Split(text, '\n')) }

  // The path lines: everything after the owner, without one final empty line.
  function Entries(text: string): seq<string> {
    var lines := Lines(text);
    if |lines| <= 2 then []
    else if lines[|lines| - 1] == "" then lines[2..|lines| - 1] else lines[2..]
  }

  function Owner(lenient: Leniency, text: string): Option<string> {
    var lines := Lines(text);
    if |lines| < 2 || !StartsWith(lines[1], OWNER_PREFIX) then None
    else DecodeOwner(lenient, lines[1][|OWNER_PREFIX|..])
  }

  datatype DirectoryFile = DirectoryFile(name: string, text: string)

  predicate IsManifest(f: DirectoryFile) {
    && StartsWith(f.name, ".genes-output-") && EndsWith(f.name, ".manifest")
    && Lines(f.text) != [] && Lines(f.text)[0] == HEADER
  }

  // ---- What is accepted -------------------------------------------------------------------------

  predicate IsTypeModule(file: string) { EndsWith(file, ".ts") || EndsWith(file, ".tsx") }

  function TypeModules(files: seq<string>): seq<string> {
    if files == [] then []
    else (if IsTypeModule(files[0]) then [files[0]] else []) + TypeModules(files[1..])
  }

  ghost predicate Ascending(files: seq<string>) {
    forall i, j :: 0 <= i < j < |files| ==> Less(files[i], files[j])
  }

  predicate FileOk(root: Location, present: set<Location>, file: string) {
    PortableText(file) && (IsTypeModule(file) ==> root + Split(file, '/') in present)
  }

  ghost predicate LowerDistinct(lower: string -> string, files: seq<string>) {
    forall i, j :: 0 <= i < j < |files| ==> lower(files[i]) != lower(files[j])
  }

  ghost predicate EntriesOk(root: Location, lower: string -> string, present: set<Location>, files: seq<string>) {
    && (forall i :: 0 <= i < |files| ==> FileOk(root, present, files[i]))
    && Ascending(files) && LowerDistinct(lower, files)
  }

  ghost predicate OwnersReadable(lenient: Leniency, dir: seq<DirectoryFile>) {
    forall i :: 0 <= i < |dir| && IsManifest(dir[i]) ==> Owner(lenient, dir[i].text).Some?
  }

  predicate OwnedBy(lenient: Leniency, identity: string, f: DirectoryFile) {
    IsManifest(f) && Owner(lenient, f.text) == Some(identity)
  }

  // Exactly one manifest names the identity, every manifest has a readable owner, and its entries are valid.
  ghost predicate Accepts(root: Location, identity: string, lower: string -> string, lenient: Leniency,
                          present: set<Location>, dir: seq<DirectoryFile>, i: nat) {
    && i < |dir| && OwnersReadable(lenient, dir)
    && (forall j :: 0 <= j < |dir| ==> (OwnedBy(lenient, identity, dir[j]) <==> j == i))
    && EntriesOk(root, lower, present, Entries(dir[i].text))
  }

  // ---- The reader -------------------------------------------------------------------------------

  // Whether one more line keeps the entries valid, given the previous line and the keys seen so far.
  predicate Extends(root: Location, lower: string -> string, present: set<Location>,
                    previous: Option<string>, keys: set<string>, file: string) {
    && FileOk(root, present, file)
    && (previous.Some? ==> Less(previous.value, file))
    && lower(file) !in keys
  }

  ghost predicate Seen(lower: string -> string, files: seq<string>, previous: Option<string>, keys: set<string>) {
    && previous == (if files == [] then None else Some(files[|files| - 1]))
    && (forall key :: key in keys <==> exists i :: 0 <= i < |files| && lower(files[i]) == key)
  }

  lemma AscendingSnoc(files: seq<string>, file: string)
    requires Ascending(files)
    ensures Ascending(files + [file]) <==> (files != [] ==> Less(files[|files| - 1], file))
  {
    var all, n := files + [file], |files|;
    if files != [] {
      assert all[n - 1] == files[n - 1] && all[n] == file;
      if Less(files[n - 1], file) {
        forall i | 0 <= i < n ensures Less(files[i], file) {
          if i < n - 1 { LessTransitive(files[i], files[n - 1], file); }
        }
      }
    }
  }

  lemma LowerSnoc(lower: string -> string, files: seq<string>, file: string, previous: Option<string>, keys: set<string>)
    requires LowerDistinct(lower, files) && Seen(lower, files, previous, keys)
    ensures LowerDistinct(lower, files + [file]) <==> lower(file) !in keys
  {
    var all, n := files + [file], |files|;
    assert all[n] == file;
    if LowerDistinct(lower, all) {
      forall i | 0 <= i < n ensures lower(files[i]) != lower(file) { assert all[i] == files[i]; }
    }
    forall i | 0 <= i < n ensures lower(files[i]) in keys {}
  }

  lemma EntriesSnoc(root: Location, lower: string -> string, present: set<Location>,
                    files: seq<string>, file: string, previous: Option<string>, keys: set<string>)
    requires EntriesOk(root, lower, present, files) && Seen(lower, files, previous, keys)
    ensures EntriesOk(root, lower, present, files + [file]) <==> Extends(root, lower, present, previous, keys, file)
  {
    AscendingSnoc(files, file);
    LowerSnoc(lower, files, file, previous, keys);
    var all := files + [file];
    assert all[|files|] == file && forall i :: 0 <= i < |files| ==> all[i] == files[i];
  }

  lemma SeenSnoc(lower: string -> string, files: seq<string>, file: string, previous: Option<string>, keys: set<string>)
    requires Seen(lower, files, previous, keys)
    ensures Seen(lower, files + [file], Some(file), keys + {lower(file)})
  {
    var all := files + [file];
    assert all[|files|] == file;
    forall key | key in keys ensures exists i :: 0 <= i < |all| && lower(all[i]) == key {
      var i :| 0 <= i < |files| && lower(files[i]) == key;
      assert all[i] == files[i];
    }
  }

  lemma EntriesPrefix(root: Location, lower: string -> string, present: set<Location>, files: seq<string>, k: nat)
    requires k <= |files| && EntriesOk(root, lower, present, files)
    ensures EntriesOk(root, lower, present, files[..k])
  {
  }

  // The reader's state before line k.
  ghost predicate Reading(root: Location, lower: string -> string, present: set<Location>, files: seq<string>, k: nat,
                          previous: Option<string>, keys: set<string>, found: seq<string>)
    requires k <= |files|
  {
    && EntriesOk(root, lower, present, files[..k]) && Seen(lower, files[..k], previous, keys)
    && found + TypeModules(files[k..]) == TypeModules(files)
  }

  lemma Regroup(a: seq<string>, b: seq<string>, c: seq<string>)
    ensures a + (b + c) == a + b + c
  {
  }

  lemma TypeModulesCons(file: string, rest: seq<string>)
    ensures TypeModules([file] + rest) == if IsTypeModule(file) then [file] + TypeModules(rest) else TypeModules(rest)
  {
    assert ([file] + rest)[0] == file && ([file] + rest)[1..] == rest;
  }

  lemma TypeModulesOn(files: seq<string>, k: nat, found: seq<string>)
    requires k < |files| && found + TypeModules(files[k..]) == TypeModules(files)
    ensures (if IsTypeModule(files[k]) then found + [files[k]] else found) + TypeModules(files[k + 1..]) == TypeModules(files)
  {
    FromHere(files, k);
    TypeModulesMove(files[k], files[k + 1..], found);
  }

  lemma FromHere(files: seq<string>, k: nat)
    requires k < |files|
    ensures files[k..] == [files[k]] + files[k + 1..]
  {
  }

  lemma TypeModulesMove(file: string, rest: seq<string>, found: seq<string>)
    ensures (if IsTypeModule(file) then found + [file] else found) + TypeModules(rest) == found + TypeModules([file] + rest)
  {
    TypeModulesCons(file, rest);
    Regroup(found, [file], TypeModules(rest));
  }

  lemma ReadsOn(root: Location, lower: string -> string, present: set<Location>, files: seq<string>, k: nat,
                previous: Option<string>, keys: set<string>, found: seq<string>)
    requires k < |files| && Reading(root, lower, present, files, k, previous, keys, found)
    ensures if Extends(root, lower, present, previous, keys, files[k]) then
              Reading(root, lower, present, files, k + 1, Some(files[k]), keys + {lower(files[k])},
                      if IsTypeModule(files[k]) then found + [files[k]] else found)
            else !EntriesOk(root, lower, present, files)
  {
    var before, file := files[..k], files[k];
    assert files[..k + 1] == before + [file];
    EntriesSnoc(root, lower, present, before, file, previous, keys);
    SeenSnoc(lower, before, file, previous, keys);
    TypeModulesOn(files, k, found);
    if EntriesOk(root, lower, present, files) { EntriesPrefix(root, lower, present, files, k + 1); }
  }

  method ReadEntries(root: Location, lower: string -> string, present: set<Location>, files: seq<string>)
    returns (owned: Option<seq<string>>)
    requires ".." !in root
    ensures owned.Some? <==> EntriesOk(root, lower, present, files)
    ensures owned.Some? ==> owned.value == TypeModules(files)
  {
    var found: seq<string>, keys: set<string> := [], {};
    var previous: Option<string> := None;
    assert files[0..] == files;
    for k := 0 to |files|
      invariant Reading(root, lower, present, files, k, previous, keys, found)
    {
      ReadsOn(root, lower, present, files, k, previous, keys, found);
      var accepted := AcceptEntry(root, lower, present, previous, keys, files[k]);
      if !accepted { return None; }
      keys, previous := keys + {lower(files[k])}, Some(files[k]);
      if IsTypeModule(files[k]) { found := found + [files[k]]; }
    }
    assert files[..|files|] == files && files[|files|..] == [];
    return Some(found);
  }

  // The checks on one line, in the reader's order.
  method AcceptEntry(root: Location, lower: string -> string, present: set<Location>,
                     previous: Option<string>, keys: set<string>, file: string) returns (ok: bool)
    requires ".." !in root
    ensures ok <==> Extends(root, lower, present, previous, keys, file)
  {
    if !PortableText(file) { return false; }
    if previous.Some? && !Less(previous.value, file) { return false; }
    if lower(file) in keys { return false; }
    if !IsTypeModule(file) { return true; }
    PortableResolvesInside(root, file);
    var place := Resolve(root, Split(file, '/'));
    return IsPathWithin(root, place) && place in present;
  }

  // The directory is read twice: once to find the manifest, once to read its entries.
  method ReadOwnedTypeFiles(root: Location, identity: string, lower: string -> string, lenient: Leniency,
                            present: set<Location>, dir: seq<DirectoryFile>)
    returns (owned: Option<seq<string>>)
    requires ".." !in root
    ensures ReadsAs(root, identity, lower, lenient, present, dir, owned)
  {
    var matching := FindOwned(identity, lenient, dir);
    if matching.None? || |matching.value| != 1 {
      forall i: nat ensures !Accepts(root, identity, lower, lenient, present, dir, i) {
        if matching.Some? { NoneAccepted(root, identity, lower, lenient, present, dir, matching.value, i); }
      }
      return None;
    }
    assert matching.value == [matching.value[0]];
    var m := matching.value[0];
    owned := ReadEntries(root, lower, present, Entries(dir[m].text));
    OneAccepted(root, identity, lower, lenient, present, dir, m, owned);
  }

  // A result exactly when some manifest is accepted, and then that manifest's type modules.
  ghost predicate ReadsAs(root: Location, identity: string, lower: string -> string, lenient: Leniency,
                          present: set<Location>, dir: seq<DirectoryFile>, owned: Option<seq<string>>) {
    && (owned.Some? <==> exists i: nat :: Accepts(root, identity, lower, lenient, present, dir, i))
    && (forall i: nat :: Accepts(root, identity, lower, lenient, present, dir, i) ==>
          owned == Some(TypeModules(Entries(dir[i].text))))
  }

  // The directory indices of the manifests that name the identity.
  ghost predicate Located(identity: string, lenient: Leniency, dir: seq<DirectoryFile>, matching: seq<nat>) {
    && (forall x :: 0 <= x < |matching| ==> matching[x] < |dir|)
    && (forall i :: 0 <= i < |dir| ==> (i in matching <==> OwnedBy(lenient, identity, dir[i])))
    && (forall x, y :: 0 <= x < y < |matching| ==> matching[x] != matching[y])
  }

  lemma NotOwnedSnoc(identity: string, lenient: Leniency, dir: seq<DirectoryFile>, f: DirectoryFile, matching: seq<nat>)
    requires Located(identity, lenient, dir, matching) && !OwnedBy(lenient, identity, f)
    ensures Located(identity, lenient, dir + [f], matching)
  {
    var all := dir + [f];
    forall i | 0 <= i < |all| ensures i in matching <==> OwnedBy(lenient, identity, all[i]) {
      if i < |dir| { assert all[i] == dir[i]; } else { assert all[i] == f && i !in matching; }
    }
  }

  lemma OwnedSnoc(identity: string, lenient: Leniency, dir: seq<DirectoryFile>, f: DirectoryFile, matching: seq<nat>)
    requires Located(identity, lenient, dir, matching) && OwnedBy(lenient, identity, f)
    ensures Located(identity, lenient, dir + [f], matching + [|dir|])
  {
    var all, found := dir + [f], matching + [|dir|];
    assert found[|matching|] == |dir| && forall x :: 0 <= x < |matching| ==> found[x] == matching[x];
    forall i | 0 <= i < |all| ensures i in found <==> OwnedBy(lenient, identity, all[i]) {
      assert i in found <==> i in matching || i == |dir|;
      if i < |dir| { assert all[i] == dir[i]; } else { assert all[i] == f; }
    }
  }

  lemma LocatedSnoc(identity: string, lenient: Leniency, dir: seq<DirectoryFile>, f: DirectoryFile, matching: seq<nat>)
    requires Located(identity, lenient, dir, matching)
    ensures Located(identity, lenient, dir + [f], if OwnedBy(lenient, identity, f) then matching + [|dir|] else matching)
  {
    if OwnedBy(lenient, identity, f) { OwnedSnoc(identity, lenient, dir, f, matching); }
    else { NotOwnedSnoc(identity, lenient, dir, f, matching); }
  }

  lemma ReadableSnoc(lenient: Leniency, dir: seq<DirectoryFile>, f: DirectoryFile)
    ensures OwnersReadable(lenient, dir + [f])
            <==> OwnersReadable(lenient, dir) && (IsManifest(f) ==> Owner(lenient, f.text).Some?)
  {
    var all := dir + [f];
    assert all[|dir|] == f && forall i :: 0 <= i < |dir| ==> all[i] == dir[i];
  }

  // The search has seen k files.
  ghost predicate Searched(identity: string, lenient: Leniency, dir: seq<DirectoryFile>, k: nat, found: seq<nat>)
    requires k <= |dir|
  {
    OwnersReadable(lenient, dir[..k]) && Located(identity, lenient, dir[..k], found)
  }

  lemma SearchOn(identity: string, lenient: Leniency, dir: seq<DirectoryFile>, k: nat, found: seq<nat>)
    requires k < |dir| && Searched(identity, lenient, dir, k, found)
    ensures if IsManifest(dir[k]) && Owner(lenient, dir[k].text).None? then !OwnersReadable(lenient, dir)
            else Searched(identity, lenient, dir, k + 1, if OwnedBy(lenient, identity, dir[k]) then found + [k] else found)
  {
    assert dir[..k + 1] == dir[..k] + [dir[k]];
    ReadableSnoc(lenient, dir[..k], dir[k]);
    LocatedSnoc(identity, lenient, dir[..k], dir[k], found);
  }

  // One file of the directory.
  method SearchFile(identity: string, lenient: Leniency, ghost dir: seq<DirectoryFile>, k: nat, f: DirectoryFile, found: seq<nat>)
    returns (ok: bool, more: seq<nat>)
    requires k < |dir| && dir[k] == f && Searched(identity, lenient, dir, k, found)
    ensures ok ==> Searched(identity, lenient, dir, k + 1, more)
    ensures !ok ==> !OwnersReadable(lenient, dir)
  {
    SearchOn(identity, lenient, dir, k, found);
    ok, more := true, found;
    if IsManifest(f) {
      var owner := Owner(lenient, f.text);
      if owner.None? { return false, found; }
      if owner.value == identity { more := found + [k]; }
    }
  }

  lemma SearchDone(identity: string, lenient: Leniency, dir: seq<DirectoryFile>, found: seq<nat>)
    requires Searched(identity, lenient, dir, |dir|, found)
    ensures OwnersReadable(lenient, dir) && Located(identity, lenient, dir, found)
  {
    assert dir[..|dir|] == dir;
  }

  lemma SearchStarts(identity: string, lenient: Leniency, dir: seq<DirectoryFile>)
    ensures Searched(identity, lenient, dir, 0, [])
  {
  }

  method FindOwned(identity: string, lenient: Leniency, dir: seq<DirectoryFile>) returns (matching: Option<seq<nat>>)
    ensures matching.Some? <==> OwnersReadable(lenient, dir)
    ensures matching.Some? ==> Located(identity, lenient, dir, matching.value)
  {
    var found: seq<nat>, ok := [], true;
    SearchStarts(identity, lenient, dir);
    for k := 0 to |dir|
      invariant Searched(identity, lenient, dir, k, found)
    {
      ok, found := SearchFile(identity, lenient, dir, k, dir[k], found);
      if !ok { return None; }
    }
    SearchDone(identity, lenient, dir, found);
    return Some(found);
  }

  lemma NoneAccepted(root: Location, identity: string, lower: string -> string, lenient: Leniency,
                     present: set<Location>, dir: seq<DirectoryFile>, matching: seq<nat>, i: nat)
    requires Located(identity, lenient, dir, matching) && |matching| != 1
    ensures !Accepts(root, identity, lower, lenient, present, dir, i)
  {
    if |matching| > 1 {
      assert matching[0] in matching && matching[1] in matching;
    }
  }

  lemma OneAccepted(root: Location, identity: string, lower: string -> string, lenient: Leniency,
                    present: set<Location>, dir: seq<DirectoryFile>, m: nat, owned: Option<seq<string>>)
    requires Located(identity, lenient, dir, [m]) && OwnersReadable(lenient, dir) && m < |dir|
    requires owned.Some? <==> EntriesOk(root, lower, present, Entries(dir[m].text))
    requires owned.Some? ==> owned.value == TypeModules(Entries(dir[m].text))
    ensures ReadsAs(root, identity, lower, lenient, present, dir, owned)
  {
    assert [m][0] == m && m in [m];
    if owned.Some? { assert Accepts(root, identity, lower, lenient, present, dir, m); }
    forall i: nat | Accepts(root, identity, lower, lenient, present, dir, i) ensures i == m && owned.Some? {
      assert i in [m];
    }
  }

  // ---- The canonical text -----------------------------------------------------------------------

  function Text(lines: seq<string>, eol: string, final: bool): string {
    if lines == [] then ""
    else if |lines| == 1 then lines[0] + (if final then eol else "")
    else lines[0] + eol + Text(lines[1..], eol, final)
  }

  function CanonicalText(owner: string, files: seq<string>, eol: string, final: bool): string {
    Text([HEADER, OWNER_PREFIX + Base64(Utf8(owner))] + files, eol, final)
  }

  predicate OneLine(s: string) { '\n' !in s && '\r' !in s }

  lemma FirstLine(line: string, eol: string, rest: string)
    requires OneLine(line) && (eol == "\n" || eol == "\r\n")
    ensures Lines(line + eol + rest) == [line] + Lines(rest)
  {
    var head := if eol == "\n" then line else line + "\r";
    assert line + eol + rest == head + ['\n'] + rest;
    SplitAppend(head, rest, '\n');
    SplitNone(head, '\n');
    assert StripCr(head) == line;
    assert ([head] + Split(rest, '\n'))[1..] == Split(rest, '\n');
  }

  lemma LastLine(line: string)
    requires OneLine(line)
    ensures Lines(line) == [line]
  {
    SplitNone(line, '\n');
    assert StripCr(line) == line;
    assert StripAll([line]) == [StripCr(line)] + StripAll([line][1..]);
  }

  lemma {:induction false} LinesOfText(lines: seq<string>, eol: string, final: bool)
    requires lines != [] && (forall l :: l in lines ==> OneLine(l)) && (eol == "\n" || eol == "\r\n")
    ensures Lines(Text(lines, eol, final)) == lines + (if final then [""] else [])
    decreases |lines|
  {
    if |lines| == 1 {
      if final {
        FirstLine(lines[0], eol, "");
        LastLine("");
        assert lines[0] + eol + "" == lines[0] + eol;
      } else {
        LastLine(lines[0]);
        assert lines[0] + "" == lines[0];
      }
    } else {
      LinesOfText(lines[1..], eol, final);
      FirstLine(lines[0], eol, Text(lines[1..], eol, final));
      assert lines == [lines[0]] + lines[1..];
    }
  }

  lemma OwnerLineIsOneLine(owner: string)
    ensures OneLine(OWNER_PREFIX + Base64(Utf8(owner)))
  {
    Base64Digits(Utf8(owner));
    assert Value('\n').None? && Value('\r').None?;
    assert '\n' !in Base64(Utf8(owner)) && '\r' !in Base64(Utf8(owner));
  }

  function CanonicalLines(owner: string, files: seq<string>, final: bool): seq<string> {
    [HEADER, OWNER_PREFIX + Base64(Utf8(owner))] + files + (if final then [""] else [])
  }

  lemma CanonicalSplits(owner: string, files: seq<string>, eol: string, final: bool)
    requires (forall f :: f in files ==> OneLine(f)) && (eol == "\n" || eol == "\r\n")
    ensures Lines(CanonicalText(owner, files, eol, final)) == CanonicalLines(owner, files, final)
  {
    OwnerLineIsOneLine(owner);
    assert OneLine(HEADER);
    LinesOfText([HEADER, OWNER_PREFIX + Base64(Utf8(owner))] + files, eol, final);
  }

  lemma CanonicalEntries(owner: string, files: seq<string>, final: bool)
    requires forall f :: f in files ==> f != ""
    ensures var all := CanonicalLines(owner, files, final);
            files == if |all| <= 2 then [] else if all[|all| - 1] == "" then all[2..|all| - 1] else all[2..]
  {
    var all := CanonicalLines(owner, files, final);
    if final {
      assert all[2..|all| - 1] == files;
    } else {
      assert all[2..] == files;
      if files != [] { assert files[|files| - 1] in files && all[|all| - 1] == files[|files| - 1]; }
    }
  }

  lemma OwnerLine(lenient: Leniency, lines: seq<string>, owner: string)
    requires owner != "" && |lines| > 1 && lines[1] == OWNER_PREFIX + Base64(Utf8(owner))
    ensures StartsWith(lines[1], OWNER_PREFIX)
    ensures DecodeOwner(lenient, lines[1][|OWNER_PREFIX|..]) == Some(owner)
  {
    var encoded := Base64(Utf8(owner));
    OwnerIsCanonical(lenient, encoded, owner);
    assert lines[1][|OWNER_PREFIX|..] == encoded && lines[1][..|OWNER_PREFIX|] == OWNER_PREFIX;
  }

  lemma CanonicalStarts(owner: string, files: seq<string>, final: bool)
    ensures var lines := CanonicalLines(owner, files, final);
            |lines| > 1 && lines[0] == HEADER && lines[1] == OWNER_PREFIX + Base64(Utf8(owner))
  {
  }

  // A text with these lines reads as this owner and these files.
  lemma LinesRead(lenient: Leniency, text: string, lines: seq<string>, owner: string, files: seq<string>)
    requires Lines(text) == lines && |lines| > 1 && owner != "" && lines[1] == OWNER_PREFIX + Base64(Utf8(owner))
    requires files == if |lines| <= 2 then [] else if lines[|lines| - 1] == "" then lines[2..|lines| - 1] else lines[2..]
    ensures Owner(lenient, text) == Some(owner) && Entries(text) == files
  {
    OwnerLine(lenient, lines, owner);
  }

  // With either line ending, and with or without the final one, the canonical text reads back as its
  // owner and its files.
  lemma CanonicalReadsBack(lenient: Leniency, owner: string, files: seq<string>, eol: string, final: bool)
    requires owner != "" && (forall f :: f in files ==> OneLine(f) && f != "") && (eol == "\n" || eol == "\r\n")
    ensures var text := CanonicalText(owner, files, eol, final);
            Lines(text) != [] && Lines(text)[0] == HEADER && Owner(lenient, text) == Some(owner) && Entries(text) == files
  {
    var text, lines := CanonicalText(owner, files, eol, final), CanonicalLines(owner, files, final);
    CanonicalSplits(owner, files, eol, final);
    CanonicalEntries(owner, files, final);
    CanonicalStarts(owner, files, final);
    LinesRead(lenient, text, lines, owner, files);
  }

  // Reading a directory whose one manifest for owner is canonical accepts it and returns exactly its
  // type modules, in order.
  lemma ReaderInvertsText(root: Location, lower: string -> string, lenient: Leniency, present: set<Location>,
                          dir: seq<DirectoryFile>, i: nat, owner: string, files: seq<string>, eol: string, final: bool)
    requires owner != "" && (forall f :: f in files ==> OneLine(f)) && (eol == "\n" || eol == "\r\n")
    requires EntriesOk(root, lower, present, files)
    requires i < |dir| && StartsWith(dir[i].name, ".genes-output-") && EndsWith(dir[i].name, ".manifest")
    requires dir[i].text == CanonicalText(owner, files, eol, final)
    requires forall j :: 0 <= j < |dir| && j != i && IsManifest(dir[j]) ==>
               Owner(lenient, dir[j].text).Some? && Owner(lenient, dir[j].text) != Some(owner)
    ensures Accepts(root, owner, lower, lenient, present, dir, i) && Entries(dir[i].text) == files
  {
    forall f | f in files ensures f != "" {
      var k :| 0 <= k < |files| && files[k] == f;
      assert PortableText(files[k]);
    }
    CanonicalReadsBack(lenient, owner, files, eol, final);
  }

  // ---- What is not looked at ------------------------------------------------------------------------

  // A file of another name, or one whose first line is not the header, with either line end.
  predicate Foreign(f: DirectoryFile) {
    var first := Split(f.text, '\n')[0];
    || !StartsWith(f.name, ".genes-output-") || !EndsWith(f.name, ".manifest")
    || (first != HEADER && first != HEADER + "\r")
  }

  lemma ForeignIsNone(f: DirectoryFile)
    ensures IsManifest(f) <==> !Foreign(f)
  {
    var first := Split(f.text, '\n')[0];
    assert Lines(f.text)[0] == StripCr(first);
    assert StripCr(HEADER + "\r") == HEADER;
    if first != "" && first[|first| - 1] == '\r' { assert first == first[..|first| - 1] + "\r"; }
  }

  // Such a file in the directory changes nothing: the reader accepts the same manifest, or none.
  lemma ForeignIgnored(root: Location, identity: string, lower: string -> string, lenient: Leniency,
                       present: set<Location>, dir: seq<DirectoryFile>, f: DirectoryFile, i: nat)
    requires Foreign(f)
    ensures Accepts(root, identity, lower, lenient, present, dir + [f], i)
            <==> Accepts(root, identity, lower, lenient, present, dir, i)
  {
    var all, n := dir + [f], |dir|;
    ForeignIsNone(f);
    assert all[n] == f;
    forall j | 0 <= j < n ensures all[j] == dir[j] {}
    if Accepts(root, identity, lower, lenient, present, all, i) {
      assert OwnedBy(lenient, identity, all[i]);
      forall j | 0 <= j < n && IsManifest(dir[j]) ensures Owner(lenient, dir[j].text).Some? { assert IsManifest(all[j]); }
      forall j | 0 <= j < n ensures OwnedBy(lenient, identity, dir[j]) <==> j == i {
        assert OwnedBy(lenient, identity, all[j]) <==> j == i;
      }
    }
  }

  // The type modules of a list of files are those that end with ".ts" or ".tsx".
  lemma {:induction false} TypeModulesExactly(files: seq<string>, file: string)
    ensures file in TypeModules(files)
            <==> file in files && exists stem :: file == stem + ".ts" || file == stem + ".tsx"
  {
    if EndsWith(file, ".ts") { assert file == file[..|file| - 3] + ".ts"; }
    if EndsWith(file, ".tsx") { assert file == file[..|file| - 4] + ".tsx"; }
    if files != [] {
      TypeModulesExactly(files[1..], file);
      assert files == [files[0]] + files[1..];
    }
  }
}
