/** The downstream contract: profiles, their commands and their known observations. */
module DownstreamContract {
  import opened Wrappers
  import opened Paths
  import opened Texts

  datatype CommandClass = Prepare | Compile | Typecheck | TypingPolicy | ModulePolicy | RuntimeSmoke

  datatype ExpectedFailure = ExpectedFailure(observation: string, exitCode: int, diagnostics: seq<string>)

  datatype Command = Command(
    id: string, commandClass: CommandClass, executable: string, args: seq<string>,
    expectedFailure: Option<ExpectedFailure>)

  datatype Ownership = OwnedByCompiler | OwnedByDownstream | Unclassified

  datatype Observation = Observation(id: string, owner: Ownership, tracking: string, summary: string)

  datatype Exclusion = Exclusion(id: string, reason: string)

  datatype Baseline = Passing | KnownFailures

  datatype Profile = Profile(
    id: string, baseline: Baseline, commands: seq<Command>,
    knownObservations: seq<Observation>, unsupported: seq<Exclusion>)

  // ---- Diagnostic headlines -----------------------------------------------------------------------

  predicate IsDigit(c: char) { '0' <= c <= '9' }

  // The text after one or more leading digits.
  function SkipDigits(s: string): string {
    if s != "" && IsDigit(s[0]) then SkipDigits(s[1..]) else s
  }

  predicate LeadsWithDigit(s: string) { s != "" && IsDigit(s[0]) }

  // "(line,column): error TSnumber: text", from the opening parenthesis on.
  predicate Located(s: string) {
    StartsWith(s, "(") && LeadsWithDigit(s[1..]) &&
    (var a := SkipDigits(s[1..]);
     StartsWith(a, ",") && LeadsWithDigit(a[1..]) &&
     (var b := SkipDigits(a[1..]);
      StartsWith(b, "): error TS") && LeadsWithDigit(b[11..]) &&
      (var c := SkipDigits(b[11..]); StartsWith(c, ": ") && |c| > 2)))
  }

  predicate IsHeadline(line: string) {
    (forall c :: c in line ==> !IsLineTerminator(c)) && exists i :: 0 < i < |line| && Located(line[i..])
  }

  predicate Digits(s: string) { s != "" && forall c :: c in s ==> IsDigit(c) }

  function Position(line: string, column: string, number: string, text: string): string {
    "(" + line + ("," + column + ("): error TS" + number + (": " + text)))
  }

  predicate PartsOk(line: string, column: string, number: string, text: string) {
    Digits(line) && Digits(column) && Digits(number) && text != ""
  }

  // Digits end where something else begins, so there is one way to read them.
  lemma {:induction false} DigitsSkipped(d: string, rest: string)
    requires forall c :: c in d ==> IsDigit(c)
    requires rest == "" || !IsDigit(rest[0])
    ensures SkipDigits(d + rest) == rest
    decreases |d|
  {
    if d == "" {
      assert d + rest == rest;
    } else {
      assert d[0] in d && (d + rest)[1..] == d[1..] + rest;
      DigitsSkipped(d[1..], rest);
    }
  }

  lemma {:induction false} DigitsRead(s: string) returns (d: string)
    ensures s == d + SkipDigits(s) && (forall c :: c in d ==> IsDigit(c)) && (LeadsWithDigit(s) ==> d != "")
  {
    if s != "" && IsDigit(s[0]) {
      var rest := DigitsRead(s[1..]);
      d := [s[0]] + rest;
      assert s == [s[0]] + s[1..];
    } else {
      d := "";
    }
  }

  lemma StartsWhole(s: string, p: string)
    requires StartsWith(s, p)
    ensures s == p + s[|p|..]
  {
  }

  lemma LocatedHas(s: string) returns (line: string, column: string, number: string, text: string)
    requires Located(s)
    ensures PartsOk(line, column, number, text) && s == Position(line, column, number, text)
  {
    line := DigitsRead(s[1..]);
    var a := SkipDigits(s[1..]);
    column := DigitsRead(a[1..]);
    var b := SkipDigits(a[1..]);
    number := DigitsRead(b[11..]);
    var c := SkipDigits(b[11..]);
    text := c[2..];
    StartsWhole(s, "(");
    StartsWhole(a, ",");
    StartsWhole(b, "): error TS");
    StartsWhole(c, ": ");
    assert c == ": " + text;
    assert b == "): error TS" + number + c;
    assert a == "," + column + b;
    assert s == "(" + line + a;
  }

  lemma DigitsThen(mark: string, d: string, rest: string)
    requires mark != "" && Digits(d) && rest != "" && !IsDigit(rest[0])
    ensures var s := mark + d + rest;
            StartsWith(s, mark) && LeadsWithDigit(s[|mark|..]) && SkipDigits(s[|mark|..]) == rest
  {
    assert (mark + d + rest)[|mark|..] == d + rest && d[0] in d;
    DigitsSkipped(d, rest);
  }

  lemma LocatedFrom(line: string, column: string, number: string, text: string)
    requires PartsOk(line, column, number, text)
    ensures Located(Position(line, column, number, text))
  {
    var c := ": " + text;
    var b := "): error TS" + number + c;
    var a := "," + column + b;
    DigitsThen("(", line, a);
    DigitsThen(",", column, b);
    DigitsThen("): error TS", number, c);
  }

  // A headline is some text, a position in parentheses, "error TS", a number and some text, on one line.
  ghost predicate Headline(s: string, file: string, line: string, column: string, number: string, text: string) {
    && file != "" && PartsOk(line, column, number, text) && s == file + Position(line, column, number, text)
    && forall c :: c in s ==> !IsLineTerminator(c)
  }

  lemma HeadlineShape(s: string)
    ensures IsHeadline(s) <==> exists file, line, column, number, text :: Headline(s, file, line, column, number, text)
  {
    if IsHeadline(s) {
      var i :| 0 < i < |s| && Located(s[i..]);
      var line, column, number, text := LocatedHas(s[i..]);
      assert s == s[..i] + s[i..];
      assert Headline(s, s[..i], line, column, number, text);
    }
    if file, line, column, number, text :| Headline(s, file, line, column, number, text) {
      LocatedFrom(line, column, number, text);
      assert s[|file|..] == Position(line, column, number, text);
    }
  }

  // ---- Commands -------------------------------------------------------------------------------------

  predicate NoDuplicates(ids: seq<string>) {
    forall i, j :: 0 <= i < j < |ids| ==> ids[i] != ids[j]
  }

  predicate ExpectedFailureOk(e: ExpectedFailure) {
    && e.exitCode > 0
    && e.diagnostics != [] && NoDuplicates(e.diagnostics)
    && (forall d :: d in e.diagnostics ==> !Blank(d) && IsHeadline(d))
    && !Blank(e.observation)
  }

  const FORBIDDEN := ["npm install", "npm ci", "lix download", "curl ", "wget ", "git clone", "npx "]

  // lower is the host's lower-casing.
  predicate CommandOk(lower: string -> string, c: Command) {
    && !Blank(c.id) && !Blank(c.executable) && (forall a :: a in c.args ==> !Blank(a))
    && (var text := lower(Join([c.executable] + c.args, ' ')); forall f :: f in FORBIDDEN ==> !Contains(text, f))
    && (c.expectedFailure.Some? ==> ExpectedFailureOk(c.expectedFailure.value))
  }

  // ---- Whole profiles -------------------------------------------------------------------------------

  function CommandIds(cs: seq<Command>): (ids: seq<string>)
    ensures |ids| == |cs| && forall i :: 0 <= i < |cs| ==> ids[i] == cs[i].id
  {
    seq(|cs|, i requires 0 <= i < |cs| => cs[i].id)
  }

  function ObservationIds(os: seq<Observation>): (ids: seq<string>)
    ensures |ids| == |os| && forall i :: 0 <= i < |os| ==> ids[i] == os[i].id
  {
    seq(|os|, i requires 0 <= i < |os| => os[i].id)
  }

  function ExclusionIds(es: seq<Exclusion>): (ids: seq<string>)
    ensures |ids| == |es| && forall i :: 0 <= i < |es| ==> ids[i] == es[i].id
  {
    seq(|es|, i requires 0 <= i < |es| => es[i].id)
  }

  // Command i is pinned to observation o.
  predicate Pins(c: Command, o: Observation) {
    c.expectedFailure.Some? && c.expectedFailure.value.observation == o.id
  }

  predicate KnownDownstream(os: seq<Observation>, id: string) {
    exists i :: 0 <= i < |os| && os[i].id == id && os[i].owner == OwnedByDownstream
  }

  // One expected failure is well placed: a typecheck command pinned to a downstream-owned observation.
  predicate PinOk(c: Command, os: seq<Observation>) {
    c.expectedFailure.Some? ==>
      c.commandClass == Typecheck && KnownDownstream(os, c.expectedFailure.value.observation)
  }

  // The observations pinned by these commands, in order.
  function Pinned(cs: seq<Command>): seq<string> {
    if cs == [] then []
    else
      var n := |cs| - 1;
      Pinned(cs[..n]) + if cs[n].expectedFailure.Some? then [cs[n].expectedFailure.value.observation] else []
  }

  predicate Has(cs: seq<Command>, wanted: CommandClass) {
    exists i :: 0 <= i < |cs| && cs[i].commandClass == wanted
  }

  predicate ShapeOk(lower: string -> string, p: Profile) {
    && p.commands != [] && p.unsupported != []
    && (forall c :: c in p.commands ==> CommandOk(lower, c))
    && (forall e :: e in p.unsupported ==> !Blank(e.id) && !Blank(e.reason))
    && (forall o :: o in p.knownObservations ==> !Blank(o.id) && !Blank(o.tracking) && !Blank(o.summary))
    && !Blank(p.id)
  }

  predicate IdsOk(p: Profile) {
    && NoDuplicates(CommandIds(p.commands))
    && NoDuplicates(ExclusionIds(p.unsupported))
    && NoDuplicates(ObservationIds(p.knownObservations))
  }

  predicate PinsOk(p: Profile) {
    && (forall i :: 0 <= i < |p.commands| ==> PinOk(p.commands[i], p.knownObservations))
    && NoDuplicates(Pinned(p.commands))
    && (forall i :: 0 <= i < |p.knownObservations| ==> p.knownObservations[i].id in Pinned(p.commands))
  }

  predicate ProfileOk(lower: string -> string, p: Profile) {
    && ShapeOk(lower, p) && IdsOk(p)
    && (p.baseline == Passing <==> p.knownObservations == [])
    && PinsOk(p)
    && Has(p.commands, Compile) && Has(p.commands, Typecheck) && Has(p.commands, RuntimeSmoke)
  }

  method UniqueIds(ids: seq<string>) returns (ok: bool)
    ensures ok <==> NoDuplicates(ids)
  {
    var seen: set<string> := {};
    for k := 0 to |ids|
      invariant forall id :: id in seen <==> exists i :: 0 <= i < k && ids[i] == id
      invariant forall i, j :: 0 <= i < j < k ==> ids[i] != ids[j]
    {
      if ids[k] in seen { return false; }
      seen := seen + {ids[k]};
    }
    return true;
  }

  lemma PinnedSnoc(cs: seq<Command>, k: nat)
    requires k < |cs|
    ensures Pinned(cs[..k + 1]) == if cs[k].expectedFailure.Some?
              then Pinned(cs[..k]) + [cs[k].expectedFailure.value.observation] else Pinned(cs[..k])
  {
    var init, all := cs[..k], cs[..k + 1];
    assert all[..k] == init && all[k] == cs[k];
    assert Pinned(init) + [] == Pinned(init);
  }

  lemma SuffixDistinct(a: seq<string>, all: seq<string>)
    requires a <= all
    ensures NoDuplicates(all) ==> NoDuplicates(a)
  {
    forall i, j | 0 <= i < j < |a| ensures all[i] != all[j] ==> a[i] != a[j] {}
  }

  lemma {:induction false} PinnedPrefix(cs: seq<Command>, k: nat)
    requires k <= |cs|
    ensures NoDuplicates(Pinned(cs)) ==> NoDuplicates(Pinned(cs[..k]))
    decreases |cs|
  {
    if k < |cs| {
      var n := |cs| - 1;
      SuffixDistinct(Pinned(cs[..n]), Pinned(cs));
      PinnedPrefix(cs[..n], k);
      assert cs[..n][..k] == cs[..k];
    } else {
      assert cs[..k] == cs;
    }
  }

  // The loop that binds expected failures to observations.
  // These ids, each once.
  ghost predicate Tracks(ids: seq<string>, referenced: set<string>) {
    NoDuplicates(ids) && forall id :: id in referenced <==> id in ids
  }

  lemma TracksOn(ids: seq<string>, id: string, referenced: set<string>)
    requires Tracks(ids, referenced)
    ensures id in referenced ==> !NoDuplicates(ids + [id])
    ensures id !in referenced ==> Tracks(ids + [id], referenced + {id})
  {
    var more := ids + [id];
    assert more[|ids|] == id && forall i :: 0 <= i < |ids| ==> more[i] == ids[i];
    if id in ids {
      var i :| 0 <= i < |ids| && ids[i] == id;
      assert more[i] == more[|ids|];
    }
    forall x ensures x in more <==> x in ids || x == id {}
  }

  method BindObservations(p: Profile) returns (ok: bool)
    ensures ok <==> PinsOk(p)
  {
    var cs, os := p.commands, p.knownObservations;
    var referenced: set<string> := {};
    ghost var ids: seq<string> := [];
    for k := 0 to |cs|
      invariant forall i :: 0 <= i < k ==> PinOk(cs[i], os)
      invariant ids == Pinned(cs[..k]) && Tracks(ids, referenced)
    {
      PinnedSnoc(cs, k);
      if cs[k].expectedFailure.Some? {
        var wanted := cs[k].expectedFailure.value.observation;
        if !PinOk(cs[k], os) { return false; }
        TracksOn(ids, wanted, referenced);
        if wanted in referenced {
          PinnedPrefix(cs, k + 1);
          return false;
        }
        ids, referenced := ids + [wanted], referenced + {wanted};
      }
    }
    assert cs[..|cs|] == cs;
    for k := 0 to |os|
      invariant forall i :: 0 <= i < k ==> os[i].id in Pinned(cs)
    {
      if os[k].id !in referenced { return false; }
    }
    return true;
  }

  method ParseProfile(lower: string -> string, p: Profile) returns (ok: bool)
    ensures ok <==> ProfileOk(lower, p)
  {
    if !ShapeOk(lower, p) { return false; }
    ok := UniqueIds(CommandIds(p.commands));
    if !ok { return; }
    ok := UniqueIds(ExclusionIds(p.unsupported));
    if !ok { return; }
    ok := UniqueIds(ObservationIds(p.knownObservations));
    if !ok { return; }
    if (p.baseline == Passing) != (p.knownObservations == []) { return false; }
    ok := BindObservations(p);
    if !ok { return; }
    ok := Has(p.commands, Compile) && Has(p.commands, Typecheck) && Has(p.commands, RuntimeSmoke);
  }

  // ---- What acceptance means --------------------------------------------------------------------------

  lemma {:induction false} PinnedPosition(cs: seq<Command>, i: nat)
    requires i < |cs| && cs[i].expectedFailure.Some?
    ensures |Pinned(cs[..i])| < |Pinned(cs)|
    ensures Pinned(cs)[|Pinned(cs[..i])|] == cs[i].expectedFailure.value.observation
    decreases |cs|
  {
    var n := |cs| - 1;
    if i < n {
      PinnedPosition(cs[..n], i);
      assert cs[..n][..i] == cs[..i];
    }
  }

  lemma {:induction false} PinnedSource(cs: seq<Command>, id: string) returns (i: nat)
    requires id in Pinned(cs)
    ensures i < |cs| && cs[i].expectedFailure.Some? && cs[i].expectedFailure.value.observation == id
    decreases |cs|
  {
    var n := |cs| - 1;
    if cs[n].expectedFailure.Some? && cs[n].expectedFailure.value.observation == id {
      i := n;
    } else {
      i := PinnedSource(cs[..n], id);
    }
  }

  lemma PinnedLonger(cs: seq<Command>, i: nat, j: nat)
    requires i < j < |cs| && cs[i].expectedFailure.Some?
    ensures |Pinned(cs[..i])| < |Pinned(cs[..j])|
  {
    PinnedPosition(cs[..j], i);
    assert cs[..j][..i] == cs[..i];
  }

  // In an accepted profile the expected-failure commands and the known observations correspond one to
  // one: each such command pins exactly one observation, which downstream owns, and each observation is
  // pinned by exactly one command.
  lemma PinsAreOneToOne(lower: string -> string, p: Profile)
    requires ProfileOk(lower, p)
    ensures forall i :: 0 <= i < |p.commands| && p.commands[i].expectedFailure.Some? ==>
              exists o :: 0 <= o < |p.knownObservations| && Pins(p.commands[i], p.knownObservations[o])
                && p.knownObservations[o].owner == OwnedByDownstream
                && forall q :: 0 <= q < |p.knownObservations| && Pins(p.commands[i], p.knownObservations[q]) ==> q == o
    ensures forall o :: 0 <= o < |p.knownObservations| ==>
              exists i :: 0 <= i < |p.commands| && Pins(p.commands[i], p.knownObservations[o])
                && forall j :: 0 <= j < |p.commands| && Pins(p.commands[j], p.knownObservations[o]) ==> j == i
  {
    var cs, os := p.commands, p.knownObservations;
    forall i | 0 <= i < |cs| && cs[i].expectedFailure.Some?
      ensures exists o :: 0 <= o < |os| && Pins(cs[i], os[o]) && os[o].owner == OwnedByDownstream
                && forall q :: 0 <= q < |os| && Pins(cs[i], os[q]) ==> q == o {
      assert PinOk(cs[i], os);
      var o :| 0 <= o < |os| && os[o].id == cs[i].expectedFailure.value.observation && os[o].owner == OwnedByDownstream;
      forall q | 0 <= q < |os| && Pins(cs[i], os[q]) ensures q == o {
        assert ObservationIds(os)[q] == ObservationIds(os)[o];
      }
      assert Pins(cs[i], os[o]);
    }
    forall o | 0 <= o < |os|
      ensures exists i :: 0 <= i < |cs| && Pins(cs[i], os[o]) && forall j :: 0 <= j < |cs| && Pins(cs[j], os[o]) ==> j == i {
      var i := PinnedSource(cs, os[o].id);
      forall j | 0 <= j < |cs| && Pins(cs[j], os[o]) ensures j == i { OnePin(cs, i, j); }
      assert Pins(cs[i], os[o]);
    }
  }

  lemma OnePin(cs: seq<Command>, i: nat, j: nat)
    requires i < |cs| && j < |cs| && cs[i].expectedFailure.Some? && cs[j].expectedFailure.Some?
    requires cs[i].expectedFailure.value.observation == cs[j].expectedFailure.value.observation
    requires NoDuplicates(Pinned(cs))
    ensures i == j
  {
    PinnedPosition(cs, i);
    PinnedPosition(cs, j);
    if i < j { PinnedLonger(cs, i, j); }
    if j < i { PinnedLonger(cs, j, i); }
  }

  // A passing baseline leaves no command with an expected failure, and the other way round.
  lemma PassingMeansUnpinned(lower: string -> string, p: Profile)
    requires ProfileOk(lower, p)
    ensures p.baseline == Passing <==> forall c :: c in p.commands ==> c.expectedFailure.None?
  {
    PinsAreOneToOne(lower, p);
    if p.baseline == Passing {
      forall c | c in p.commands ensures c.expectedFailure.None? {
        var i :| 0 <= i < |p.commands| && p.commands[i] == c;
      }
    } else {
      var i :| 0 <= i < |p.commands| && Pins(p.commands[i], p.knownObservations[0]);
      assert p.commands[i] in p.commands;
    }
  }
}
