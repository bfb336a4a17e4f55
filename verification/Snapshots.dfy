/** Snapshot text in canonical form, and the update and check modes of a snapshot directory. */
module Snapshots {
  import opened Paths
  import opened Texts

  // ---- Canonical text -------------------------------------------------------------------------------

  predicate IsBlankChar(c: char) { c == ' ' || c == '\t' }

  // Every "\r" that UnixLines left becomes "\n".
  function NoReturns(s: string): (r: string)
    ensures '\r' !in r && |r| == |s|
  {
    if s == "" then "" else [if s[0] == '\r' then '\n' else s[0]] + NoReturns(s[1..])
  }

  predicate AtLineEnd(s: string) { s == "" || IsLineTerminator(s[0]) }

  // Removes every run of blanks that stands before a line end or at the end of the text.
  function StripBlanks(s: string): string {
    if s == "" then ""
    else
      var rest := StripBlanks(s[1..]);
      if IsBlankChar(s[0]) && AtLineEnd(rest) then rest else [s[0]] + rest
  }

  function StripNewlines(s: string): string
    decreases |s|
  {
    if s != "" && s[|s| - 1] == '\n' then StripNewlines(s[..|s| - 1]) else s
  }

  function Normalize(text: string): string {
    StripNewlines(StripBlanks(NoReturns(UnixLines(text)))) + "\n"
  }

  predicate NoTrailingBlanks(s: string) {
    forall i :: 0 <= i < |s| && IsBlankChar(s[i]) ==> i + 1 < |s| && !IsLineTerminator(s[i + 1])
  }

  // No carriage return, no blank before a line end, and exactly one final newline.
  predicate Canonical(s: string) {
    && '\r' !in s && NoTrailingBlanks(s)
    && s != "" && s[|s| - 1] == '\n' && (|s| > 1 ==> s[|s| - 2] != '\n')
  }

  lemma NoTrailingCons(c: char, s: string)
    ensures NoTrailingBlanks([c] + s) <==> NoTrailingBlanks(s) && (IsBlankChar(c) ==> !AtLineEnd(s))
  {
    var t := [c] + s;
    if NoTrailingBlanks(t) {
      forall i | 0 <= i < |s| && IsBlankChar(s[i]) ensures i + 1 < |s| && !IsLineTerminator(s[i + 1]) {
        assert t[i + 1] == s[i];
        if i + 1 < |s| { assert t[i + 2] == s[i + 1]; }
      }
      if s != "" { assert t[0] == c && t[1] == s[0]; }
      if IsBlankChar(c) { assert t[0] == c; }
    }
    if NoTrailingBlanks(s) && (IsBlankChar(c) ==> !AtLineEnd(s)) {
      forall i | 0 <= i < |t| && IsBlankChar(t[i]) ensures i + 1 < |t| && !IsLineTerminator(t[i + 1]) {
        if i > 0 { assert t[i] == s[i - 1]; }
      }
    }
  }

  lemma {:induction false} StripBlanksStrips(s: string)
    ensures NoTrailingBlanks(StripBlanks(s))
    ensures forall c :: c in StripBlanks(s) ==> c in s
  {
    if s != "" {
      StripBlanksStrips(s[1..]);
      NoTrailingCons(s[0], StripBlanks(s[1..]));
    }
  }

  lemma {:induction false} StripBlanksFixed(s: string)
    requires NoTrailingBlanks(s)
    ensures StripBlanks(s) == s
  {
    if s != "" {
      assert s == [s[0]] + s[1..];
      NoTrailingCons(s[0], s[1..]);
      StripBlanksFixed(s[1..]);
    }
  }

  lemma {:induction false} ReturnsFixed(s: string)
    requires '\r' !in s
    ensures UnixLines(s) == s && NoReturns(s) == s
    decreases |s|
  {
    if s != "" {
      assert s == [s[0]] + s[1..];
      ReturnsFixed(s[1..]);
    }
  }

  lemma {:induction false} StripNewlinesStrips(s: string)
    ensures var r := StripNewlines(s); r <= s && (r == "" || r[|r| - 1] != '\n')
    ensures NoTrailingBlanks(s) ==> NoTrailingBlanks(StripNewlines(s) + "\n")
    decreases |s|
  {
    if s != "" && s[|s| - 1] == '\n' {
      var t := s[..|s| - 1];
      StripNewlinesStrips(t);
      if NoTrailingBlanks(s) && !NoTrailingBlanks(t) {
        BlankBeforeFinalNewline(s);
      }
    } else if NoTrailingBlanks(s) {
      var t := s + "\n";
      forall i | 0 <= i < |t| && IsBlankChar(t[i]) ensures i + 1 < |t| && !IsLineTerminator(t[i + 1]) {
        assert t[i] == s[i];
      }
    }
  }

  lemma BlankBeforeFinalNewline(s: string)
    requires s != "" && s[|s| - 1] == '\n' && NoTrailingBlanks(s)
    ensures NoTrailingBlanks(s[..|s| - 1])
  {
    var t := s[..|s| - 1];
    forall i | 0 <= i < |t| && IsBlankChar(t[i]) ensures i + 1 < |t| && !IsLineTerminator(t[i + 1]) {
      assert s[i] == t[i];
    }
  }

  lemma NormalizeIsCanonical(text: string)
    ensures Canonical(Normalize(text))
  {
    var lines := NoReturns(UnixLines(text));
    StripBlanksStrips(lines);
    StripNewlinesStrips(StripBlanks(lines));
    var r := StripNewlines(StripBlanks(lines));
    assert forall c :: c in r ==> c in StripBlanks(lines);
  }

  // Normalisation leaves a text alone exactly when it is canonical.
  lemma FixedIffCanonical(s: string)
    ensures Normalize(s) == s <==> Canonical(s)
  {
    NormalizeIsCanonical(s);
    if Canonical(s) {
      ReturnsFixed(s);
      StripBlanksFixed(s);
      var t := s[..|s| - 1];
      assert StripNewlines(s) == StripNewlines(t) == t;
    }
  }

  lemma NormalizeIsIdempotent(text: string)
    ensures Normalize(Normalize(text)) == Normalize(text)
  {
    NormalizeIsCanonical(text);
    FixedIffCanonical(Normalize(text));
  }

  // ---- What is kept ---------------------------------------------------------------------------------

  // The lines of a text, whichever of CRLF, CR and LF ends them.
  function Lines(text: string): (ls: seq<string>)
    ensures ls != []
  {
    if text == "" then [""]
    else if |text| >= 2 && text[0] == '\r' && text[1] == '\n' then [""] + Lines(text[2..])
    else if text[0] == '\r' || text[0] == '\n' then [""] + Lines(text[1..])
    else
      var rest := Lines(text[1..]);
      [[text[0]] + rest[0]] + rest[1..]
  }

  function DropBlanks(w: string): string
    decreases |w|
  {
    if w != "" && IsBlankChar(w[|w| - 1]) then DropBlanks(w[..|w| - 1]) else w
  }

  // The first line or paragraph separator, where the pattern sees a line end too.
  function FirstSeparator(w: string): (i: nat)
    ensures i <= |w| && (i < |w| ==> IsLineTerminator(w[i]))
    ensures forall k :: 0 <= k < i ==> !IsLineTerminator(w[k])
  {
    if w == "" || IsLineTerminator(w[0]) then 0
    else
      var i := FirstSeparator(w[1..]);
      assert forall k :: 1 <= k < i + 1 ==> w[k] == w[1..][k - 1];
      i + 1
  }

  // A line without the blanks at its ends; a separator inside it stays.
  function TrimLine(w: string): string
    decreases |w|
  {
    var i := FirstSeparator(w);
    if i == |w| then DropBlanks(w) else DropBlanks(w[..i]) + [w[i]] + TrimLine(w[i + 1..])
  }

  function TrimLines(ls: seq<string>): (r: seq<string>)
    ensures |r| == |ls| && forall k :: 0 <= k < |ls| ==> r[k] == TrimLine(ls[k])
  {
    seq(|ls|, k requires 0 <= k < |ls| => TrimLine(ls[k]))
  }

  function DropEmptyTail(ls: seq<string>): (r: seq<string>)
    ensures r <= ls && (r == [] || r[|r| - 1] != "")
    decreases |ls|
  {
    if ls != [] && ls[|ls| - 1] == "" then DropEmptyTail(ls[..|ls| - 1]) else ls
  }

  // The lines that a snapshot keeps.
  function KeptLines(text: string): seq<string> {
    DropEmptyTail(TrimLines(Lines(text)))
  }

  ghost predicate OneLine(w: string) { '\n' !in w && '\r' !in w }

  ghost predicate OneLiners(ls: seq<string>) {
    forall k :: 0 <= k < |ls| ==> OneLine(ls[k])
  }

  lemma NoReturnsCons(c: char, t: string)
    ensures NoReturns([c] + t) == [if c == '\r' then '\n' else c] + NoReturns(t)
  {
    assert ([c] + t)[1..] == t;
  }

  lemma UnixStep(text: string)
    requires text != "" && !(|text| >= 2 && text[0] == '\r' && text[1] == '\n')
    ensures UnixLines(text) == [text[0]] + UnixLines(text[1..])
  {
    assert text == [text[0]] + text[1..];
  }

  // The lines are those between the line ends of the unified text.
  lemma {:induction false} LinesAreSplit(text: string)
    ensures Lines(text) == Split(NoReturns(UnixLines(text)), '\n')
    decreases |text|
  {
    if text != "" {
      if |text| >= 2 && text[0] == '\r' && text[1] == '\n' {
        LinesAreSplit(text[2..]);
        BreakSplits(text);
      } else {
        LinesAreSplit(text[1..]);
        CharSplits(text);
      }
    }
  }

  lemma {:induction false} LinesAreOneLiners(text: string)
    ensures OneLiners(Lines(text))
    decreases |text|
  {
    if text != "" {
      if |text| >= 2 && text[0] == '\r' && text[1] == '\n' { LinesAreOneLiners(text[2..]); } else { LinesAreOneLiners(text[1..]); }
    }
  }

  lemma BreakSplits(text: string)
    requires |text| >= 2 && text[0] == '\r' && text[1] == '\n'
    requires Lines(text[2..]) == Split(NoReturns(UnixLines(text[2..])), '\n')
    ensures Lines(text) == Split(NoReturns(UnixLines(text)), '\n')
  {
    NoReturnsCons('\n', UnixLines(text[2..]));
    SplitStep('\n', NoReturns(UnixLines(text[2..])), '\n');
  }

  lemma CharSplits(text: string)
    requires text != "" && !(|text| >= 2 && text[0] == '\r' && text[1] == '\n')
    requires Lines(text[1..]) == Split(NoReturns(UnixLines(text[1..])), '\n')
    ensures Lines(text) == Split(NoReturns(UnixLines(text)), '\n')
  {
    UnixStep(text);
    NoReturnsCons(text[0], UnixLines(text[1..]));
    SplitStep(if text[0] == '\r' then '\n' else text[0], NoReturns(UnixLines(text[1..])), '\n');
  }

  lemma StripCons(c: char, t: string)
    ensures StripBlanks([c] + t) == if IsBlankChar(c) && AtLineEnd(StripBlanks(t)) then StripBlanks(t) else [c] + StripBlanks(t)
  {
    assert ([c] + t)[1..] == t;
  }

  lemma StripAcrossCons(h: char, t: string, c: char, v: string)
    requires IsLineTerminator(c) && StripBlanks(t + [c] + v) == StripBlanks(t) + [c] + StripBlanks(v)
    ensures StripBlanks([h] + (t + [c] + v)) == StripBlanks([h] + t) + [c] + StripBlanks(v)
  {
    StripCons(h, t);
    StripCons(h, t + [c] + v);
    LineEndKept(StripBlanks(t), c, StripBlanks(v));
    Regroup(h, StripBlanks(t), c, StripBlanks(v));
  }

  lemma LineEndKept(t: string, c: char, v: string)
    requires IsLineTerminator(c)
    ensures AtLineEnd(t + [c] + v) <==> AtLineEnd(t)
  {
  }

  lemma Regroup(h: char, t: string, c: char, v: string)
    ensures [h] + (t + [c] + v) == [h] + t + [c] + v
  {
  }

  // Blanks do not reach across a line end.
  lemma {:induction false} StripAcross(w: string, c: char, v: string)
    requires IsLineTerminator(c)
    ensures StripBlanks(w + [c] + v) == StripBlanks(w) + [c] + StripBlanks(v)
    decreases |w|
  {
    if w == "" {
      assert w + [c] + v == [c] + v;
      StripCons(c, v);
    } else {
      assert w == [w[0]] + w[1..];
      Regroup(w[0], w[1..], c, v);
      StripAcross(w[1..], c, v);
      StripAcrossCons(w[0], w[1..], c, v);
    }
  }

  lemma {:induction false} DropBlanksCons(c: char, t: string)
    ensures DropBlanks([c] + t) == if IsBlankChar(c) && DropBlanks(t) == "" then "" else [c] + DropBlanks(t)
    decreases |t|
  {
    if t == "" {
      assert [c] + t == [c] && [c][..0] == "";
    } else {
      var n := |t| - 1;
      assert ([c] + t)[|t|] == t[n] && ([c] + t)[..|t|] == [c] + t[..n];
      if IsBlankChar(t[n]) { DropBlanksCons(c, t[..n]); }
    }
  }

  lemma {:induction false} StripIsDrop(w: string)
    requires forall k :: 0 <= k < |w| ==> !IsLineTerminator(w[k])
    ensures StripBlanks(w) == DropBlanks(w) && forall c :: c in StripBlanks(w) ==> !IsLineTerminator(c)
  {
    if w != "" {
      var t := w[1..];
      assert forall k :: 0 <= k < |t| ==> t[k] == w[k + 1];
      StripIsDrop(t);
      assert w == [w[0]] + t;
      StripCons(w[0], t);
      DropBlanksCons(w[0], t);
    }
  }

  lemma {:induction false} StripIsTrim(w: string)
    ensures StripBlanks(w) == TrimLine(w)
    decreases |w|
  {
    var i := FirstSeparator(w);
    if i == |w| {
      StripIsDrop(w);
    } else {
      assert w == w[..i] + [w[i]] + w[i + 1..];
      StripAcross(w[..i], w[i], w[i + 1..]);
      StripIsDrop(w[..i]);
      StripIsTrim(w[i + 1..]);
    }
  }

  lemma TrimStaysOneLine(w: string)
    requires OneLine(w)
    ensures OneLine(TrimLine(w))
  {
    StripIsTrim(w);
    StripBlanksStrips(w);
  }

  lemma TrimLinesCons(w: string, ls: seq<string>)
    ensures TrimLines([w] + ls) == [TrimLine(w)] + TrimLines(ls)
  {
  }

  lemma JoinTwo(w: string, ls: seq<string>)
    requires ls != []
    ensures Join([w] + ls, '\n') == w + ['\n'] + Join(ls, '\n')
  {
    assert ([w] + ls)[1..] == ls;
  }

  lemma {:induction false} StripJoined(ls: seq<string>)
    requires ls != []
    ensures StripBlanks(Join(ls, '\n')) == Join(TrimLines(ls), '\n')
  {
    if |ls| == 1 {
      StripIsTrim(ls[0]);
    } else {
      assert ls == [ls[0]] + ls[1..];
      JoinTwo(ls[0], ls[1..]);
      StripAcross(ls[0], '\n', Join(ls[1..], '\n'));
      StripIsTrim(ls[0]);
      StripJoined(ls[1..]);
      TrimLinesCons(ls[0], ls[1..]);
      JoinTwo(TrimLine(ls[0]), TrimLines(ls[1..]));
    }
  }

  lemma JoinLast(ls: seq<string>)
    requires |ls| >= 2
    ensures Join(ls, '\n') == Join(ls[..|ls| - 1], '\n') + ['\n'] + ls[|ls| - 1]
  {
    Reassemble(ls);
    JoinSnoc(ls[..|ls| - 1], ls[|ls| - 1]);
  }

  lemma Reassemble(ls: seq<string>)
    requires ls != []
    ensures ls == ls[..|ls| - 1] + [ls[|ls| - 1]]
  {
  }

  lemma JoinSnoc(init: seq<string>, last: string)
    requires init != []
    ensures Join(init + [last], '\n') == Join(init, '\n') + ['\n'] + last
  {
    JoinAppend(init, [last], '\n');
  }

  lemma {:induction false} NewlinesJoined(ls: seq<string>)
    requires OneLiners(ls)
    ensures StripNewlines(Join(ls, '\n')) == Join(DropEmptyTail(ls), '\n')
    decreases |ls|
  {
    if |ls| >= 2 {
      var n := |ls| - 1;
      var init := Join(ls[..n], '\n');
      JoinLast(ls);
      if ls[n] == "" {
        assert (init + ['\n'] + ls[n])[..|init|] == init;
        NewlinesJoined(ls[..n]);
      } else {
        assert ls[n][|ls[n]| - 1] in ls[n];
      }
    } else if |ls| == 1 && ls[0] != "" {
      assert ls[0][|ls[0]| - 1] in ls[0];
    }
  }

  // A snapshot keeps every line, without the blanks at its end, and drops only the empty lines at the end of
  // the text.
  lemma NormalizeKeepsLines(text: string)
    ensures Normalize(text) == Join(KeptLines(text), '\n') + "\n"
    ensures OneLiners(KeptLines(text))
  {
    var unified := NoReturns(UnixLines(text));
    var ls := Lines(text);
    LinesAreSplit(text);
    LinesAreOneLiners(text);
    JoinSplit(unified, '\n');
    StripJoined(ls);
    forall k | 0 <= k < |ls| ensures OneLine(TrimLines(ls)[k]) { TrimStaysOneLine(ls[k]); }
    NewlinesJoined(TrimLines(ls));
  }

  lemma {:induction false} SplitJoined(ls: seq<string>)
    requires ls != [] && OneLiners(ls)
    ensures Split(Join(ls, '\n'), '\n') == ls
  {
    if |ls| == 1 {
      SplitNone(ls[0], '\n');
    } else {
      assert ls == [ls[0]] + ls[1..];
      JoinTwo(ls[0], ls[1..]);
      SplitAppend(ls[0], Join(ls[1..], '\n'), '\n');
      SplitNone(ls[0], '\n');
      SplitJoined(ls[1..]);
    }
  }

  lemma JoinedNotEmpty(ls: seq<string>)
    requires ls != [] && ls[|ls| - 1] != ""
    ensures Join(ls, '\n') != ""
  {
    if |ls| >= 2 { JoinLast(ls); }
  }

  // So two texts give the same snapshot exactly when they keep the same lines.
  lemma NormalizeAlikeIff(a: string, b: string)
    ensures Normalize(a) == Normalize(b) <==> KeptLines(a) == KeptLines(b)
  {
    NormalizeKeepsLines(a);
    NormalizeKeepsLines(b);
    var x, y := KeptLines(a), KeptLines(b);
    if Normalize(a) == Normalize(b) {
      assert Join(x, '\n') == Normalize(a)[..|Normalize(a)| - 1] == Join(y, '\n');
      if x != [] { JoinedNotEmpty(x); SplitJoined(x); }
      if y != [] { JoinedNotEmpty(y); SplitJoined(y); }
    }
  }

  // ---- The snapshot directory -----------------------------------------------------------------------

  type Files = map<string, string>

  predicate Covered(extensions: seq<string>, path: string) {
    exists i :: 0 <= i < |extensions| && EndsWith(path, extensions[i])
  }

  function Selected(extensions: seq<string>, files: Files): set<string> {
    set p | p in files && Covered(extensions, p)
  }

  // The selected files are those with one of the extensions at the end of their names.
  lemma SelectedExactly(extensions: seq<string>, files: Files, path: string)
    ensures path in Selected(extensions, files)
            <==> path in files && exists stem, extension :: extension in extensions && path == stem + extension
  {
    if path in Selected(extensions, files) {
      var i :| 0 <= i < |extensions| && EndsWith(path, extensions[i]);
      var n := |path| - |extensions[i]|;
      assert path == path[..n] + extensions[i] && extensions[i] in extensions;
    }
    if stem, extension :| extension in extensions && path == stem + extension {
      var i :| 0 <= i < |extensions| && extensions[i] == extension;
      assert EndsWith(path, extensions[i]);
    }
  }

  datatype Verdict = Verdict(missing: set<string>, extra: set<string>, mismatched: set<string>)
  {
    predicate Failed() { missing != {} || extra != {} || mismatched != {} }
  }

  // The directory after an update: one normalised file per selected generated file, nothing else.
  function Updated(generated: Files, extensions: seq<string>): Files {
    map p | p in Selected(extensions, generated) :: Normalize(generated[p])
  }

  function Compared(generated: Files, snapshots: Files, extensions: seq<string>): Verdict {
    var wanted, present := Selected(extensions, generated), Selected(extensions, snapshots);
    Verdict(wanted - present, present - wanted,
            set p | p in wanted * present && Normalize(generated[p]) != Normalize(snapshots[p]))
  }

  class SnapshotDirectory {
    var snapshots: Files

    constructor (snapshots: Files)
      ensures this.snapshots == snapshots
    {
      this.snapshots := snapshots;
    }

    method Update(generated: Files, extensions: seq<string>)
      modifies this
      ensures snapshots == Updated(generated, extensions)
    {
      snapshots := map[];
      var files := Selected(extensions, generated);
      var left := files;
      while left != {}
        invariant left <= files && snapshots.Keys == files - left
        invariant forall p :: p in snapshots ==> snapshots[p] == Normalize(generated[p])
        decreases |left|
      {
        var p :| p in left;
        left := left - {p};
        snapshots := snapshots[p := Normalize(generated[p])];
      }
    }

    // Names first, then the normalised texts of the common names.
    method Check(generated: Files, extensions: seq<string>) returns (v: Verdict)
      ensures v == Compared(generated, snapshots, extensions)
    {
      var wanted, present := Selected(extensions, generated), Selected(extensions, snapshots);
      var common := wanted * present;
      var left, mismatched := common, {};
      while left != {}
        invariant left <= common
        invariant mismatched == set p | p in common - left && Normalize(generated[p]) != Normalize(snapshots[p])
        decreases |left|
      {
        var p :| p in left;
        left := left - {p};
        if Normalize(generated[p]) != Normalize(snapshots[p]) { mismatched := mismatched + {p}; }
      }
      v := Verdict(wanted - present, present - wanted, mismatched);
    }
  }

  // What a check reports is what an update would do to a well-kept directory: the files it would add, those it
  // would delete, and those it would rewrite, which are the ones that keep other lines.
  lemma CheckForetellsUpdate(generated: Files, snapshots: Files, extensions: seq<string>)
    requires WellKept(snapshots, extensions)
    ensures var v, after := Compared(generated, snapshots, extensions), Updated(generated, extensions);
            && v.missing == after.Keys - snapshots.Keys && v.extra == snapshots.Keys - after.Keys
            && v.mismatched == (set p | p in after && p in snapshots && after[p] != snapshots[p])
            && v.mismatched == (set p | p in after && p in snapshots && KeptLines(generated[p]) != KeptLines(snapshots[p]))
  {
    KeptIsStored(snapshots, extensions);
    assert Selected(extensions, snapshots) == snapshots.Keys;
    forall p | p in Updated(generated, extensions) && p in snapshots
      ensures Normalize(snapshots[p]) == snapshots[p]
      ensures Normalize(generated[p]) == Normalize(snapshots[p]) <==> KeptLines(generated[p]) == KeptLines(snapshots[p]) {
      FixedIffCanonical(snapshots[p]);
      NormalizeAlikeIff(generated[p], snapshots[p]);
    }
  }

  // A check right after an update of the same generated tree finds nothing, whatever was there before.
  lemma UpdateThenCheckPasses(generated: Files, extensions: seq<string>)
    ensures Compared(generated, Updated(generated, extensions), extensions) == Verdict({}, {}, {})
    ensures forall p :: p in Updated(generated, extensions) ==> Canonical(Updated(generated, extensions)[p])
  {
    var snapshots := Updated(generated, extensions);
    forall p | p in snapshots ensures Normalize(snapshots[p]) == snapshots[p] && Canonical(snapshots[p]) {
      NormalizeIsIdempotent(generated[p]);
      NormalizeIsCanonical(generated[p]);
    }
    assert Selected(extensions, snapshots) == snapshots.Keys;
  }

  predicate WellKept(snapshots: Files, extensions: seq<string>) {
    forall p :: p in snapshots ==> Covered(extensions, p) && Canonical(snapshots[p])
  }

  lemma UpdatedSame(generated: Files, snapshots: Files, extensions: seq<string>)
    ensures Updated(generated, extensions) == Updated(snapshots, extensions) <==>
            && Selected(extensions, generated) == Selected(extensions, snapshots)
            && forall p :: p in Selected(extensions, generated) && p in snapshots ==>
                 Normalize(generated[p]) == Normalize(snapshots[p])
  {
    var u, v := Updated(generated, extensions), Updated(snapshots, extensions);
    assert u.Keys == Selected(extensions, generated) && v.Keys == Selected(extensions, snapshots);
    if u == v {
      forall p | p in u.Keys ensures Normalize(generated[p]) == Normalize(snapshots[p]) {
        assert u[p] == v[p];
      }
    }
  }

  // A check passes exactly when the two trees would be stored alike; and on a directory of selected canonical
  // files exactly when an update would change nothing.
  lemma CheckIsExact(generated: Files, snapshots: Files, extensions: seq<string>)
    ensures !Compared(generated, snapshots, extensions).Failed() <==>
              Updated(generated, extensions) == Updated(snapshots, extensions)
    ensures WellKept(snapshots, extensions) ==>
              (!Compared(generated, snapshots, extensions).Failed() <==> Updated(generated, extensions) == snapshots)
  {
    var v := Compared(generated, snapshots, extensions);
    var wanted, present := Selected(extensions, generated), Selected(extensions, snapshots);
    UpdatedSame(generated, snapshots, extensions);
    if !v.Failed() {
      assert wanted - present == {} && present - wanted == {};
      assert wanted == present;
      forall p | p in wanted ensures Normalize(generated[p]) == Normalize(snapshots[p]) {
        assert p !in v.mismatched;
      }
    } else if wanted == present {
      assert v.mismatched != {};
      var p :| p in v.mismatched;
    }
    if WellKept(snapshots, extensions) { KeptIsStored(snapshots, extensions); }
  }

  lemma KeptIsStored(snapshots: Files, extensions: seq<string>)
    requires WellKept(snapshots, extensions)
    ensures Updated(snapshots, extensions) == snapshots
  {
    assert Selected(extensions, snapshots) == snapshots.Keys;
    forall p | p in snapshots ensures Normalize(snapshots[p]) == snapshots[p] { FixedIffCanonical(snapshots[p]); }
  }

  // The directory that an update leaves is of that kind.
  lemma UpdateKeepsWell(generated: Files, extensions: seq<string>)
    ensures WellKept(Updated(generated, extensions), extensions)
  {
    forall p | p in Updated(generated, extensions) ensures Canonical(Updated(generated, extensions)[p]) {
      NormalizeIsCanonical(generated[p]);
    }
  }
}
