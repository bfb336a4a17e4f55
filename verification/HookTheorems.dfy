/** What repeated runs of the hook installer do. */
module HookTheorems {
  import opened Wrappers
  import opened Paths
  import opened Texts
  import opened HookInstaller

  // The section ends where its end marker first occurs after the begin marker.
  ghost predicate Closes(section: Section) {
    section.begin != "" && section.end != "" && Find(section.body + section.end, section.end) == |section.body|
  }

  // ---- One section at a known place -----------------------------------------------------------------

  lemma FindHead(m: string, rest: string)
    requires m != ""
    ensures Find(m + rest, m) == 0
  {
    assert StartsWith(m + rest, m);
  }

  lemma RegionFrom(s: string, begin: string, end: string, i: nat, after: string, j: nat)
    requires begin != "" && end != "" && Find(s, begin) == i && s[i + |begin|..] == after && Find(after, end) == j
    ensures Region(s, begin, end) == Some((i, i + |begin| + j + |end|))
  {
  }

  lemma BlockThen(section: Section, rest: string)
    ensures section.Block() + rest == section.begin + (section.body + section.end + rest)
    ensures (section.Block() + rest)[|section.begin|..] == section.body + section.end + rest
    ensures |section.Block()| == |section.begin| + |section.body| + |section.end|
  {
  }

  lemma Reassociate(a: string, b: string, c: string)
    ensures a + (b + c) == a + b + c
  {
  }

  // A whole section at the start of the text, followed by a line break.
  lemma RegionAtStart(section: Section, rest: string)
    requires Closes(section) && '\n' !in section.begin && '\n' !in section.end
    ensures Region(section.Block() + "\n" + rest, section.begin, section.end) == Some((0, |section.Block()|))
  {
    var s, tail := section.Block() + "\n" + rest, section.body + section.end;
    Reassociate(section.Block(), "\n", rest);
    BlockThen(section, "\n" + rest);
    FindHead(section.begin, tail + ("\n" + rest));
    Reassociate(tail, "\n", rest);
    FindAcross(tail, rest, section.end);
    RegionFrom(s, section.begin, section.end, 0, tail + "\n" + rest, |section.body|);
  }

  lemma SectionStarts(section: Section)
    requires section.begin != ""
    ensures Find(section.Block(), section.begin) == 0
  {
    assert section.Block() == section.begin + (section.body + section.end);
    FindHead(section.begin, section.body + section.end);
  }

  // ---- The pinned section on top ----------------------------------------------------------------------

  ghost predicate Topped(k: Installer, s: string, rest: string) {
    s == k.pinned.Block() + "\n" + rest && (rest == "" || !IsSpace(rest[0]))
  }

  lemma DropThenTrim(s: string)
    ensures TrimStart(DropNewlines(s)) == TrimStart(s)
  {
    if s != "" && s[0] == '\n' { DropThenTrim(s[1..]); }
  }

  lemma PinnedGoesOnTop(k: Installer, s: string) returns (rest: string)
    requires SectionsOk(k) && Repairable(s, k.pinned)
    ensures Topped(k, WithPinned(k.pinned, s), rest)
  {
    rest := TrimStart(WithoutPinned(k.pinned, s));
    TrimStartTrims(WithoutPinned(k.pinned, s));
  }

  // Whatever pinned section is on top, installing renews it and trims the text below.
  lemma PinnedUpgrade(k: Installer, older: Section, rest: string)
    requires MarkersOk(k) && Closes(older) && older.begin == k.pinned.begin && older.end == k.pinned.end
    requires CountOccurrences(older.Block() + "\n" + rest, k.pinned.begin) == 1
    ensures WithPinned(k.pinned, older.Block() + "\n" + rest) == k.pinned.Block() + "\n" + TrimStart(rest)
  {
    var s, n := older.Block() + "\n" + rest, |older.Block()|;
    RegionAtStart(older, rest);
    assert s[n..] == "\n" + rest && s[..0] == "";
    DropThenTrim("\n" + rest);
    assert ("\n" + rest)[1..] == rest;
    assert s[..0] + DropNewlines(s[n..]) == DropNewlines(s[n..]);
  }

  lemma PinnedAgain(k: Installer, s: string, rest: string)
    requires SectionsOk(k) && Topped(k, s, rest)
    requires CountOccurrences(s, k.pinned.begin) == 1 && CountOccurrences(s, k.pinned.end) == 1
    ensures Repairable(s, k.pinned) && WithPinned(k.pinned, s) == s
  {
    PinnedUpgrade(k, k.pinned, rest);
    assert TrimStart(rest) == rest;
  }

  // ---- The repository section -------------------------------------------------------------------------

  lemma BlockEnds(section: Section)
    requires IsMarker(section.begin) && IsMarker(section.end)
    ensures section.Block() != "" && !IsSpace(section.Block()[0])
    ensures !IsSpace(section.Block()[|section.Block()| - 1])
  {
  }

  lemma TrimBelow(p: string, rest: string)
    requires p != "" && !IsSpace(p[|p| - 1]) && !Blank(rest)
    ensures TrimEnd(p + "\n" + rest) == p + "\n" + TrimEnd(rest)
  {
    Reassociate(p, "\n", rest);
    TrimEndKeeps(p, "\n" + rest);
    TrimEndAfterBreak(rest);
    Reassociate(p, "\n", TrimEnd(rest));
  }

  lemma Stack(p: string, x: string, r: string)
    ensures p + "\n" + x + "\n\n" + r + "\n" == p + "\n" + (x + "\n\n" + r + "\n")
  {
  }

  lemma AppendKeepsTop(k: Installer, rest: string) returns (more: string)
    requires SectionsOk(k) && !Blank(rest) && !IsSpace(rest[0])
    ensures var t := k.pinned.Block() + "\n" + rest;
            Topped(k, TrimEnd(t) + "\n\n" + k.repository.Block() + "\n", more)
    ensures more == TrimEnd(rest) + "\n\n" + k.repository.Block() + "\n"
  {
    var p, r := k.pinned.Block(), k.repository.Block();
    BlockEnds(k.pinned);
    TrimBelow(p, rest);
    TrimEndNonBlank(rest);
    more := TrimEnd(rest) + "\n\n" + r + "\n";
    Stack(p, TrimEnd(rest), r);
    assert more[0] == TrimEnd(rest)[0];
  }

  lemma CutBelow(p: string, rest: string, n: nat, r: string, after: string)
    requires n <= |rest|
    ensures (p + "\n" + rest)[..|p| + 1 + n] + r + after == p + "\n" + (rest[..n] + r + after)
  {
    assert (p + "\n" + rest)[..|p| + 1 + n] == p + "\n" + rest[..n];
  }

  lemma ReplaceKeepsTop(k: Installer, rest: string, i: nat, j: nat) returns (more: string)
    requires SectionsOk(k) && (rest == "" || !IsSpace(rest[0]))
    requires var t := k.pinned.Block() + "\n" + rest;
             Region(t, k.repository.begin, k.repository.end) == Some((i, j))
    ensures var t := k.pinned.Block() + "\n" + rest;
            Topped(k, t[..i] + k.repository.Block() + t[j..], more)
  {
    var p, r, m := k.pinned.Block(), k.repository.Block(), k.repository.begin;
    FindAcross(p, rest, m);
    BlockEnds(k.repository);
    assert m in [m, k.repository.end, k.beads] && Find(p, m) < 0;
    var n, after := i - |p| - 1, (p + "\n" + rest)[j..];
    more := rest[..n] + r + after;
    CutBelow(p, rest, n, r, after);
    assert more[0] == if n > 0 then rest[0] else r[0];
  }

  lemma RepositoryKeepsTop(k: Installer, t: string, rest: string) returns (more: string)
    requires SectionsOk(k) && Topped(k, t, rest) && !Blank(rest) && Repairable(t, k.repository)
    ensures Topped(k, WithRepository(k.repository, t), more)
  {
    if CountOccurrences(t, k.repository.begin) != 1 {
      more := AppendKeepsTop(k, rest);
    } else {
      match Region(t, k.repository.begin, k.repository.end)
      case None => more := rest;
      case Some(r) => more := ReplaceKeepsTop(k, rest, r.0, r.1);
    }
  }

  lemma InsideParts(before: string, section: Section, after: string)
    ensures (before + section.Block() + after)[|before| + |section.begin|..] == section.body + section.end + after
    ensures |section.Block()| == |section.begin| + |section.body| + |section.end|
  {
  }

  // Text before and after a section that is the first match.
  lemma RegionInside(section: Section, before: string, after: string)
    requires Closes(section)
    requires Find(before + section.Block() + after, section.begin) == |before|
    ensures Region(before + section.Block() + after, section.begin, section.end)
            == Some((|before|, |before| + |section.Block()|))
  {
    var tail := section.body + section.end;
    InsideParts(before, section, after);
    assert (tail + after)[..|tail|] == tail == tail[..|tail|];
    FindInPrefix(tail, tail + after, section.end);
    RegionFrom(before + section.Block() + after, section.begin, section.end, |before|, tail + after, |section.body|);
  }

  lemma CommonHead(t: string, i: nat, section: Section, after: string)
    requires i + |section.begin| <= |t| && t[i..i + |section.begin|] == section.begin
    ensures (t[..i] + section.Block() + after)[..i + |section.begin|] == t[..i + |section.begin|]
  {
  }

  lemma FindReplaced(section: Section, t: string, i: nat, after: string)
    requires section.begin != "" && Find(t, section.begin) == i
    ensures Find(t[..i] + section.Block() + after, section.begin) == i
  {
    FindHits(t, section.begin);
    CommonHead(t, i, section, after);
    FindInPrefix(t, t[..i] + section.Block() + after, section.begin);
  }

  lemma ReplacedInPlace(section: Section, t: string, i: nat, j: nat)
    requires Closes(section)
    requires Region(t, section.begin, section.end) == Some((i, j))
    ensures Region(t[..i] + section.Block() + t[j..], section.begin, section.end) == Some((i, i + |section.Block()|))
  {
    FindReplaced(section, t, i, t[j..]);
    RegionInside(section, t[..i], t[j..]);
  }

  lemma AppendParts(t: string, r: string)
    ensures t + "\n\n" + r + "\n" == t + "\n" + ("" + "\n" + (r + "\n" + ""))
    ensures t + "\n\n" + r + "\n" == (t + "\n\n") + r + "\n"
  {
  }

  lemma FindAppended(t: string, r: string, m: string)
    requires m != "" && '\n' !in m && Find(t, m) < 0 && Find(r, m) == 0
    ensures Find(t + "\n\n" + r + "\n", m) == |t| + 2
  {
    AppendParts(t, r);
    FindAcross(r, "", m);
    FindInEmpty(m);
    FindAcross("", r + "\n" + "", m);
    FindAcross(t, "" + "\n" + (r + "\n" + ""), m);
  }

  lemma AppendedAtEnd(section: Section, t: string, before: string)
    requires Closes(section) && '\n' !in section.begin && Find(section.Block(), section.begin) == 0
    requires Find(t, section.begin) < 0 && before == t + "\n\n"
    ensures Region(before + section.Block() + "\n", section.begin, section.end)
            == Some((|before|, |before| + |section.Block()|))
  {
    FindAppended(t, section.Block(), section.begin);
    RegionInside(section, before, "\n");
  }

  lemma FindInEmpty(m: string)
    requires m != ""
    ensures Find("", m) == -1
  {
  }

  // Installing the repository section twice is installing it once.
  lemma RepositoryAgain(section: Section, t: string)
    requires IsMarker(section.begin) && IsMarker(section.end) && OwnMarkers(section) && Repairable(t, section)
    ensures var u := WithRepository(section, t);
            CountOccurrences(u, section.begin) == 1 ==> WithRepository(section, u) == u
  {
    var u := WithRepository(section, t);
    if CountOccurrences(t, section.begin) != 1 {
      TrimEndCounts(t, section.begin);
      CountNone(TrimEnd(t), section.begin);
      SectionStarts(section);
      AppendedAtEnd(section, TrimEnd(t), TrimEnd(t) + "\n\n");
      PutBack(TrimEnd(t) + "\n\n", section.Block(), "\n");
    } else if Region(t, section.begin, section.end).Some? {
      var r := Region(t, section.begin, section.end).value;
      ReplacedInPlace(section, t, r.0, r.1);
      PutBack(t[..r.0], section.Block(), t[r.1..]);
    }
  }

  lemma PutBack(before: string, block: string, after: string)
    ensures var u := before + block + after; u[..|before|] + block + u[|before| + |block|..] == u
  {
  }

  // ---- The fixed point --------------------------------------------------------------------------------

  // With nothing below the pinned section, the Beads marker would be missing from the result.
  lemma BareHookFails(k: Installer)
    requires SectionsOk(k)
    ensures !Verified(k, false, WithRepository(k.repository, k.pinned.Block() + "\n" + ""))
  {
    var p, r := k.pinned.Block(), k.repository.Block();
    var t := p + "\n" + "";
    var own := [k.repository.begin, k.repository.end, k.beads];
    assert own[0] in own && own[2] in own;
    CountAcross(p, "", k.repository.begin);
    CountNone(p, k.repository.begin);
    BlockEnds(k.pinned);
    TrimEndKeeps(p, "\n");
    assert TrimEnd("\n") == "" by { assert "\n"[..0] == ""; }
    assert t == p + "\n" && TrimEnd(t) == p + "" == p;
    BeadsInBlocks(k);
  }

  lemma BeadsInBlocks(k: Installer)
    requires SectionsOk(k)
    ensures CountOccurrences(k.pinned.Block() + "\n\n" + k.repository.Block() + "\n", k.beads) == 0
  {
    var p, r, m := k.pinned.Block(), k.repository.Block(), k.beads;
    assert m in [k.repository.begin, k.repository.end, k.beads] && m in [k.pinned.begin, k.pinned.end, k.beads];
    assert p + "\n\n" + r + "\n" == p + "\n" + ("" + "\n" + (r + "\n" + ""));
    CountAcross(p, "" + "\n" + (r + "\n" + ""), m);
    CountAcross("", r + "\n" + "", m);
    CountAcross(r, "", m);
    CountNone(p, m);
    CountNone(r, m);
    CountNone("", m);
  }

  lemma HeadDecides(s: string)
    requires s == "" || !IsSpace(s[0])
    ensures Blank(s) <==> s == ""
  {
    if s != "" { assert s[0] in s; }
  }

  lemma TopAfterRun(k: Installer, s: string) returns (rest: string)
    requires SectionsOk(k) && Find(s, k.beads) >= 0 && Install(k, false, s).Some?
    ensures Topped(k, Install(k, false, s).value, rest)
  {
    var t := WithPinned(k.pinned, s);
    var below := PinnedGoesOnTop(k, s);
    HeadDecides(below);
    if below == "" { BareHookFails(k); }
    rest := RepositoryKeepsTop(k, t, below);
  }

  // A run that succeeds leaves a hook on which every further run succeeds and changes nothing. Without
  // the override the hook must be one that Beads manages, as it is after Beads has installed its own part.
  lemma InstallIsFixedPoint(k: Installer, override: bool, s: string)
    requires SectionsOk(k) && (override || Find(s, k.beads) >= 0)
    requires Install(k, override, s).Some?
    ensures Install(k, override, Install(k, override, s).value) == Install(k, override, s)
  {
    var t := PinnedStep(k, override, s).value;
    var u := Install(k, override, s).value;
    RepositoryAgain(k.repository, t);
    CountNone(u, k.beads);
    if !override {
      var rest := TopAfterRun(k, s);
      PinnedAgain(k, u, rest);
    }
  }

  // ---- A hook without Genes sections ------------------------------------------------------------------

  lemma CountEmpty(m: string)
    requires m != ""
    ensures CountOccurrences("", m) == 0
  {
    FindInEmpty(m);
  }

  lemma Sandwich(p: string, x: string, r: string, m: string)
    requires IsMarker(m)
    ensures CountOccurrences(p + "\n" + x + "\n\n" + r + "\n", m)
            == CountOccurrences(p, m) + CountOccurrences(x, m) + CountOccurrences(r, m)
  {
    assert p + "\n" + x + "\n\n" + r + "\n" == p + "\n" + (x + "\n" + ("" + "\n" + (r + "\n" + "")));
    CountAcross(p, x + "\n" + ("" + "\n" + (r + "\n" + "")), m);
    CountAcross(x, "" + "\n" + (r + "\n" + ""), m);
    CountAcross("", r + "\n" + "", m);
    CountAcross(r, "", m);
    CountEmpty(m);
  }

  // How often each marker occurs in the two blocks.
  ghost predicate Tally(k: Installer)
    requires MarkersOk(k)
  {
    var p, r := k.pinned.Block(), k.repository.Block();
    && CountOccurrences(p, k.pinned.begin) == CountOccurrences(p, k.pinned.end) == 1
    && CountOccurrences(p, k.repository.begin) == CountOccurrences(p, k.repository.end) == 0
    && CountOccurrences(p, k.beads) == CountOccurrences(r, k.beads) == 0
    && CountOccurrences(r, k.pinned.begin) == CountOccurrences(r, k.pinned.end) == 0
    && CountOccurrences(r, k.repository.begin) == CountOccurrences(r, k.repository.end) == 1
  }

  lemma BlockCounts(k: Installer)
    requires SectionsOk(k)
    ensures Tally(k)
  {
    var p, r := k.pinned.Block(), k.repository.Block();
    var a, b := [k.repository.begin, k.repository.end, k.beads], [k.pinned.begin, k.pinned.end, k.beads];
    assert a[0] in a && a[1] in a && a[2] in a && b[0] in b && b[1] in b && b[2] in b;
    CountNone(p, k.repository.begin);
    CountNone(p, k.repository.end);
    CountNone(p, k.beads);
    CountNone(r, k.pinned.begin);
    CountNone(r, k.pinned.end);
    CountNone(r, k.beads);
  }

  ghost predicate NoGenesMarkers(k: Installer, s: string)
    requires Named(k)
  {
    && CountOccurrences(s, k.pinned.begin) == CountOccurrences(s, k.pinned.end) == 0
    && CountOccurrences(s, k.repository.begin) == CountOccurrences(s, k.repository.end) == 0
  }

  lemma TrimsCount(s: string, m: string)
    requires IsMarker(m)
    ensures CountOccurrences(TrimStart(s), m) == CountOccurrences(s, m)
    ensures CountOccurrences(TrimEnd(TrimStart(s)), m) == CountOccurrences(s, m)
  {
    TrimStartCounts(s, m);
    TrimEndCounts(TrimStart(s), m);
  }

  lemma FreshCount(p: string, s: string, r: string, m: string)
    requires IsMarker(m)
    ensures CountOccurrences(p + "\n" + TrimEnd(TrimStart(s)) + "\n\n" + r + "\n", m)
            == CountOccurrences(p, m) + CountOccurrences(s, m) + CountOccurrences(r, m)
  {
    Sandwich(p, TrimEnd(TrimStart(s)), r, m);
    TrimsCount(s, m);
  }

  lemma FreshVerified(k: Installer, s: string, x: string)
    requires MarkersOk(k) && Tally(k) && NoGenesMarkers(k, s) && CountOccurrences(s, k.beads) == 1
    requires x == TrimEnd(TrimStart(s))
    ensures Verified(k, false, k.pinned.Block() + "\n" + x + "\n\n" + k.repository.Block() + "\n")
  {
    var p, r := k.pinned.Block(), k.repository.Block();
    FreshCount(p, s, r, k.beads);
    FreshCount(p, s, r, k.pinned.begin);
    FreshCount(p, s, r, k.pinned.end);
    FreshCount(p, s, r, k.repository.begin);
    FreshCount(p, s, r, k.repository.end);
  }

  lemma FreshPinned(k: Installer, s: string)
    requires MarkersOk(k) && NoGenesMarkers(k, s) && CountOccurrences(s, k.beads) == 1
    ensures PinnedStep(k, false, s) == Some(k.pinned.Block() + "\n" + TrimStart(s))
    ensures !Blank(TrimStart(s))
  {
    CountNone(s, k.beads);
    TrimStartTrims(s);
    TrimsCount(s, k.beads);
    CountEmpty(k.beads);
    HeadDecides(TrimStart(s));
  }

  lemma FreshRepository(k: Installer, s: string, rest: string)
    requires MarkersOk(k) && Tally(k) && NoGenesMarkers(k, s) && rest == TrimStart(s) && !Blank(rest)
    ensures RepositoryStep(k, k.pinned.Block() + "\n" + rest)
            == Some(k.pinned.Block() + "\n" + TrimEnd(rest) + "\n\n" + k.repository.Block() + "\n")
  {
    var p := k.pinned.Block();
    TrimsCount(s, k.repository.begin);
    TrimsCount(s, k.repository.end);
    CountAcross(p, rest, k.repository.begin);
    CountAcross(p, rest, k.repository.end);
    BlockEnds(k.pinned);
    TrimBelow(p, rest);
  }

  // A Beads hook without Genes markers gets both sections, and keeps its own text up to white space at
  // its two ends.
  lemma FreshHookInstalls(k: Installer, s: string)
    requires SectionsOk(k) && NoGenesMarkers(k, s) && CountOccurrences(s, k.beads) == 1
    ensures Install(k, false, s)
            == Some(k.pinned.Block() + "\n" + TrimEnd(TrimStart(s)) + "\n\n" + k.repository.Block() + "\n")
  {
    BlockCounts(k);
    FreshPinned(k, s);
    FreshRepository(k, s, TrimStart(s));
    FreshVerified(k, s, TrimEnd(TrimStart(s)));
  }

  // ---- Sections on lines of their own -----------------------------------------------------------------

  // Text that ends where a line starts, and text that starts where a line ends.
  predicate Ends(x: string) { x == "" || x[|x| - 1] == '\n' }

  predicate Starts(y: string) { y == "" || y[0] == '\n' }

  lemma Cut(x: string, y: string)
    requires Ends(x) || Starts(y)
    ensures x != "" && Ends(x) ==> x == x[..|x| - 1] + "\n" && x + y == x[..|x| - 1] + "\n" + y
    ensures y != "" && Starts(y) ==> y == "\n" + y[1..] && x + y == x + "\n" + y[1..]
  {
  }

  lemma CountBreak(x: string, m: string)
    requires IsMarker(m)
    ensures CountOccurrences(x + "\n", m) == CountOccurrences(x, m)
    ensures CountOccurrences("\n" + x, m) == CountOccurrences(x, m)
  {
    CountAcross(x, "", m);
    CountAcross("", x, m);
    CountEmpty(m);
    assert x + "\n" + "" == x + "\n" && "" + "\n" + x == "\n" + x;
  }

  lemma CountJoin(x: string, y: string, m: string)
    requires IsMarker(m) && (Ends(x) || Starts(y))
    ensures CountOccurrences(x + y, m) == CountOccurrences(x, m) + CountOccurrences(y, m)
  {
    Cut(x, y);
    CountEmpty(m);
    if x == "" {
      assert x + y == y;
    } else if y == "" {
      assert x + y == x;
    } else if Ends(x) {
      CountAcross(x[..|x| - 1], y, m);
      CountBreak(x[..|x| - 1], m);
    } else {
      CountAcross(x, y[1..], m);
      CountBreak(y[1..], m);
    }
  }

  lemma FindAfter(x: string, y: string, m: string)
    requires IsMarker(m) && Ends(x) && Find(x, m) < 0
    ensures Find(x + y, m) == if Find(y, m) >= 0 then |x| + Find(y, m) else -1
  {
    if x == "" {
      assert x + y == y;
    } else {
      var init := x[..|x| - 1];
      Cut(x, y);
      FindAcross(init, y, m);
      FindAcross(init, "", m);
      FindInEmpty(m);
      assert init + "\n" + "" == x;
    }
  }

  lemma {:induction false} TrimBefore(x: string, z: string)
    requires z != "" && !IsSpace(z[0])
    ensures TrimStart(x + z) == TrimStart(x) + z
    decreases |x|
  {
    if x == "" {
      assert x + z == z;
    } else {
      assert (x + z)[0] == x[0] && (x + z)[1..] == x[1..] + z;
      if IsSpace(x[0]) { TrimBefore(x[1..], z); }
    }
  }

  lemma {:induction false} DropBefore(x: string, z: string)
    requires z != "" && z[0] != '\n'
    ensures DropNewlines(x + z) == DropNewlines(x) + z
    decreases |x|
  {
    if x == "" {
      assert x + z == z;
    } else {
      assert (x + z)[0] == x[0] && (x + z)[1..] == x[1..] + z;
      if x[0] == '\n' { DropBefore(x[1..], z); }
    }
  }

  lemma {:induction false} TrimKeepsEnd(x: string)
    requires Ends(x)
    ensures Ends(TrimStart(x))
    decreases |x|
  {
    if x != "" && IsSpace(x[0]) { TrimKeepsEnd(x[1..]); }
  }

  lemma {:induction false} DropKeepsEnd(x: string)
    requires Ends(x)
    ensures Ends(DropNewlines(x))
    decreases |x|
  {
    if x != "" && x[0] == '\n' { DropKeepsEnd(x[1..]); }
  }

  lemma {:induction false} DropCounts(x: string, m: string)
    requires IsMarker(m)
    ensures CountOccurrences(DropNewlines(x), m) == CountOccurrences(x, m)
    decreases |x|
  {
    if x != "" && x[0] == '\n' {
      CountSkipsSpace(x, m);
      DropCounts(x[1..], m);
    }
  }

  // ---- A hook with older sections ---------------------------------------------------------------------

  // Where the older sections of a hook stand, and the text around them.
  datatype Layout =
    | Plain(text: string)
    | PinnedOnly(before: string, pinned: Section, after: string)
    | RepositoryOnly(before: string, repository: Section, after: string)
    | PinnedFirst(before: string, pinned: Section, between: string, repository: Section, after: string)
    | RepositoryFirst(before: string, repository: Section, between: string, pinned: Section, after: string)
  {
    function Text(): string {
      match this
      case Plain(x) => x
      case PinnedOnly(x, p, y) => x + p.Block() + y
      case RepositoryOnly(x, r, y) => x + r.Block() + y
      case PinnedFirst(x, p, y, r, z) => x + p.Block() + (y + r.Block() + z)
      case RepositoryFirst(x, r, y, p, z) => x + r.Block() + y + p.Block() + z
    }

    // The texts outside the sections, in order.
    function Outside(): seq<string> {
      match this
      case Plain(x) => [x]
      case PinnedOnly(x, _, y) => [x, y]
      case RepositoryOnly(x, _, y) => [x, y]
      case PinnedFirst(x, _, y, _, z) => [x, y, z]
      case RepositoryFirst(x, _, y, _, z) => [x, y, z]
    }
  }

  // An older section with the same markers, free of the other ones.
  ghost predicate OlderSection(prior: Section, now: Section, others: seq<string>) {
    && prior.begin == now.begin && prior.end == now.end && now.begin != "" && now.end != "" && Closes(prior)
    && CountOccurrences(prior.Block(), now.begin) == 1 && CountOccurrences(prior.Block(), now.end) == 1
    && forall m :: m in others ==> m != "" && CountOccurrences(prior.Block(), m) == 0
  }

  ghost predicate OlderPinned(k: Installer, p: Section) {
    OlderSection(p, k.pinned, [k.repository.begin, k.repository.end, k.beads])
  }

  ghost predicate OlderRepository(k: Installer, r: Section) {
    OlderSection(r, k.repository, [k.pinned.begin, k.pinned.end, k.beads])
  }

  // The sections are older ones, each on lines of its own; the text around them has no Genes marker.
  ghost predicate WellLaid(k: Installer, l: Layout)
    requires MarkersOk(k)
  {
    && (forall x :: x in l.Outside() ==> NoGenesMarkers(k, x))
    && match l
       case Plain(_) => true
       case PinnedOnly(x, p, y) => OlderPinned(k, p) && Ends(x) && Starts(y)
       case RepositoryOnly(x, r, y) => OlderRepository(k, r) && Ends(x) && Starts(y)
       case PinnedFirst(x, p, y, r, z) =>
         OlderPinned(k, p) && OlderRepository(k, r) && Ends(x) && Starts(y) && y != "" && Ends(y) && Starts(z)
       case RepositoryFirst(x, r, y, p, z) =>
         OlderPinned(k, p) && OlderRepository(k, r) && Ends(x) && Starts(y) && y != "" && Ends(y) && Starts(z)
  }

  function CountAll(xs: seq<string>, m: string): nat
    requires m != ""
  {
    if xs == [] then 0 else CountOccurrences(xs[0], m) + CountAll(xs[1..], m)
  }

  lemma CountFew(x: string, y: string, z: string, m: string)
    requires m != ""
    ensures CountAll([x], m) == CountOccurrences(x, m)
    ensures CountAll([x, y], m) == CountOccurrences(x, m) + CountOccurrences(y, m)
    ensures CountAll([x, y, z], m) == CountOccurrences(x, m) + CountOccurrences(y, m) + CountOccurrences(z, m)
  {
    assert [x][1..] == [] && [x, y][1..] == [y] && [y][1..] == [] && [x, y, z][1..] == [y, z] && [y, z][1..] == [z];
    assert CountAll([z], m) == CountOccurrences(z, m) + CountAll([z][1..], m);
    assert CountAll([y, z], m) == CountOccurrences(y, m) + CountAll([z], m);
  }

  // What is left of a hook when its pinned section and the line breaks after it are gone.
  datatype Rest = Bare(text: string) | Around(before: string, repository: Section, after: string)
  {
    function Text(): string {
      match this
      case Bare(x) => x
      case Around(x, r, y) => x + r.Block() + y
    }
  }

  function Unpinned(l: Layout): Rest {
    match l
    case Plain(x) => Bare(x)
    case PinnedOnly(x, _, y) => Bare(x + DropNewlines(y))
    case RepositoryOnly(x, r, y) => Around(x, r, y)
    case PinnedFirst(x, _, y, r, z) => Around(x + DropNewlines(y), r, z)
    case RepositoryFirst(x, r, y, _, z) => Around(x, r, y + DropNewlines(z))
  }

  // The pinned section on top, then the rest with its repository section renewed in place or appended.
  function Renewed(k: Installer, rest: Rest): string {
    k.pinned.Block() + "\n" +
    match rest
    case Bare(x) => TrimEnd(TrimStart(x)) + "\n\n" + k.repository.Block() + "\n"
    case Around(x, _, y) => TrimStart(x) + k.repository.Block() + y
  }

  // The markers of a rest: none of the pinned section, one pair of the repository section if it is there.
  ghost predicate RestOk(k: Installer, rest: Rest)
    requires MarkersOk(k)
  {
    match rest
    case Bare(x) => NoGenesMarkers(k, x) && CountOccurrences(x, k.beads) == 1
    case Around(x, r, y) =>
      && NoGenesMarkers(k, x) && NoGenesMarkers(k, y) && OlderRepository(k, r) && Ends(x) && Starts(y)
      && CountOccurrences(x, k.beads) + CountOccurrences(y, k.beads) == 1
  }

  // ---- The pinned step --------------------------------------------------------------------------------

  lemma OlderBegins(section: Section)
    requires IsMarker(section.begin) && IsMarker(section.end)
    ensures section.Block() != "" && !IsSpace(section.Block()[0]) && section.Block()[0] != '\n'
  {
    BlockEnds(section);
  }

  lemma RegionLaid(older: Section, x: string, y: string)
    requires IsMarker(older.begin) && Closes(older) && Ends(x) && Find(x, older.begin) < 0
    ensures Region(x + older.Block() + y, older.begin, older.end) == Some((|x|, |x| + |older.Block()|))
  {
    BlockThen(older, y);
    FindHead(older.begin, older.body + older.end + y);
    FindAfter(x, older.Block() + y, older.begin);
    Reassociate(x, older.Block(), y);
    assert Find(x + older.Block() + y, older.begin) == |x| + 0;
    RegionInside(older, x, y);
  }

  lemma PinnedOut(k: Installer, older: Section, x: string, y: string)
    requires MarkersOk(k) && Closes(older) && older.begin == k.pinned.begin && older.end == k.pinned.end
    requires Ends(x) && Find(x, k.pinned.begin) < 0
    requires CountOccurrences(x + older.Block() + y, k.pinned.begin) == 1
    ensures WithPinned(k.pinned, x + older.Block() + y) == k.pinned.Block() + "\n" + TrimStart(x + DropNewlines(y))
  {
    RegionLaid(older, x, y);
    var s, n := x + older.Block() + y, |x| + |older.Block()|;
    assert s[..|x|] == x && s[n..] == y;
  }

  lemma CountThree(x: string, o: string, y: string, m: string)
    requires IsMarker(m) && Ends(x) && Starts(y)
    ensures CountOccurrences(x + o + y, m) == CountOccurrences(x, m) + CountOccurrences(o, m) + CountOccurrences(y, m)
  {
    CountJoin(x + o, y, m);
    CountJoin(x, o, m);
  }

  lemma CountFive(x: string, o: string, y: string, q: string, z: string, m: string)
    requires IsMarker(m) && Ends(x) && Starts(y) && Ends(y) && Starts(z) && y != ""
    ensures CountOccurrences(x + o + (y + q + z), m)
            == CountOccurrences(x, m) + CountOccurrences(o, m) + CountOccurrences(y, m) + CountOccurrences(q, m) + CountOccurrences(z, m)
    ensures CountOccurrences(x + o + y + q + z, m)
            == CountOccurrences(x, m) + CountOccurrences(o, m) + CountOccurrences(y, m) + CountOccurrences(q, m) + CountOccurrences(z, m)
  {
    assert Starts(y + q + z) by { assert (y + q + z)[0] == y[0]; }
    assert Ends(x + o + y) by { assert (x + o + y)[|x + o + y| - 1] == y[|y| - 1]; }
    CountThree(x, o, y + q + z, m);
    CountThree(y, q, z, m);
    CountThree(x, o, y, m);
    CountThree(x + o + y, q, z, m);
  }

  // In a well-laid hook the sections hold their own markers once, and nothing else does.
  lemma LaidCounts(k: Installer, l: Layout, m: string)
    requires MarkersOk(k) && WellLaid(k, l) && IsMarker(m)
    ensures CountOccurrences(l.Text(), m) == CountAll(l.Outside(), m)
              + (if l.PinnedOnly? || l.PinnedFirst? || l.RepositoryFirst? then CountOccurrences(l.pinned.Block(), m) else 0)
              + (if l.RepositoryOnly? || l.PinnedFirst? || l.RepositoryFirst? then CountOccurrences(l.repository.Block(), m) else 0)
  {
    match l
    case Plain(x) => CountFew(x, "", "", m);
    case PinnedOnly(x, p, y) => CountFew(x, y, "", m); CountThree(x, p.Block(), y, m);
    case RepositoryOnly(x, r, y) => CountFew(x, y, "", m); CountThree(x, r.Block(), y, m);
    case PinnedFirst(x, p, y, r, z) => CountFew(x, y, z, m); CountFive(x, p.Block(), y, r.Block(), z, m);
    case RepositoryFirst(x, r, y, p, z) => CountFew(x, y, z, m); CountFive(x, r.Block(), y, p.Block(), z, m);
  }

  lemma NoneIn(k: Installer, x: string)
    requires MarkersOk(k) && NoGenesMarkers(k, x)
    ensures Find(x, k.pinned.begin) < 0 && Find(x, k.repository.begin) < 0
  {
    CountNone(x, k.pinned.begin);
    CountNone(x, k.repository.begin);
  }

  lemma OthersOf(k: Installer, l: Layout)
    requires MarkersOk(k) && WellLaid(k, l)
    ensures l.PinnedOnly? || l.PinnedFirst? || l.RepositoryFirst? ==>
              var p := l.pinned.Block();
              && CountOccurrences(p, k.pinned.begin) == CountOccurrences(p, k.pinned.end) == 1
              && CountOccurrences(p, k.repository.begin) == CountOccurrences(p, k.repository.end) == CountOccurrences(p, k.beads) == 0
    ensures l.RepositoryOnly? || l.PinnedFirst? || l.RepositoryFirst? ==>
              var r := l.repository.Block();
              && CountOccurrences(r, k.repository.begin) == CountOccurrences(r, k.repository.end) == 1
              && CountOccurrences(r, k.pinned.begin) == CountOccurrences(r, k.pinned.end) == CountOccurrences(r, k.beads) == 0
  {
    var a, b := [k.repository.begin, k.repository.end, k.beads], [k.pinned.begin, k.pinned.end, k.beads];
    assert a[0] in a && a[1] in a && a[2] in a && b[0] in b && b[1] in b && b[2] in b;
  }

  lemma {:induction false} NoneInAll(xs: seq<string>, m: string)
    requires m != "" && forall x :: x in xs ==> CountOccurrences(x, m) == 0
    ensures CountAll(xs, m) == 0
    decreases |xs|
  {
    if xs != [] {
      assert xs[0] in xs && forall x :: x in xs[1..] ==> x in xs;
      NoneInAll(xs[1..], m);
    }
  }

  lemma FreeTexts(k: Installer, l: Layout)
    requires MarkersOk(k) && WellLaid(k, l)
    ensures CountAll(l.Outside(), k.pinned.begin) == CountAll(l.Outside(), k.pinned.end) == 0
  {
    NoneInAll(l.Outside(), k.pinned.begin);
    NoneInAll(l.Outside(), k.pinned.end);
  }

  predicate HasPinned(l: Layout) { l.PinnedOnly? || l.PinnedFirst? || l.RepositoryFirst? }

  lemma PinnedCounts(k: Installer, l: Layout)
    requires MarkersOk(k) && WellLaid(k, l) && CountAll(l.Outside(), k.beads) == 1
    ensures var s := l.Text();
            && CountOccurrences(s, k.pinned.begin) == CountOccurrences(s, k.pinned.end) == (if HasPinned(l) then 1 else 0)
            && Find(s, k.beads) >= 0
  {
    OthersOf(k, l);
    FreeTexts(k, l);
    LaidCounts(k, l, k.pinned.begin);
    LaidCounts(k, l, k.pinned.end);
    LaidCounts(k, l, k.beads);
    CountNone(l.Text(), k.beads);
  }

  lemma Shift(x: string, d: string, r: string, z: string)
    ensures x + (d + (r + z)) == x + d + r + z
  {
  }

  lemma PinnedFirstOut(k: Installer, x: string, p: Section, y: string, r: Section, z: string)
    requires MarkersOk(k) && WellLaid(k, PinnedFirst(x, p, y, r, z))
    requires CountOccurrences(PinnedFirst(x, p, y, r, z).Text(), k.pinned.begin) == 1
    ensures WithPinned(k.pinned, PinnedFirst(x, p, y, r, z).Text())
            == k.pinned.Block() + "\n" + TrimStart(x + DropNewlines(y) + r.Block() + z)
  {
    var l := PinnedFirst(x, p, y, r, z);
    assert l.Outside()[0] == x && x in l.Outside();
    NoneIn(k, x);
    PinnedOut(k, p, x, y + r.Block() + z);
    OlderBegins(r);
    Reassociate(y, r.Block(), z);
    DropBefore(y, r.Block() + z);
    Shift(x, DropNewlines(y), r.Block(), z);
  }

  lemma RepositoryFirstOut(k: Installer, x: string, r: Section, y: string, p: Section, z: string)
    requires MarkersOk(k) && WellLaid(k, RepositoryFirst(x, r, y, p, z))
    requires CountOccurrences(RepositoryFirst(x, r, y, p, z).Text(), k.pinned.begin) == 1
    ensures WithPinned(k.pinned, RepositoryFirst(x, r, y, p, z).Text())
            == k.pinned.Block() + "\n" + TrimStart(x + r.Block() + (y + DropNewlines(z)))
  {
    var l := RepositoryFirst(x, r, y, p, z);
    var front := x + r.Block() + y;
    assert l.Outside()[0] == x && x in l.Outside() && l.Outside()[1] == y && y in l.Outside();
    OthersOf(k, l);
    CountThree(x, r.Block(), y, k.pinned.begin);
    CountNone(front, k.pinned.begin);
    assert front[|front| - 1] == y[|y| - 1];
    PinnedOut(k, p, front, z);
    Reassociate(x + r.Block(), y, DropNewlines(z));
  }

  // After the pinned step.
  lemma PinnedStepLaid(k: Installer, l: Layout)
    requires MarkersOk(k) && WellLaid(k, l) && CountAll(l.Outside(), k.beads) == 1
    ensures PinnedStep(k, false, l.Text()) == Some(k.pinned.Block() + "\n" + TrimStart(Unpinned(l).Text()))
  {
    PinnedCounts(k, l);
    match l
    case Plain(_) =>
    case RepositoryOnly(_, _, _) =>
    case PinnedOnly(x, p, y) =>
      assert l.Outside()[0] == x && x in l.Outside();
      NoneIn(k, x);
      PinnedOut(k, p, x, y);
    case PinnedFirst(x, p, y, r, z) => PinnedFirstOut(k, x, p, y, r, z);
    case RepositoryFirst(x, r, y, p, z) => RepositoryFirstOut(k, x, r, y, p, z);
  }

  // ---- What the pinned step leaves --------------------------------------------------------------------

  // Joining two texts where the pinned section was adds up their markers.
  lemma SeamCounts(k: Installer, x: string, y: string)
    requires MarkersOk(k) && (Ends(x) || Starts(DropNewlines(y))) && NoGenesMarkers(k, x) && NoGenesMarkers(k, y)
    ensures NoGenesMarkers(k, x + DropNewlines(y))
    ensures CountOccurrences(x + DropNewlines(y), k.beads) == CountOccurrences(x, k.beads) + CountOccurrences(y, k.beads)
  {
    SeamCount(x, y, k.pinned.begin);
    SeamCount(x, y, k.pinned.end);
    SeamCount(x, y, k.repository.begin);
    SeamCount(x, y, k.repository.end);
    SeamCount(x, y, k.beads);
  }

  lemma SeamCount(x: string, y: string, m: string)
    requires IsMarker(m) && (Ends(x) || Starts(DropNewlines(y)))
    ensures CountOccurrences(x + DropNewlines(y), m) == CountOccurrences(x, m) + CountOccurrences(y, m)
  {
    DropCounts(y, m);
    CountJoin(x, DropNewlines(y), m);
  }

  lemma SeamEnds(x: string, y: string)
    requires Ends(x) && Ends(y)
    ensures Ends(x + DropNewlines(y))
  {
    DropKeepsEnd(y);
    var d := DropNewlines(y);
    if d == "" { assert x + d == x; } else { assert (x + d)[|x + d| - 1] == d[|d| - 1]; }
  }

  lemma UnpinnedOk(k: Installer, l: Layout)
    requires MarkersOk(k) && WellLaid(k, l) && CountAll(l.Outside(), k.beads) == 1
    ensures RestOk(k, Unpinned(l))
  {
    var xs := l.Outside();
    assert forall i :: 0 <= i < |xs| ==> xs[i] in xs;
    match l
    case Plain(x) => CountFew(x, "", "", k.beads);
    case RepositoryOnly(x, _, y) => CountFew(x, y, "", k.beads);
    case PinnedOnly(x, _, y) =>
      CountFew(x, y, "", k.beads);
      SeamCounts(k, x, y);
    case PinnedFirst(x, _, y, _, z) =>
      CountFew(x, y, z, k.beads);
      SeamCounts(k, x, y);
      SeamEnds(x, y);
    case RepositoryFirst(x, _, y, _, z) =>
      CountFew(x, y, z, k.beads);
      SeamCounts(k, y, z);
      assert (y + DropNewlines(z))[0] == y[0];
  }

  // ---- The repository step ----------------------------------------------------------------------------

  lemma EndsBelow(p: string, t: string)
    requires Ends(t)
    ensures Ends(p + "\n" + t)
  {
    var u := p + "\n" + t;
    if t != "" { assert u[|u| - 1] == t[|t| - 1]; }
  }

  lemma FrontOk(k: Installer, x: string)
    requires SectionsOk(k) && NoGenesMarkers(k, x) && Ends(x)
    ensures var front := k.pinned.Block() + "\n" + TrimStart(x);
            && Ends(front) && Find(front, k.repository.begin) < 0
            && CountOccurrences(front, k.pinned.begin) == CountOccurrences(front, k.pinned.end) == 1
            && CountOccurrences(front, k.repository.begin) == CountOccurrences(front, k.repository.end) == 0
            && CountOccurrences(front, k.beads) == CountOccurrences(x, k.beads)
  {
    var p, t := k.pinned.Block(), TrimStart(x);
    BlockCounts(k);
    TrimKeepsEnd(x);
    EndsBelow(p, t);
    FrontCount(p, x, k.pinned.begin);
    FrontCount(p, x, k.pinned.end);
    FrontCount(p, x, k.repository.begin);
    FrontCount(p, x, k.repository.end);
    FrontCount(p, x, k.beads);
    CountNone(p + "\n" + t, k.repository.begin);
  }

  lemma FrontCount(p: string, x: string, m: string)
    requires IsMarker(m)
    ensures CountOccurrences(p + "\n" + TrimStart(x), m) == CountOccurrences(p, m) + CountOccurrences(x, m)
  {
    CountAcross(p, TrimStart(x), m);
    TrimStartCounts(x, m);
  }

  lemma RepositoryInPlace(k: Installer, front: string, older: Section, y: string)
    requires MarkersOk(k) && Closes(older) && older.begin == k.repository.begin && older.end == k.repository.end
    requires Ends(front) && Find(front, k.repository.begin) < 0
    requires var t := front + older.Block() + y;
             CountOccurrences(t, k.repository.begin) == CountOccurrences(t, k.repository.end) == 1
    ensures RepositoryStep(k, front + older.Block() + y) == Some(front + k.repository.Block() + y)
  {
    RegionLaid(older, front, y);
    Swap(front, older.Block(), y, k.repository.Block());
  }

  lemma Swap(before: string, o: string, after: string, r: string)
    ensures var t := before + o + after; t[..|before|] + r + t[|before| + |o|..] == before + r + after
  {
  }

  lemma AroundCounts(k: Installer, x: string, r: Section, y: string, o: string)
    requires SectionsOk(k) && RestOk(k, Around(x, r, y))
    requires CountOccurrences(o, k.repository.begin) == CountOccurrences(o, k.repository.end) == 1
    requires CountOccurrences(o, k.pinned.begin) == CountOccurrences(o, k.pinned.end) == CountOccurrences(o, k.beads) == 0
    ensures var t := k.pinned.Block() + "\n" + TrimStart(x) + o + y;
            Verified(k, false, t)
  {
    var front := k.pinned.Block() + "\n" + TrimStart(x);
    FrontOk(k, x);
    CountThree(front, o, y, k.pinned.begin);
    CountThree(front, o, y, k.pinned.end);
    CountThree(front, o, y, k.repository.begin);
    CountThree(front, o, y, k.repository.end);
    CountThree(front, o, y, k.beads);
  }

  lemma RepositoryStepLaid(k: Installer, x: string, r: Section, y: string)
    requires SectionsOk(k) && RestOk(k, Around(x, r, y))
    ensures RepositoryStep(k, k.pinned.Block() + "\n" + TrimStart(x + r.Block() + y)) == Some(Renewed(k, Around(x, r, y)))
    ensures Verified(k, false, Renewed(k, Around(x, r, y)))
  {
    var front := k.pinned.Block() + "\n" + TrimStart(x);
    OthersOf(k, RepositoryOnly(x, r, y));
    AroundCounts(k, x, r, y, r.Block());
    BlockCounts(k);
    AroundCounts(k, x, r, y, k.repository.Block());
    FrontOk(k, x);
    OlderBegins(r);
    Reassociate(x, r.Block(), y);
    TrimBefore(x, r.Block() + y);
    Shift(k.pinned.Block() + "\n", TrimStart(x), r.Block(), y);
    Shift(k.pinned.Block() + "\n", TrimStart(x), k.repository.Block(), y);
    Reassociate(TrimStart(x), k.repository.Block(), y);
    RepositoryInPlace(k, front, r, y);
  }

  lemma BareStepLaid(k: Installer, x: string)
    requires SectionsOk(k) && RestOk(k, Bare(x))
    ensures RepositoryStep(k, k.pinned.Block() + "\n" + TrimStart(x)) == Some(Renewed(k, Bare(x)))
    ensures Verified(k, false, Renewed(k, Bare(x)))
  {
    var p, r, t := k.pinned.Block(), k.repository.Block(), TrimEnd(TrimStart(x));
    BlockCounts(k);
    FreshPinned(k, x);
    FreshRepository(k, x, TrimStart(x));
    FreshVerified(k, x, t);
    Stack(p, t, r);
  }

  // Every hook whose Genes sections are whole, apart and on lines of their own, in either order, one of them
  // missing or both, with one Beads marker outside them: the pinned section is renewed and goes on top, the
  // repository section is renewed where it stands or appended, and all other text stays, in order. It loses
  // only the line breaks after the old pinned section, the white space above its first line, and, when the
  // repository section is appended, the white space at its end.
  lemma HookUpgrades(k: Installer, l: Layout)
    requires SectionsOk(k) && WellLaid(k, l) && CountAll(l.Outside(), k.beads) == 1
    ensures Install(k, false, l.Text()) == Some(Renewed(k, Unpinned(l)))
  {
    PinnedStepLaid(k, l);
    UnpinnedOk(k, l);
    match Unpinned(l)
    case Bare(x) => BareStepLaid(k, x);
    case Around(x, r, y) => RepositoryStepLaid(k, x, r, y);
  }

  // ---- Every such hook has a layout -------------------------------------------------------------------

  predicate OnLines(s: string, i: nat, j: nat) {
    i <= j <= |s| && (i == 0 || s[i - 1] == '\n') && (j == |s| || s[j] == '\n')
  }

  // An old section is whole, stands on lines of its own, and does not hold the Beads marker.
  predicate Placed(k: Installer, s: string, section: Section)
    requires section.begin != "" && section.end != "" && k.beads != ""
  {
    CountOccurrences(s, section.begin) == 1 ==>
      match Region(s, section.begin, section.end)
      case None => false
      case Some(r) => OnLines(s, r.0, r.1) && CountOccurrences(s[r.0..r.1], k.beads) == 0
  }

  predicate WellMarked(k: Installer, s: string)
    requires Named(k)
  {
    && Repairable(s, k.pinned) && Repairable(s, k.repository) && CountOccurrences(s, k.beads) == 1
    && Placed(k, s, k.pinned) && Placed(k, s, k.repository)
    && (CountOccurrences(s, k.pinned.begin) == 1 && CountOccurrences(s, k.repository.begin) == 1 ==>
          var p, r := Region(s, k.pinned.begin, k.pinned.end).value, Region(s, k.repository.begin, k.repository.end).value;
          p.1 <= r.0 || r.1 <= p.0)
  }

  lemma PartsMeet(s: string, i: nat, b: string, after: string, n: nat, e: string)
    requires i + |b| <= |s| && s[i..i + |b|] == b && after == s[i + |b|..]
    requires n + |e| <= |after| && after[n..n + |e|] == e
    ensures s[i..i + |b| + n + |e|] == b + after[..n] + e && (after[..n] + e)[..n + |e|] == after[..n + |e|]
  {
    assert s[i..i + |b| + n + |e|] == s[i..i + |b|] + after[..n + |e|];
    assert after[..n + |e|] == after[..n] + after[n..n + |e|];
  }

  lemma SectionHasOwn(o: Section)
    requires o.begin != "" && o.end != ""
    ensures CountOccurrences(o.Block(), o.begin) >= 1 && CountOccurrences(o.Block(), o.end) >= 1
  {
    SectionStarts(o);
    CountNone(o.Block(), o.begin);
    var at := |o.begin| + |o.body|;
    assert o.Block()[at..] == o.end;
    FindAtMost(o.Block(), o.end, at);
    CountNone(o.Block(), o.end);
  }

  // The text of a region is a section.
  lemma RegionIsSection(s: string, section: Section, i: nat, j: nat) returns (o: Section)
    requires section.begin != "" && section.end != "" && Region(s, section.begin, section.end) == Some((i, j))
    ensures o.begin == section.begin && o.end == section.end && Closes(o) && s[i..j] == o.Block()
    ensures CountOccurrences(o.Block(), o.begin) >= 1 && CountOccurrences(o.Block(), o.end) >= 1
  {
    var n := RegionParts(s, section, i, j);
    FindHits(s, section.begin);
    o := CutSection(s, section, i, s[i + |section.begin|..], n);
    SectionHasOwn(o);
  }

  lemma RegionParts(s: string, section: Section, i: nat, j: nat) returns (n: nat)
    requires section.begin != "" && section.end != "" && Region(s, section.begin, section.end) == Some((i, j))
    ensures Find(s, section.begin) == i && i + |section.begin| <= |s|
    ensures Find(s[i + |section.begin|..], section.end) == n && j == i + |section.begin| + n + |section.end|
  {
    n := Find(s[i + |section.begin|..], section.end);
  }

  lemma CutSection(s: string, section: Section, i: nat, after: string, n: nat) returns (o: Section)
    requires section.begin != "" && section.end != ""
    requires i + |section.begin| <= |s| && s[i..i + |section.begin|] == section.begin
    requires after == s[i + |section.begin|..] && Find(after, section.end) == n
    ensures o.begin == section.begin && o.end == section.end && Closes(o)
    ensures s[i..i + |section.begin| + n + |section.end|] == o.Block()
  {
    o := Section(section.begin, after[..n], section.end);
    FindHits(after, section.end);
    PartsMeet(s, i, section.begin, after, n, section.end);
    FindInPrefix(after, after[..n] + section.end, section.end);
  }

  // A marker that occurs once in the whole text occurs in one of its parts only.
  lemma OnlyInThree(x: string, o: string, y: string, m: string)
    requires IsMarker(m) && Ends(x) && Starts(y)
    ensures CountOccurrences(x + o + y, m) == 1 && CountOccurrences(o, m) >= 1 ==>
              (CountOccurrences(o, m) == 1 && CountOccurrences(x, m) == CountOccurrences(y, m) == 0)
    ensures CountOccurrences(x + o + y, m) == 0 ==>
              CountOccurrences(o, m) == CountOccurrences(x, m) == CountOccurrences(y, m) == 0
    ensures CountOccurrences(o, m) == 0 ==>
              CountOccurrences(x, m) + CountOccurrences(y, m) == CountOccurrences(x + o + y, m)
  {
    CountThree(x, o, y, m);
  }

  lemma OnlyInFive(x: string, o: string, y: string, u: string, z: string, m: string)
    requires IsMarker(m) && Ends(x) && Starts(y) && Ends(y) && Starts(z) && y != ""
    requires CountOccurrences(x + o + y + u + z, m) == 1
    ensures CountOccurrences(o, m) >= 1 ==>
              (CountOccurrences(o, m) == 1
               && CountOccurrences(x, m) == CountOccurrences(y, m) == CountOccurrences(u, m) == CountOccurrences(z, m) == 0)
    ensures CountOccurrences(u, m) >= 1 ==>
              (CountOccurrences(u, m) == 1
               && CountOccurrences(x, m) == CountOccurrences(y, m) == CountOccurrences(o, m) == CountOccurrences(z, m) == 0)
    ensures CountOccurrences(o, m) == CountOccurrences(u, m) == 0 ==>
              CountOccurrences(x, m) + CountOccurrences(y, m) + CountOccurrences(z, m) == 1
  {
    CountFive(x, o, y, u, z, m);
  }

  lemma OlderByCounts(k: Installer, o: Section, own: Section, other: Section)
    requires MarkersOk(k) && Closes(o) && o.begin == own.begin && o.end == own.end
    requires (own, other) == (k.pinned, k.repository) || (own, other) == (k.repository, k.pinned)
    requires CountOccurrences(o.Block(), own.begin) == CountOccurrences(o.Block(), own.end) == 1
    requires CountOccurrences(o.Block(), other.begin) == CountOccurrences(o.Block(), other.end) == 0
    requires CountOccurrences(o.Block(), k.beads) == 0
    ensures own == k.pinned && other == k.repository ==> OlderPinned(k, o)
    ensures own == k.repository && other == k.pinned ==> OlderRepository(k, o)
  {
  }

  lemma Slices(s: string, i: nat, j: nat)
    requires OnLines(s, i, j)
    ensures s == s[..i] + s[i..j] + s[j..] && Ends(s[..i]) && Starts(s[j..])
  {
  }

  lemma FiveSlices(s: string, i: nat, j: nat, p: nat, q: nat)
    requires OnLines(s, i, j) && OnLines(s, p, q) && j < p
    ensures s == s[..i] + s[i..j] + s[j..p] + s[p..q] + s[q..]
    ensures s == s[..i] + s[i..j] + (s[j..p] + s[p..q] + s[q..])
    ensures s[j..p] != "" && Ends(s[..i]) && Starts(s[j..p]) && Ends(s[j..p]) && Starts(s[q..])
  {
  }

  // Every hook whose sections are whole, apart, on lines of their own and free of the Beads marker has a layout.
  lemma LayoutOf(k: Installer, s: string) returns (l: Layout)
    requires MarkersOk(k) && WellMarked(k, s)
    ensures l.Text() == s && WellLaid(k, l) && CountAll(l.Outside(), k.beads) == 1
  {
    var pinned, repository := CountOccurrences(s, k.pinned.begin) == 1, CountOccurrences(s, k.repository.begin) == 1;
    if !pinned && !repository {
      l := Plain(s);
      CountFew(s, "", "", k.beads);
    } else if !repository {
      l := PinnedLayout(k, s);
    } else if !pinned {
      l := RepositoryLayout(k, s);
    } else {
      l := BothLayout(k, s);
    }
  }

  lemma PinnedLayout(k: Installer, s: string) returns (l: Layout)
    requires MarkersOk(k) && WellMarked(k, s)
    requires CountOccurrences(s, k.pinned.begin) == 1 && CountOccurrences(s, k.repository.begin) == 0
    ensures l.Text() == s && WellLaid(k, l) && CountAll(l.Outside(), k.beads) == 1
  {
    var x, o, y := Pieces(k, s, k.pinned);
    OneLaid(k, x, o, y, k.pinned, k.repository);
    SideLaid(k, x, o, y);
    l := PinnedOnly(x, o, y);
  }

  lemma RepositoryLayout(k: Installer, s: string) returns (l: Layout)
    requires MarkersOk(k) && WellMarked(k, s)
    requires CountOccurrences(s, k.pinned.begin) == 0 && CountOccurrences(s, k.repository.begin) == 1
    ensures l.Text() == s && WellLaid(k, l) && CountAll(l.Outside(), k.beads) == 1
  {
    var x, o, y := Pieces(k, s, k.repository);
    OneLaid(k, x, o, y, k.repository, k.pinned);
    SideLaid(k, x, o, y);
    l := RepositoryOnly(x, o, y);
  }

  lemma SideLaid(k: Installer, x: string, o: Section, y: string)
    requires MarkersOk(k) && NoGenesMarkers(k, x) && NoGenesMarkers(k, y) && Ends(x) && Starts(y)
    ensures OlderPinned(k, o) ==> WellLaid(k, PinnedOnly(x, o, y))
    ensures OlderRepository(k, o) ==> WellLaid(k, RepositoryOnly(x, o, y))
  {
  }

  // A placed section and the text on its two sides.
  lemma Pieces(k: Installer, s: string, section: Section) returns (x: string, o: Section, y: string)
    requires section.begin != "" && section.end != "" && k.beads != ""
    requires Placed(k, s, section) && CountOccurrences(s, section.begin) == 1
    ensures s == x + o.Block() + y && Ends(x) && Starts(y)
    ensures o.begin == section.begin && o.end == section.end && Closes(o)
    ensures CountOccurrences(o.Block(), o.begin) >= 1 && CountOccurrences(o.Block(), o.end) >= 1
    ensures CountOccurrences(o.Block(), k.beads) == 0
  {
    var r := Region(s, section.begin, section.end).value;
    o := RegionIsSection(s, section, r.0, r.1);
    Slices(s, r.0, r.1);
    x, y := s[..r.0], s[r.1..];
  }

  lemma OneCounts(k: Installer, x: string, o: string, y: string, own: Section, other: Section)
    requires MarkersOk(k) && Ends(x) && Starts(y)
    requires (own, other) == (k.pinned, k.repository) || (own, other) == (k.repository, k.pinned)
    requires CountOccurrences(o, own.begin) >= 1 && CountOccurrences(o, own.end) >= 1 && CountOccurrences(o, k.beads) == 0
    requires var s := x + o + y;
             && CountOccurrences(s, own.begin) == CountOccurrences(s, own.end) == CountOccurrences(s, k.beads) == 1
             && CountOccurrences(s, other.begin) == CountOccurrences(s, other.end) == 0
    ensures CountOccurrences(o, own.begin) == CountOccurrences(o, own.end) == 1
    ensures CountOccurrences(o, other.begin) == CountOccurrences(o, other.end) == 0
    ensures NoGenesMarkers(k, x) && NoGenesMarkers(k, y)
    ensures CountOccurrences(x, k.beads) + CountOccurrences(y, k.beads) == 1
  {
    OnlyInThree(x, o, y, own.begin);
    OnlyInThree(x, o, y, own.end);
    OnlyInThree(x, o, y, other.begin);
    OnlyInThree(x, o, y, other.end);
    OnlyInThree(x, o, y, k.beads);
  }

  lemma OneLaid(k: Installer, x: string, o: Section, y: string, own: Section, other: Section)
    requires MarkersOk(k) && Closes(o) && o.begin == own.begin && o.end == own.end && Ends(x) && Starts(y)
    requires (own, other) == (k.pinned, k.repository) || (own, other) == (k.repository, k.pinned)
    requires CountOccurrences(o.Block(), o.begin) >= 1 && CountOccurrences(o.Block(), o.end) >= 1
    requires CountOccurrences(o.Block(), k.beads) == 0
    requires var s := x + o.Block() + y;
             && CountOccurrences(s, own.begin) == CountOccurrences(s, own.end) == CountOccurrences(s, k.beads) == 1
             && CountOccurrences(s, other.begin) == CountOccurrences(s, other.end) == 0
    ensures own == k.pinned && other == k.repository ==> OlderPinned(k, o)
    ensures own == k.repository && other == k.pinned ==> OlderRepository(k, o)
    ensures NoGenesMarkers(k, x) && NoGenesMarkers(k, y) && CountAll([x, y], k.beads) == 1
  {
    OneCounts(k, x, o.Block(), y, own, other);
    CountFew(x, y, "", k.beads);
    OlderByCounts(k, o, own, other);
  }

  lemma TwoLaid(k: Installer, x: string, p: Section, y: string, r: Section, z: string)
    requires MarkersOk(k) && OlderPinned(k, p) && OlderRepository(k, r)
    requires NoGenesMarkers(k, x) && NoGenesMarkers(k, y) && NoGenesMarkers(k, z)
    requires Ends(x) && Starts(y) && y != "" && Ends(y) && Starts(z)
    ensures WellLaid(k, PinnedFirst(x, p, y, r, z)) && WellLaid(k, RepositoryFirst(x, r, y, p, z))
  {
  }

  lemma PinnedFirstLayout(k: Installer, s: string, p: (nat, nat), r: (nat, nat)) returns (l: Layout)
    requires MarkersOk(k) && WellMarked(k, s) && p.1 <= r.0
    requires CountOccurrences(s, k.pinned.begin) == CountOccurrences(s, k.repository.begin) == 1
    requires Region(s, k.pinned.begin, k.pinned.end) == Some(p)
    requires Region(s, k.repository.begin, k.repository.end) == Some(r)
    ensures l.Text() == s && WellLaid(k, l) && CountAll(l.Outside(), k.beads) == 1
  {
    var o, u, x, y, z := Between(s, k.pinned, k.repository, p.0, p.1, r.0, r.1);
    BothLaid(k, x, o, y, u, z, k.pinned, k.repository);
    TwoLaid(k, x, o, y, u, z);
    l := PinnedFirst(x, o, y, u, z);
  }

  lemma RepositoryFirstLayout(k: Installer, s: string, p: (nat, nat), r: (nat, nat)) returns (l: Layout)
    requires MarkersOk(k) && WellMarked(k, s) && r.1 <= p.0
    requires CountOccurrences(s, k.pinned.begin) == CountOccurrences(s, k.repository.begin) == 1
    requires Region(s, k.pinned.begin, k.pinned.end) == Some(p)
    requires Region(s, k.repository.begin, k.repository.end) == Some(r)
    ensures l.Text() == s && WellLaid(k, l) && CountAll(l.Outside(), k.beads) == 1
  {
    var o, u, x, y, z := Between(s, k.repository, k.pinned, r.0, r.1, p.0, p.1);
    BothLaid(k, x, o, y, u, z, k.repository, k.pinned);
    TwoLaid(k, x, u, y, o, z);
    l := RepositoryFirst(x, o, y, u, z);
  }

  lemma BothLayout(k: Installer, s: string) returns (l: Layout)
    requires MarkersOk(k) && WellMarked(k, s)
    requires CountOccurrences(s, k.pinned.begin) == 1 && CountOccurrences(s, k.repository.begin) == 1
    ensures l.Text() == s && WellLaid(k, l) && CountAll(l.Outside(), k.beads) == 1
  {
    var p, r := Region(s, k.pinned.begin, k.pinned.end).value, Region(s, k.repository.begin, k.repository.end).value;
    if p.1 <= r.0 { l := PinnedFirstLayout(k, s, p, r); } else { l := RepositoryFirstLayout(k, s, p, r); }
  }

  // A marker does not start where a line ends.
  lemma NotAdjacent(s: string, second: Section, i: nat, j: nat, p: nat, q: nat)
    requires IsMarker(second.begin) && second.end != "" && OnLines(s, i, j) && j <= p
    requires Region(s, second.begin, second.end) == Some((p, q))
    ensures j < p
  {
    FindHits(s, second.begin);
    assert s[p..p + |second.begin|][0] == second.begin[0];
  }

  lemma Between(s: string, first: Section, second: Section, i: nat, j: nat, p: nat, q: nat)
    returns (o: Section, u: Section, x: string, y: string, z: string)
    requires first.begin != "" && first.end != "" && IsMarker(second.begin) && second.end != ""
    requires Region(s, first.begin, first.end) == Some((i, j)) && OnLines(s, i, j)
    requires Region(s, second.begin, second.end) == Some((p, q)) && OnLines(s, p, q) && j <= p
    ensures o.begin == first.begin && o.end == first.end && Closes(o) && o.Block() == s[i..j]
    ensures u.begin == second.begin && u.end == second.end && Closes(u) && u.Block() == s[p..q]
    ensures s == x + o.Block() + y + u.Block() + z && s == x + o.Block() + (y + u.Block() + z)
    ensures y != "" && Ends(x) && Starts(y) && Ends(y) && Starts(z)
    ensures CountOccurrences(o.Block(), o.begin) >= 1 && CountOccurrences(o.Block(), o.end) >= 1
    ensures CountOccurrences(u.Block(), u.begin) >= 1 && CountOccurrences(u.Block(), u.end) >= 1
  {
    o := RegionIsSection(s, first, i, j);
    u := RegionIsSection(s, second, p, q);
    NotAdjacent(s, second, i, j, p, q);
    FiveSlices(s, i, j, p, q);
    x, y, z := s[..i], s[j..p], s[q..];
  }

  lemma BothLaid(k: Installer, x: string, o: Section, y: string, u: Section, z: string, first: Section, second: Section)
    requires MarkersOk(k)
    requires (first, second) == (k.pinned, k.repository) || (first, second) == (k.repository, k.pinned)
    requires o.begin == first.begin && o.end == first.end && Closes(o)
    requires u.begin == second.begin && u.end == second.end && Closes(u)
    requires Ends(x) && Starts(y) && y != "" && Ends(y) && Starts(z)
    requires CountOccurrences(o.Block(), o.begin) >= 1 && CountOccurrences(o.Block(), o.end) >= 1
    requires CountOccurrences(u.Block(), u.begin) >= 1 && CountOccurrences(u.Block(), u.end) >= 1
    requires CountOccurrences(o.Block(), k.beads) == CountOccurrences(u.Block(), k.beads) == 0
    requires var s := x + o.Block() + y + u.Block() + z;
             && CountOccurrences(s, first.begin) == CountOccurrences(s, first.end) == CountOccurrences(s, k.beads) == 1
             && CountOccurrences(s, second.begin) == CountOccurrences(s, second.end) == 1
    ensures first == k.pinned && second == k.repository ==> OlderPinned(k, o) && OlderRepository(k, u)
    ensures first == k.repository && second == k.pinned ==> OlderRepository(k, o) && OlderPinned(k, u)
    ensures NoGenesMarkers(k, x) && NoGenesMarkers(k, y) && NoGenesMarkers(k, z)
    ensures CountAll([x, y, z], k.beads) == 1
  {
    OnlyInFive(x, o.Block(), y, u.Block(), z, first.begin);
    OnlyInFive(x, o.Block(), y, u.Block(), z, first.end);
    OnlyInFive(x, o.Block(), y, u.Block(), z, second.begin);
    OnlyInFive(x, o.Block(), y, u.Block(), z, second.end);
    OnlyInFive(x, o.Block(), y, u.Block(), z, k.beads);
    CountFew(x, y, z, k.beads);
    OlderByCounts(k, o, first, second);
    OlderByCounts(k, u, second, first);
  }

  // So every such hook is upgraded, and keeps the text of its layout.
  lemma MarkedHookUpgrades(k: Installer, s: string) returns (l: Layout)
    requires SectionsOk(k) && WellMarked(k, s)
    ensures l.Text() == s && WellLaid(k, l) && CountAll(l.Outside(), k.beads) == 1
    ensures Install(k, false, s) == Some(Renewed(k, Unpinned(l)))
  {
    l := LayoutOf(k, s);
    HookUpgrades(k, l);
  }

  // ---- What the final count does not see ----------------------------------------------------------------

  lemma {:induction false} FindAtMost(s: string, m: string, q: nat)
    requires m != "" && q <= |s| && StartsWith(s[q..], m)
    ensures 0 <= Find(s, m) <= q
    decreases q
  {
    if q > 0 && !StartsWith(s, m) {
      assert s[1..][q - 1..] == s[q..];
      FindAtMost(s[1..], m, q - 1);
    } else if q == 0 {
      assert s[0..] == s;
    }
  }

  lemma BeginInside(section: Section, u: string, q: nat)
    requires q <= |u| && StartsWith(u[q..], section.Block())
    ensures StartsWith(u[q..], section.begin)
  {
    var b, n := section.begin, |section.Block()|;
    assert u[q..][..n] == section.Block();
    assert u[q..][..|b|] == u[q..][..n][..|b|] == b;
  }

  lemma RegionIfEnd(u: string, section: Section, i: nat)
    requires section.begin != "" && section.end != "" && Find(u, section.begin) == i
    requires Find(u[i + |section.begin|..], section.end) >= 0
    ensures Region(u, section.begin, section.end).Some?
  {
  }

  lemma WholeSectionHasRegion(section: Section, u: string, q: nat)
    requires section.begin != "" && section.end != "" && q <= |u| && StartsWith(u[q..], section.Block())
    ensures Region(u, section.begin, section.end).Some?
  {
    BeginInside(section, u, q);
    EndInside(section, u, q);
    RegionByEnds(section, u, q, q + |section.begin| + |section.body|);
  }

  lemma RegionByEnds(section: Section, u: string, q: nat, at: nat)
    requires section.begin != "" && section.end != "" && q + |section.begin| <= at <= |u|
    requires StartsWith(u[q..], section.begin) && StartsWith(u[at..], section.end)
    ensures Region(u, section.begin, section.end).Some?
  {
    FindAtMost(u, section.begin, q);
    RegionAfter(section, u, Find(u, section.begin), at);
  }

  lemma RegionAfter(section: Section, u: string, i: nat, at: nat)
    requires section.begin != "" && section.end != "" && Find(u, section.begin) == i
    requires i + |section.begin| <= at <= |u| && StartsWith(u[at..], section.end)
    ensures Region(u, section.begin, section.end).Some?
  {
    EndBehind(u, u[i + |section.begin|..], at - i - |section.begin|, section.end);
    RegionIfEnd(u, section, i);
  }

  lemma EndBehind(u: string, after: string, q: nat, end: string)
    requires end != "" && q <= |after| <= |u| && after == u[|u| - |after|..]
    requires StartsWith(u[|u| - |after| + q..], end)
    ensures Find(after, end) >= 0
  {
    assert after[q..] == u[|u| - |after| + q..];
    FindAtMost(after, end, q);
  }

  lemma EndInside(section: Section, u: string, q: nat)
    requires q <= |u| && StartsWith(u[q..], section.Block())
    ensures var at := q + |section.begin| + |section.body|; at <= |u| && StartsWith(u[at..], section.end)
  {
    var k, n := |section.begin| + |section.body|, |section.Block()|;
    assert u[q + k..][..|section.end|] == u[q..][..n][k..];
    assert section.Block()[k..] == section.end;
  }

  lemma ContainsMiddle(before: string, block: string, after: string)
    ensures Contains(before + block + after, block)
  {
    assert StartsWith((before + block + after)[|before|..], block);
  }

  // After a run that passes its final count, the repository block is really there if and only if, before
  // the repository step, its begin marker was absent or was followed by its end marker.
  lemma BlockAfterStep(k: Installer, t: string)
    requires SectionsOk(k) && Repairable(t, k.repository)
    ensures Contains(WithRepository(k.repository, t), k.repository.Block())
            <==> CountOccurrences(t, k.repository.begin) == 0 || Ordered(t, k.repository)
  {
    var section := k.repository;
    if CountOccurrences(t, section.begin) != 1 {
      ContainsMiddle(TrimEnd(t) + "\n\n", section.Block(), "\n");
    } else {
      match Region(t, section.begin, section.end)
      case Some(r) => ContainsMiddle(t[..r.0], section.Block(), t[r.1..]);
      case None =>
        forall q | 0 <= q <= |t| ensures !StartsWith(t[q..], section.Block()) {
          if StartsWith(t[q..], section.Block()) { WholeSectionHasRegion(section, t, q); }
        }
    }
  }

  // ---- The order of two markers -----------------------------------------------------------------------

  // The first begin marker is followed by an end marker.
  predicate Ordered(s: string, section: Section)
    requires section.begin != "" && section.end != ""
  {
    Region(s, section.begin, section.end).Some?
  }

  predicate MarkedBy(section: Section) { IsMarker(section.begin) && IsMarker(section.end) }

  lemma OrderedAt(s: string, section: Section, i: nat, rest: string)
    requires section.begin != "" && section.end != "" && Find(s, section.begin) == i && rest == s[i + |section.begin|..]
    ensures Ordered(s, section) <==> Find(rest, section.end) >= 0
  {
  }

  lemma NotOrdered(s: string, section: Section)
    requires section.begin != "" && section.end != "" && Find(s, section.begin) < 0
    ensures !Ordered(s, section)
  {
  }

  lemma OrderedSkip(s: string, section: Section)
    requires MarkedBy(section) && s != "" && IsSpace(s[0])
    ensures Ordered(s, section) <==> Ordered(s[1..], section)
  {
    FindSkipsSpace(s, section.begin);
    var i := Find(s[1..], section.begin);
    if i >= 0 {
      var rest := s[i + 1 + |section.begin|..];
      assert s[1..][i + |section.begin|..] == rest;
      OrderedAt(s, section, i + 1, rest);
      OrderedAt(s[1..], section, i, rest);
    } else {
      NotOrdered(s, section);
      NotOrdered(s[1..], section);
    }
  }

  lemma {:induction false} OrderedTrim(s: string, section: Section)
    requires MarkedBy(section)
    ensures Ordered(TrimStart(s), section) <==> Ordered(s, section)
    decreases |s|
  {
    if s != "" && IsSpace(s[0]) {
      OrderedSkip(s, section);
      OrderedTrim(s[1..], section);
    }
  }

  lemma {:induction false} OrderedDrop(s: string, section: Section)
    requires MarkedBy(section)
    ensures Ordered(DropNewlines(s), section) <==> Ordered(s, section)
    decreases |s|
  {
    if s != "" && s[0] == '\n' {
      OrderedSkip(s, section);
      OrderedDrop(s[1..], section);
    }
  }

  lemma OrderedAfter(x: string, z: string, section: Section)
    requires MarkedBy(section) && Ends(x) && Find(x, section.begin) < 0
    ensures Ordered(x + z, section) <==> Ordered(z, section)
  {
    FindAfter(x, z, section.begin);
    OrderedMoved(x + z, z, |x|, section);
  }

  // The same text behind something without a begin marker.
  lemma OrderedMoved(s: string, z: string, n: nat, section: Section)
    requires MarkedBy(section) && n <= |s| && s[n..] == z
    requires Find(s, section.begin) == if Find(z, section.begin) >= 0 then n + Find(z, section.begin) else -1
    ensures Ordered(s, section) <==> Ordered(z, section)
  {
    var i := Find(z, section.begin);
    if i >= 0 {
      var rest := z[i + |section.begin|..];
      assert s[n..][i + |section.begin|..] == s[n + i + |section.begin|..];
      OrderedAt(z, section, i, rest);
      OrderedAt(s, section, n + i, rest);
    } else {
      NotOrdered(s, section);
      NotOrdered(z, section);
    }
  }

  lemma OrderedIn(x: string, w: string, section: Section, n: nat)
    requires MarkedBy(section) && Find(x, section.begin) >= 0 && n == Find(x, section.begin) + |section.begin|
    ensures Ordered(x + w, section) <==> Find(x[n..] + w, section.end) >= 0
  {
    assert (x + w)[..n] == x[..n];
    FindInPrefix(x, x + w, section.begin);
    assert (x + w)[n..] == x[n..] + w;
    OrderedAt(x + w, section, n - |section.begin|, x[n..] + w);
  }

  lemma EndsSuffix(x: string, n: nat)
    requires Ends(x) && n <= |x|
    ensures Ends(x[n..])
  {
  }

  // Text in between that is free of both markers does not matter, nor do line breaks.
  lemma OrderedAround(x: string, o: string, y: string, section: Section)
    requires MarkedBy(section) && Ends(x) && Starts(y)
    requires CountOccurrences(o, section.begin) == CountOccurrences(o, section.end) == 0
    ensures Ordered(x + o + y, section) <==> Ordered(x + DropNewlines(y), section)
  {
    Reassociate(x, o, y);
    if Find(x, section.begin) >= 0 { OrderedBefore(x, o, y, section); } else { OrderedLater(x, o, y, section); }
  }

  lemma OrderedBefore(x: string, o: string, y: string, section: Section)
    requires MarkedBy(section) && Ends(x) && Starts(y) && Find(x, section.begin) >= 0
    requires CountOccurrences(o, section.end) == 0
    ensures Ordered(x + (o + y), section) <==> Ordered(x + DropNewlines(y), section)
  {
    var n := Find(x, section.begin) + |section.begin|;
    OrderedIn(x, o + y, section, n);
    OrderedIn(x, DropNewlines(y), section, n);
    EndsSuffix(x, n);
    EndIsThere(x[n..], o, y, section.end);
  }

  lemma OrderedLater(x: string, o: string, y: string, section: Section)
    requires MarkedBy(section) && Ends(x) && Starts(y) && Find(x, section.begin) < 0
    requires CountOccurrences(o, section.begin) == 0
    ensures Ordered(x + (o + y), section) <==> Ordered(x + DropNewlines(y), section)
  {
    OrderedAfter(x, o + y, section);
    OrderedAfter(x, DropNewlines(y), section);
    OrderedDrop(y, section);
    OrderedBehind(o, y, section);
  }

  lemma EndIsThere(x: string, o: string, y: string, m: string)
    requires IsMarker(m) && Ends(x) && Starts(y) && CountOccurrences(o, m) == 0
    ensures Find(x + (o + y), m) >= 0 <==> Find(x + DropNewlines(y), m) >= 0
  {
    Reassociate(x, o, y);
    CountThree(x, o, y, m);
    SeamCount(x, y, m);
    CountNone(x + o + y, m);
    CountNone(x + DropNewlines(y), m);
  }

  lemma OrderedBehind(o: string, y: string, section: Section)
    requires MarkedBy(section) && Starts(y) && CountOccurrences(o, section.begin) == 0
    ensures Ordered(o + y, section) <==> Ordered(y, section)
  {
    CountNone(o, section.begin);
    if y == "" {
      assert o + y == o;
      FindInEmpty(section.begin);
    } else {
      CountBreak(o, section.begin);
      CountNone(o + "\n", section.begin);
      Cut(o, y);
      OrderedAfter(o + "\n", y[1..], section);
      OrderedSkip(y, section);
    }
  }

  // Putting the pinned section on top does not change the order of the repository markers.
  lemma OrderedBelowPinned(k: Installer, m: string)
    requires SectionsOk(k)
    ensures var t := k.pinned.Block() + "\n" + TrimStart(m);
            && (Ordered(t, k.repository) <==> Ordered(m, k.repository))
            && CountOccurrences(t, k.repository.begin) == CountOccurrences(m, k.repository.begin)
  {
    var p := k.pinned.Block();
    BlockCounts(k);
    CountBreak(p, k.repository.begin);
    CountNone(p + "\n", k.repository.begin);
    OrderedAfter(p + "\n", TrimStart(m), k.repository);
    OrderedTrim(m, k.repository);
    FrontCount(p, m, k.repository.begin);
  }

  // The hook that the pinned step starts from: without an old pinned section.
  function Remaining(k: Installer, override: bool, s: string): string
    requires Named(k)
  {
    if override || Find(s, k.beads) < 0 then s else WithoutPinned(k.pinned, s)
  }

  // After a run that passes its final count, the repository block is really there if and only if, in the hook
  // without its old pinned section, its begin marker was absent or was followed by its end marker.
  lemma BlockInstalledIff(k: Installer, override: bool, s: string)
    requires SectionsOk(k) && Install(k, override, s).Some?
    ensures var w := Remaining(k, override, s);
            Contains(Install(k, override, s).value, k.repository.Block())
            <==> CountOccurrences(w, k.repository.begin) == 0 || Ordered(w, k.repository)
  {
    BlockAfterStep(k, PinnedStep(k, override, s).value);
    OrderedBelowPinned(k, WithoutPinned(k.pinned, s));
  }

  // Nor does taking out an old pinned section that stands on lines of its own and holds none of them.
  predicate PinnedClear(k: Installer, s: string)
    requires Named(k)
  {
    CountOccurrences(s, k.pinned.begin) == 1 ==>
      match Region(s, k.pinned.begin, k.pinned.end)
      case None => true
      case Some(r) =>
        && OnLines(s, r.0, r.1)
        && CountOccurrences(s[r.0..r.1], k.repository.begin) == CountOccurrences(s[r.0..r.1], k.repository.end) == 0
  }

  lemma OrderedWithoutPinned(k: Installer, s: string)
    requires MarkersOk(k) && PinnedClear(k, s)
    ensures Ordered(WithoutPinned(k.pinned, s), k.repository) <==> Ordered(s, k.repository)
    ensures CountOccurrences(WithoutPinned(k.pinned, s), k.repository.begin) == CountOccurrences(s, k.repository.begin)
  {
    if CountOccurrences(s, k.pinned.begin) == 1 && Ordered(s, k.pinned) {
      var r := Region(s, k.pinned.begin, k.pinned.end).value;
      Slices(s, r.0, r.1);
      PiecesWithout(k, s, s[..r.0], s[r.0..r.1], s[r.1..]);
    }
  }

  lemma PiecesWithout(k: Installer, s: string, x: string, o: string, y: string)
    requires MarkersOk(k) && s == x + o + y && Ends(x) && Starts(y)
    requires CountOccurrences(o, k.repository.begin) == CountOccurrences(o, k.repository.end) == 0
    ensures Ordered(x + DropNewlines(y), k.repository) <==> Ordered(s, k.repository)
    ensures CountOccurrences(x + DropNewlines(y), k.repository.begin) == CountOccurrences(s, k.repository.begin)
  {
    OrderedAround(x, o, y, k.repository);
    SeamCount(x, y, k.repository.begin);
    CountThree(x, o, y, k.repository.begin);
  }

  // So in that case the condition is one on the whole hook before the run.
  lemma BlockInstalledAround(k: Installer, override: bool, s: string)
    requires SectionsOk(k) && PinnedClear(k, s) && Install(k, override, s).Some?
    ensures Contains(Install(k, override, s).value, k.repository.Block())
            <==> CountOccurrences(s, k.repository.begin) == 0 || Ordered(s, k.repository)
  {
    BlockInstalledIff(k, override, s);
    OrderedWithoutPinned(k, s);
  }

  // No marker occurs inside another one.
  ghost predicate MarkersApart(k: Installer)
    requires MarkersOk(k)
  {
    var ms := [k.pinned.begin, k.pinned.end, k.repository.begin, k.repository.end, k.beads];
    forall i, j :: 0 <= i < |ms| && 0 <= j < |ms| && i != j ==> CountOccurrences(ms[i], ms[j]) == 0
  }

  lemma CountSelf(m: string)
    requires m != ""
    ensures CountOccurrences(m, m) == 1
  {
    assert StartsWith(m, m) && m[|m|..] == "";
    CountAt(m, m, "");
    CountEmpty(m);
  }

  // The end marker, the Beads marker and the begin marker, one on each line.
  function Reversed(k: Installer): string {
    k.repository.end + "\n" + (k.beads + "\n" + k.repository.begin)
  }

  lemma ReversedCount(k: Installer, m: string)
    requires IsMarker(m)
    ensures CountOccurrences(Reversed(k), m)
            == CountOccurrences(k.repository.end, m) + CountOccurrences(k.beads, m) + CountOccurrences(k.repository.begin, m)
  {
    CountAcross(k.repository.end, k.beads + "\n" + k.repository.begin, m);
    CountAcross(k.beads, k.repository.begin, m);
  }

  lemma ApartCounts(k: Installer)
    requires MarkersOk(k) && MarkersApart(k)
    ensures CountOccurrences(Reversed(k), k.beads) == 1
    ensures CountOccurrences(Reversed(k), k.repository.begin) == CountOccurrences(Reversed(k), k.repository.end) == 1
    ensures CountOccurrences(k.repository.end, k.repository.begin) == CountOccurrences(k.beads, k.repository.begin) == 0
  {
    var ms := [k.pinned.begin, k.pinned.end, k.repository.begin, k.repository.end, k.beads];
    assert ms[2] == k.repository.begin && ms[3] == k.repository.end && ms[4] == k.beads;
    ReversedCount(k, k.beads);
    ReversedCount(k, k.repository.begin);
    ReversedCount(k, k.repository.end);
    CountSelf(k.beads);
    CountSelf(k.repository.begin);
    CountSelf(k.repository.end);
  }

  lemma FindLast(e: string, d: string, b: string)
    requires b != "" && '\n' !in b && Find(e, b) < 0 && Find(d, b) < 0
    ensures Find(e + "\n" + (d + "\n" + b), b) == |e| + 1 + |d| + 1
  {
    FindSelf(b);
    FindAcross(d, b, b);
    FindBelow(e, d + "\n" + b, b);
  }

  lemma FindSelf(b: string)
    requires b != ""
    ensures Find(b, b) == 0
  {
    assert StartsWith(b, b);
  }

  lemma FindBelow(e: string, rest: string, b: string)
    requires b != "" && '\n' !in b && Find(e, b) < 0 <= Find(rest, b)
    ensures Find(e + "\n" + rest, b) == |e| + 1 + Find(rest, b)
  {
    FindAcross(e, rest, b);
  }

  lemma NothingBehind(e: string, d: string, b: string)
    ensures (e + "\n" + (d + "\n" + b))[|e| + 1 + |d| + 1 + |b|..] == ""
  {
  }

  lemma ReversedUnordered(k: Installer)
    requires MarkersOk(k) && MarkersApart(k)
    ensures !Ordered(Reversed(k), k.repository)
  {
    var e, d, b := k.repository.end, k.beads, k.repository.begin;
    ApartCounts(k);
    CountNone(e, b);
    CountNone(d, b);
    FindLast(e, d, b);
    NothingBehind(e, d, b);
    OrderedAt(Reversed(k), k.repository, |e| + 1 + |d| + 1, "");
    FindInEmpty(e);
  }

  lemma ReversedTrimmed(k: Installer)
    requires MarkersOk(k)
    ensures TrimStart(Reversed(k)) == Reversed(k)
  {
    assert Reversed(k)[0] == k.repository.end[0];
  }

  lemma ReversedRepairable(k: Installer)
    requires SectionsOk(k) && MarkersApart(k)
    ensures PinnedStep(k, false, Reversed(k)) == Some(k.pinned.Block() + "\n" + Reversed(k))
  {
    ApartCounts(k);
    NoPinnedInReversed(k);
    CountNone(Reversed(k), k.beads);
    ReversedTrimmed(k);
  }

  lemma ReversedCounts(k: Installer, m: string)
    requires MarkersOk(k) && IsMarker(m)
    ensures CountOccurrences(k.pinned.Block() + "\n" + Reversed(k), m)
            == CountOccurrences(k.pinned.Block(), m) + CountOccurrences(Reversed(k), m)
  {
    CountAcross(k.pinned.Block(), Reversed(k), m);
  }

  lemma ReversedVerified(k: Installer)
    requires SectionsOk(k) && MarkersApart(k)
    ensures var t := k.pinned.Block() + "\n" + Reversed(k);
            Verified(k, false, t) && Repairable(t, k.repository) && CountOccurrences(t, k.repository.begin) == 1
  {
    ApartCounts(k);
    NoPinnedInReversed(k);
    BlockCounts(k);
    ReversedCounts(k, k.pinned.begin);
    ReversedCounts(k, k.pinned.end);
    ReversedCounts(k, k.repository.begin);
    ReversedCounts(k, k.repository.end);
    ReversedCounts(k, k.beads);
  }

  lemma NoPinnedInReversed(k: Installer)
    requires MarkersOk(k) && MarkersApart(k)
    ensures CountOccurrences(Reversed(k), k.pinned.begin) == CountOccurrences(Reversed(k), k.pinned.end) == 0
  {
    var ms := [k.pinned.begin, k.pinned.end, k.repository.begin, k.repository.end, k.beads];
    assert ms[0] == k.pinned.begin && ms[1] == k.pinned.end;
    assert ms[2] == k.repository.begin && ms[3] == k.repository.end && ms[4] == k.beads;
    ReversedCount(k, k.pinned.begin);
    ReversedCount(k, k.pinned.end);
  }

  // A hook whose markers are unordered is left as it is by the repository step.
  lemma UnorderedStays(k: Installer, t: string)
    requires SectionsOk(k) && Repairable(t, k.repository) && CountOccurrences(t, k.repository.begin) == 1
    requires !Ordered(t, k.repository)
    ensures RepositoryStep(k, t) == Some(t) && !Contains(t, k.repository.Block())
  {
    BlockAfterStep(k, t);
  }

  lemma ReversedOverridden(k: Installer)
    requires SectionsOk(k) && MarkersApart(k)
    ensures Install(k, true, Reversed(k)) == Some(Reversed(k)) && !Contains(Reversed(k), k.repository.Block())
  {
    ApartCounts(k);
    ReversedUnordered(k);
    UnorderedStays(k, Reversed(k));
  }

  lemma ReversedPinned(k: Installer)
    requires SectionsOk(k) && MarkersApart(k)
    ensures var t := k.pinned.Block() + "\n" + Reversed(k);
            Install(k, false, Reversed(k)) == Some(t) && !Contains(t, k.repository.Block())
  {
    ReversedRepairable(k);
    ReversedVerified(k);
    ReversedTrimmed(k);
    ReversedUnordered(k);
    OrderedBelowPinned(k, Reversed(k));
    UnorderedStays(k, k.pinned.Block() + "\n" + Reversed(k));
  }

  // So a hook with the two markers in the wrong order passes the final count without the block, with the
  // override or without.
  lemma ReversedHookPasses(k: Installer, override: bool)
    requires SectionsOk(k) && MarkersApart(k)
    ensures Install(k, override, Reversed(k)).Some?
    ensures !Contains(Install(k, override, Reversed(k)).value, k.repository.Block())
  {
    if override { ReversedOverridden(k); } else { ReversedPinned(k); }
  }
}
