/**
 The Git hook installer: two marked sections, each found by its markers and replaced in place, and a
 final count of the markers.
 */
module HookInstaller {
  import opened Wrappers
  import opened Paths
  import opened Texts

  // ---- Searching ------------------------------------------------------------------------------------

  // The first position of needle, or -1.
  function Find(s: string, needle: string): (i: int)
    requires needle != ""
    ensures -1 <= i && (i >= 0 ==> i + |needle| <= |s|)
  {
    if StartsWith(s, needle) then 0
    else if s == "" then -1
    else
      var i := Find(s[1..], needle);
      if i < 0 then -1 else i + 1
  }

  lemma {:induction false} FindHits(s: string, needle: string)
    requires needle != "" && Find(s, needle) >= 0
    ensures s[Find(s, needle)..Find(s, needle) + |needle|] == needle
    decreases |s|
  {
    if !StartsWith(s, needle) {
      var i := Find(s[1..], needle);
      FindHits(s[1..], needle);
      assert s[1..][i..i + |needle|] == s[i + 1..i + 1 + |needle|];
    }
  }

  // value.split(needle).length - 1
  function CountOccurrences(s: string, needle: string): nat
    requires needle != ""
    decreases |s|
  {
    var i := Find(s, needle);
    if i < 0 then 0 else 1 + CountOccurrences(s[i + |needle|..], needle)
  }

  lemma CountAt(s: string, m: string, rest: string)
    requires m != "" && Find(s, m) >= 0 && rest == s[Find(s, m) + |m|..]
    ensures CountOccurrences(s, m) == 1 + CountOccurrences(rest, m)
  {
  }

  lemma CountNone(s: string, m: string)
    requires m != ""
    ensures CountOccurrences(s, m) == 0 <==> Find(s, m) < 0
  {
  }

  // ---- Trimming -------------------------------------------------------------------------------------

  function TrimStart(s: string): string {
    if s != "" && IsSpace(s[0]) then TrimStart(s[1..]) else s
  }

  function TrimEnd(s: string): string
    decreases |s|
  {
    if s != "" && IsSpace(s[|s| - 1]) then TrimEnd(s[..|s| - 1]) else s
  }

  function DropNewlines(s: string): string {
    if s != "" && s[0] == '\n' then DropNewlines(s[1..]) else s
  }

  // ---- Sections -------------------------------------------------------------------------------------

  datatype Section = Section(begin: string, body: string, end: string)
  {
    function Block(): string { begin + body + end }
  }

  // A marker is one line without white space at its ends.
  predicate IsMarker(m: string) {
    m != "" && '\n' !in m && !IsSpace(m[0]) && !IsSpace(m[|m| - 1])
  }

  datatype Installer = Installer(pinned: Section, repository: Section, beads: string)

  predicate Named(k: Installer) {
    && k.pinned.begin != "" && k.pinned.end != ""
    && k.repository.begin != "" && k.repository.end != "" && k.beads != ""
  }

  // The sections do not mention each other's markers or the Beads marker, and each ends where its end
  // marker first occurs.
  ghost predicate SectionsOk(k: Installer) {
    && MarkersOk(k)
    && OwnMarkers(k.pinned) && OwnMarkers(k.repository)
    && Foreign(k.pinned.Block(), [k.repository.begin, k.repository.end, k.beads])
    && Foreign(k.repository.Block(), [k.pinned.begin, k.pinned.end, k.beads])
  }

  predicate MarkersOk(k: Installer) {
    && IsMarker(k.pinned.begin) && IsMarker(k.pinned.end)
    && IsMarker(k.repository.begin) && IsMarker(k.repository.end) && IsMarker(k.beads)
  }

  ghost predicate OwnMarkers(s: Section)
    requires IsMarker(s.begin) && IsMarker(s.end)
  {
    && CountOccurrences(s.Block(), s.begin) == 1 && CountOccurrences(s.Block(), s.end) == 1
    && Find(s.body + s.end, s.end) == |s.body|
  }

  ghost predicate Foreign(text: string, markers: seq<string>)
  {
    forall m :: m in markers ==> m != "" && Find(text, m) < 0
  }

  // begin[\s\S]*?end: where the first section starts, and where it stops.
  function Region(s: string, begin: string, end: string): (r: Option<(nat, nat)>)
    requires begin != "" && end != ""
    ensures r.Some? ==> r.value.0 <= r.value.1 <= |s|
  {
    var i := Find(s, begin);
    if i < 0 then None
    else
      var j := Find(s[i + |begin|..], end);
      if j < 0 then None else Some((i, i + |begin| + j + |end|))
  }

  predicate Repairable(s: string, section: Section)
    requires section.begin != "" && section.end != ""
  {
    CountOccurrences(s, section.begin) == CountOccurrences(s, section.end) <= 1
  }

  // The hook without its old pinned section and the line breaks after it.
  function WithoutPinned(section: Section, s: string): string
    requires section.begin != "" && section.end != ""
  {
    if CountOccurrences(s, section.begin) != 1 then s
    else match Region(s, section.begin, section.end)
         case None => s
         case Some(r) => s[..r.0] + DropNewlines(s[r.1..])
  }

  // The hook after installing the pinned section: any old one is removed, the new one goes on top.
  function WithPinned(section: Section, s: string): string
    requires section.begin != "" && section.end != ""
  {
    section.Block() + "\n" + TrimStart(WithoutPinned(section, s))
  }

  // The hook after installing the repository section: replaced in place, or appended.
  function WithRepository(section: Section, s: string): string
    requires section.begin != "" && section.end != ""
  {
    if CountOccurrences(s, section.begin) != 1 then TrimEnd(s) + "\n\n" + section.Block() + "\n"
    else match Region(s, section.begin, section.end)
         case None => s
         case Some(r) => s[..r.0] + section.Block() + s[r.1..]
  }

  predicate Verified(k: Installer, override: bool, s: string)
    requires Named(k)
  {
    && CountOccurrences(s, k.beads) == 1
    && (!override ==> CountOccurrences(s, k.pinned.begin) == 1 && CountOccurrences(s, k.pinned.end) == 1)
    && CountOccurrences(s, k.repository.begin) == 1 && CountOccurrences(s, k.repository.end) == 1
  }

  // The pinned section is installed only into hooks that Beads manages.
  function PinnedStep(k: Installer, override: bool, s: string): Option<string>
    requires Named(k)
  {
    if override || Find(s, k.beads) < 0 then Some(s)
    else if Repairable(s, k.pinned) then Some(WithPinned(k.pinned, s))
    else None
  }

  function RepositoryStep(k: Installer, s: string): Option<string>
    requires Named(k)
  {
    if Repairable(s, k.repository) then Some(WithRepository(k.repository, s)) else None
  }

  // One run on the pre-commit hook; None when it stops with an error.
  function Install(k: Installer, override: bool, s: string): Option<string>
    requires Named(k)
  {
    match PinnedStep(k, override, s)
    case None => None
    case Some(t) =>
      match RepositoryStep(k, t)
      case None => None
      case Some(u) => if Verified(k, override, u) then Some(u) else None
  }

  // ---- The mutable hook -------------------------------------------------------------------------------

  class HookFile {
    var text: string

    constructor (text: string)
      ensures this.text == text
    {
      this.text := text;
    }

    method InstallPinnedSection(section: Section) returns (ok: bool)
      requires section.begin != "" && section.end != ""
      modifies this
      ensures ok <==> Repairable(old(text), section)
      ensures text == if ok then WithPinned(section, old(text)) else old(text)
    {
      var original := text;
      var beginCount, endCount := CountOccurrences(original, section.begin), CountOccurrences(original, section.end);
      if beginCount != endCount || beginCount > 1 { return false; }
      var withoutExisting := original;
      if beginCount == 1 {
        var region := Region(original, section.begin, section.end);
        if region.Some? {
          withoutExisting := original[..region.value.0] + DropNewlines(original[region.value.1..]);
        }
      }
      text := section.Block() + "\n" + TrimStart(withoutExisting);
      return true;
    }

    method InstallRepositorySection(section: Section) returns (ok: bool)
      requires section.begin != "" && section.end != ""
      modifies this
      ensures ok <==> Repairable(old(text), section)
      ensures text == if ok then WithRepository(section, old(text)) else old(text)
    {
      var original := text;
      var beginCount, endCount := CountOccurrences(original, section.begin), CountOccurrences(original, section.end);
      if beginCount != endCount || beginCount > 1 { return false; }
      if beginCount == 1 {
        var region := Region(original, section.begin, section.end);
        if region.Some? {
          text := original[..region.value.0] + section.Block() + original[region.value.1..];
        }
      } else {
        text := TrimEnd(original) + "\n\n" + section.Block() + "\n";
      }
      return true;
    }

    method InstallPinnedIfManaged(k: Installer, override: bool) returns (ok: bool)
      requires Named(k)
      modifies this
      ensures PinnedStep(k, override, old(text)) == if ok then Some(text) else None
      ensures !ok ==> text == old(text)
    {
      ok := true;
      if !override && Find(text, k.beads) >= 0 { ok := InstallPinnedSection(k.pinned); }
    }

    // The part of main that concerns the pre-commit hook. A failed run may leave the pinned section written.
    method Run(k: Installer, override: bool) returns (ok: bool)
      requires Named(k)
      modifies this
      ensures Install(k, override, old(text)) == if ok then Some(text) else None
    {
      ok := InstallPinnedIfManaged(k, override);
      if !ok { return; }
      ghost var t := text;
      ok := InstallRepositorySection(k.repository);
      assert RepositoryStep(k, t) == if ok then Some(text) else None;
      if !ok { return; }
      ok := Verified(k, override, text);
    }
  }

  // ---- Searching across a line break -------------------------------------------------------------------

  lemma StartsAcross(x: string, y: string, m: string)
    requires m != "" && '\n' !in m
    ensures StartsWith(x + "\n" + y, m) <==> StartsWith(x, m)
  {
    var s := x + "\n" + y;
    if |m| <= |x| {
      assert s[..|m|] == x[..|m|];
    } else if |m| <= |s| {
      assert s[..|m|][|x|] == '\n' && m[|x|] in m;
    }
  }

  lemma DropAcross(x: string, y: string, k: nat)
    requires k <= |x|
    ensures (x + "\n" + y)[k..] == x[k..] + "\n" + y
  {
  }

  lemma DropBeyond(x: string, y: string, k: nat)
    requires k <= |y|
    ensures (x + "\n" + y)[|x| + 1 + k..] == y[k..]
  {
  }

  // A needle without newline lies on one side of a line break.
  lemma {:induction false} FindAcross(x: string, y: string, m: string)
    requires m != "" && '\n' !in m
    ensures Find(x + "\n" + y, m) ==
            if Find(x, m) >= 0 then Find(x, m)
            else if Find(y, m) >= 0 then |x| + 1 + Find(y, m) else -1
  {
    var s := x + "\n" + y;
    StartsAcross(x, y, m);
    if x == "" {
      assert s[1..] == y && s != "";
    } else {
      assert s[1..] == x[1..] + "\n" + y && s != "";
      FindAcross(x[1..], y, m);
    }
  }

  lemma CountRight(x: string, y: string, m: string)
    requires m != "" && '\n' !in m && Find(x, m) < 0
    ensures CountOccurrences(x + "\n" + y, m) == CountOccurrences(y, m)
  {
    FindAcross(x, y, m);
    var j := Find(y, m);
    if j >= 0 {
      DropBeyond(x, y, j + |m|);
      CountAt(y, m, y[j + |m|..]);
      CountAt(x + "\n" + y, m, y[j + |m|..]);
    } else {
      CountNone(y, m);
      CountNone(x + "\n" + y, m);
    }
  }

  lemma {:induction false} CountAcross(x: string, y: string, m: string)
    requires m != "" && '\n' !in m
    ensures CountOccurrences(x + "\n" + y, m) == CountOccurrences(x, m) + CountOccurrences(y, m)
    decreases |x|
  {
    var i := Find(x, m);
    if i >= 0 {
      FindAcross(x, y, m);
      DropAcross(x, y, i + |m|);
      CountAt(x, m, x[i + |m|..]);
      CountAt(x + "\n" + y, m, x[i + |m|..] + "\n" + y);
      CountAcross(x[i + |m|..], y, m);
    } else {
      CountNone(x, m);
      CountRight(x, y, m);
    }
  }

  // The first occurrence depends only on the text up to its end.
  lemma {:induction false} FindInPrefix(s: string, t: string, m: string)
    requires m != "" && Find(s, m) >= 0
    requires Find(s, m) + |m| <= |t| && s[..Find(s, m) + |m|] == t[..Find(s, m) + |m|]
    ensures Find(t, m) == Find(s, m)
    decreases |s|
  {
    var n := Find(s, m) + |m|;
    assert s[..|m|] == s[..n][..|m|] && t[..|m|] == t[..n][..|m|];
    if !StartsWith(s, m) {
      assert s[1..][..n - 1] == s[..n][1..] && t[1..][..n - 1] == t[..n][1..];
      FindInPrefix(s[1..], t[1..], m);
    }
  }

  // ---- Trimming and markers ---------------------------------------------------------------------------

  lemma FindSkipsSpace(s: string, m: string)
    requires IsMarker(m) && s != "" && IsSpace(s[0])
    ensures Find(s, m) == if Find(s[1..], m) < 0 then -1 else Find(s[1..], m) + 1
  {
    if |m| <= |s| { assert s[..|m|][0] == s[0]; }
  }

  lemma CountSkipsSpace(s: string, m: string)
    requires IsMarker(m) && s != "" && IsSpace(s[0])
    ensures CountOccurrences(s, m) == CountOccurrences(s[1..], m)
  {
    FindSkipsSpace(s, m);
    var i := Find(s[1..], m);
    if i >= 0 {
      assert s[1..][i + |m|..] == s[i + 1 + |m|..];
      CountAt(s, m, s[i + 1 + |m|..]);
      CountAt(s[1..], m, s[i + 1 + |m|..]);
    } else {
      CountNone(s, m);
      CountNone(s[1..], m);
    }
  }

  lemma {:induction false} TrimStartCounts(s: string, m: string)
    requires IsMarker(m)
    ensures CountOccurrences(TrimStart(s), m) == CountOccurrences(s, m)
    decreases |s|
  {
    if s != "" && IsSpace(s[0]) {
      CountSkipsSpace(s, m);
      TrimStartCounts(s[1..], m);
    }
  }

  lemma {:induction false} TrimStartTrims(s: string)
    ensures TrimStart(s) == "" || !IsSpace(TrimStart(s)[0])
    ensures Blank(TrimStart(s)) <==> Blank(s)
    decreases |s|
  {
    if s != "" && IsSpace(s[0]) {
      TrimStartTrims(s[1..]);
      assert s == [s[0]] + s[1..];
    }
  }

  lemma StartsWithoutLast(s: string, c: char, m: string)
    requires IsMarker(m) && IsSpace(c)
    ensures StartsWith(s + [c], m) <==> StartsWith(s, m)
  {
    var t := s + [c];
    if |m| <= |s| {
      assert t[..|m|] == s[..|m|];
    } else if |m| == |t| {
      assert t[..|m|] == t && t[|m| - 1] == c;
    }
  }

  lemma {:induction false} FindWithoutLast(s: string, c: char, m: string)
    requires IsMarker(m) && IsSpace(c)
    ensures Find(s + [c], m) == Find(s, m)
    decreases |s|
  {
    var t := s + [c];
    StartsWithoutLast(s, c, m);
    if s != "" {
      assert t[1..] == s[1..] + [c];
      FindWithoutLast(s[1..], c, m);
    } else {
      assert t[1..] == "";
    }
  }

  lemma {:induction false} CountWithoutLast(s: string, c: char, m: string)
    requires IsMarker(m) && IsSpace(c)
    ensures CountOccurrences(s + [c], m) == CountOccurrences(s, m)
    decreases |s|
  {
    FindWithoutLast(s, c, m);
    var i := Find(s, m);
    if i >= 0 {
      assert (s + [c])[i + |m|..] == s[i + |m|..] + [c];
      CountAt(s, m, s[i + |m|..]);
      CountAt(s + [c], m, s[i + |m|..] + [c]);
      CountWithoutLast(s[i + |m|..], c, m);
    } else {
      CountNone(s, m);
      CountNone(s + [c], m);
    }
  }

  lemma {:induction false} TrimEndCounts(s: string, m: string)
    requires IsMarker(m)
    ensures CountOccurrences(TrimEnd(s), m) == CountOccurrences(s, m)
    decreases |s|
  {
    if s != "" && IsSpace(s[|s| - 1]) {
      TrimEndCounts(s[..|s| - 1], m);
      CountWithoutLast(s[..|s| - 1], s[|s| - 1], m);
      assert s == s[..|s| - 1] + [s[|s| - 1]];
    }
  }

  // Trimming the end of text after a kept prefix.
  lemma {:induction false} TrimEndKeeps(p: string, s: string)
    requires p != "" && !IsSpace(p[|p| - 1])
    ensures TrimEnd(p + s) == p + TrimEnd(s)
    decreases |s|
  {
    if s == "" {
      assert p + s == p;
    } else {
      assert (p + s)[|p + s| - 1] == s[|s| - 1];
      assert (p + s)[..|p + s| - 1] == p + s[..|s| - 1];
      if IsSpace(s[|s| - 1]) { TrimEndKeeps(p, s[..|s| - 1]); }
    }
  }

  lemma {:induction false} TrimEndNonBlank(s: string)
    requires !Blank(s)
    ensures TrimEnd(s) != "" && TrimEnd(s)[0] == s[0]
    decreases |s|
  {
    if IsSpace(s[|s| - 1]) {
      assert s == s[..|s| - 1] + [s[|s| - 1]];
      TrimEndNonBlank(s[..|s| - 1]);
    }
  }

  lemma {:induction false} TrimEndAfterBreak(s: string)
    requires !Blank(s)
    ensures TrimEnd("\n" + s) == "\n" + TrimEnd(s)
    decreases |s|
  {
    var t, init := "\n" + s, s[..|s| - 1];
    assert t != "" && t[|t| - 1] == s[|s| - 1] && t[..|t| - 1] == "\n" + init;
    if IsSpace(s[|s| - 1]) {
      assert s == init + [s[|s| - 1]];
      assert !Blank(init);
      TrimEndAfterBreak(init);
    }
  }
}
