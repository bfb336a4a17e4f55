/** Which modules the exported-surface audit selects, and who owns each of its findings. */
module SurfacePolicy {
  import opened Wrappers
  import opened Paths
  import opened Texts
  import opened SurfaceAudit
  import Manifest = OutputManifest

  // ---- Boundaries -----------------------------------------------------------------------------

  datatype Boundary = Boundary(
    id: string, scope: string, file: string, exportName: string, pathPrefix: Option<string>, kinds: seq<Kind>)

  predicate Matches(b: Boundary, f: Finding) {
    && b.file == f.root.file
    && b.exportName == f.root.exportName
    && f.kind in b.kinds
    && (b.pathPrefix.Some? ==> StartsWith(f.surfacePath, b.pathPrefix.value))
  }

  // A boundary exempts nothing beyond its own export, its listed kinds and the surface below its prefix.
  lemma MatchesExactly(b: Boundary, f: Finding)
    ensures Matches(b, f) <==>
              && b.file == f.root.file && b.exportName == f.root.exportName
              && (exists i :: 0 <= i < |b.kinds| && b.kinds[i] == f.kind)
              && (b.pathPrefix == None || exists rest :: f.surfacePath == b.pathPrefix.value + rest)
  {
    if b.pathPrefix.Some? {
      var p := b.pathPrefix.value;
      if StartsWith(f.surfacePath, p) { assert f.surfacePath == p + f.surfacePath[|p|..]; }
      if rest :| f.surfacePath == p + rest { assert StartsWith(f.surfacePath, p); }
    }
  }

  datatype Violation =
    | Unapproved(finding: Finding)
    | Ambiguous(finding: Finding, ids: seq<string>)
    | Stale(id: string)

  ghost predicate IdsDistinct(boundaries: seq<Boundary>) {
    forall i, j :: 0 <= i < j < |boundaries| ==> boundaries[i].id != boundaries[j].id
  }

  function InScope(scope: string, boundaries: seq<Boundary>): seq<Boundary> {
    if boundaries == [] then []
    else (if boundaries[0].scope == scope then [boundaries[0]] else []) + InScope(scope, boundaries[1..])
  }

  function Matching(active: seq<Boundary>, f: Finding): seq<Boundary> {
    if active == [] then []
    else (if Matches(active[0], f) then [active[0]] else []) + Matching(active[1..], f)
  }

  // The j-th boundary matches f, and no other one does.
  ghost predicate OwnsAlone(active: seq<Boundary>, f: Finding, j: int) {
    0 <= j < |active| && Matches(active[j], f) && forall k :: 0 <= k < |active| && Matches(active[k], f) ==> k == j
  }

  // Every finding is owned by exactly one active boundary, and every active boundary owns a finding:
  // matching is a total single-valued relation from the findings onto the active boundaries.
  ghost predicate OwnedExactly(findings: seq<Finding>, active: seq<Boundary>) {
    EachOwned(findings, active) && EachOwns(findings, active)
  }

  ghost predicate EachOwned(findings: seq<Finding>, active: seq<Boundary>) {
    forall f :: f in findings ==> exists j :: OwnsAlone(active, f, j)
  }

  ghost predicate EachOwns(findings: seq<Finding>, active: seq<Boundary>) {
    forall j :: 0 <= j < |active| ==> Owns(findings, active[j])
  }

  ghost predicate Owns(findings: seq<Finding>, b: Boundary) {
    exists f :: f in findings && Matches(b, f)
  }

  ghost predicate EachSingle(findings: seq<Finding>, active: seq<Boundary>) {
    forall f :: f in findings ==> |Matching(active, f)| == 1
  }

  ghost predicate EachUsed(findings: seq<Finding>, active: seq<Boundary>, n: nat)
    requires n <= |active|
  {
    forall j :: 0 <= j < n ==> Used(findings, active, active[j].id)
  }

  lemma {:induction false} MatchingMembers(active: seq<Boundary>, f: Finding)
    ensures forall b :: b in Matching(active, f) <==> b in active && Matches(b, f)
  {
    if active != [] {
      MatchingMembers(active[1..], f);
      assert active == [active[0]] + active[1..];
    }
  }

  lemma {:induction false} NoneMatching(active: seq<Boundary>, f: Finding)
    ensures Matching(active, f) == [] <==> forall k :: 0 <= k < |active| ==> !Matches(active[k], f)
  {
    MatchingMembers(active, f);
    if Matching(active, f) != [] {
      var b := Matching(active, f)[0];
      assert b in Matching(active, f);
      var k :| 0 <= k < |active| && active[k] == b;
    }
  }

  lemma AloneHead(active: seq<Boundary>, f: Finding)
    requires active != [] && Matches(active[0], f)
    ensures (exists j :: OwnsAlone(active, f, j))
            <==> forall k :: 0 <= k < |active[1..]| ==> !Matches(active[1..][k], f)
  {
    var rest := active[1..];
    if j :| OwnsAlone(active, f, j) {
      assert j == 0;
      forall k | 0 <= k < |rest| ensures !Matches(rest[k], f) { assert rest[k] == active[k + 1]; }
    }
    if forall k :: 0 <= k < |rest| ==> !Matches(rest[k], f) {
      forall k | 0 < k < |active| ensures !Matches(active[k], f) { assert rest[k - 1] == active[k]; }
      assert OwnsAlone(active, f, 0);
    }
  }

  lemma AloneTail(active: seq<Boundary>, f: Finding)
    requires active != [] && !Matches(active[0], f)
    ensures (exists j :: OwnsAlone(active, f, j)) <==> exists j :: OwnsAlone(active[1..], f, j)
  {
    var rest := active[1..];
    if j :| OwnsAlone(active, f, j) {
      forall k | 0 <= k < |rest| && Matches(rest[k], f) ensures k == j - 1 { assert rest[k] == active[k + 1]; }
      assert OwnsAlone(rest, f, j - 1);
    }
    if j :| OwnsAlone(rest, f, j) {
      forall k | 0 <= k < |active| && Matches(active[k], f) ensures k == j + 1 {
        if k > 0 { assert rest[k - 1] == active[k]; }
      }
      assert OwnsAlone(active, f, j + 1);
    }
  }

  // One match in the filtered list is one matching position.
  lemma {:induction false} OneMatching(active: seq<Boundary>, f: Finding)
    ensures |Matching(active, f)| == 1 <==> exists j :: OwnsAlone(active, f, j)
  {
    if active != [] {
      OneMatching(active[1..], f);
      NoneMatching(active[1..], f);
      if Matches(active[0], f) { AloneHead(active, f); } else { AloneTail(active, f); }
    }
  }

  // The ids of boundaries that some finding matches alone.
  ghost predicate Used(findings: seq<Finding>, active: seq<Boundary>, id: string) {
    exists f :: f in findings && |Matching(active, f)| == 1 && Matching(active, f)[0].id == id
  }

  function Ids(boundaries: seq<Boundary>): seq<string> {
    if boundaries == [] then [] else [boundaries[0].id] + Ids(boundaries[1..])
  }

  // The report: one line per finding without an exact owner, in order, then one per unused boundary.
  function FindingViolations(active: seq<Boundary>, findings: seq<Finding>): seq<Violation> {
    if findings == [] then []
    else
      var n := |findings| - 1;
      var m := Matching(active, findings[n]);
      FindingViolations(active, findings[..n])
      + if m == [] then [Unapproved(findings[n])]
        else if |m| > 1 then [Ambiguous(findings[n], Ids(m))]
        else []
  }

  ghost function StaleViolations(active: seq<Boundary>, findings: seq<Finding>, n: nat): seq<Violation>
    requires n <= |active|
  {
    if n == 0 then []
    else StaleViolations(active, findings, n - 1)
         + if Used(findings, active, active[n - 1].id) then [] else [Stale(active[n - 1].id)]
  }

  ghost function Report(active: seq<Boundary>, findings: seq<Finding>): seq<Violation> {
    FindingViolations(active, findings) + StaleViolations(active, findings, |active|)
  }

  method AssertPolicy(findings: seq<Finding>, boundaries: seq<Boundary>, scope: string)
    returns (violations: seq<Violation>)
    ensures violations == Report(InScope(scope, boundaries), findings)
  {
    var active := InScope(scope, boundaries);
    var usedBoundaryIds: set<string> := {};
    violations := [];
    for i := 0 to |findings|
      invariant violations == FindingViolations(active, findings[..i])
      invariant forall id :: id in usedBoundaryIds <==> Used(findings[..i], active, id)
    {
      var f := findings[i];
      assert findings[..i + 1] == findings[..i] + [f];
      assert findings[..i + 1][..i] == findings[..i];
      var matches := Matching(active, f);
      UsedSnoc(findings[..i], f, active);
      if matches == [] {
        violations := violations + [Unapproved(f)];
      } else if |matches| > 1 {
        violations := violations + [Ambiguous(f, Ids(matches))];
      } else {
        usedBoundaryIds := usedBoundaryIds + {matches[0].id};
      }
    }
    assert findings[..|findings|] == findings;
    for j := 0 to |active|
      invariant violations == FindingViolations(active, findings) + StaleViolations(active, findings, j)
    {
      if active[j].id !in usedBoundaryIds { violations := violations + [Stale(active[j].id)]; }
    }
  }

  lemma UsedSnoc(findings: seq<Finding>, f: Finding, active: seq<Boundary>)
    ensures forall id :: Used(findings + [f], active, id)
              <==> Used(findings, active, id) || (|Matching(active, f)| == 1 && Matching(active, f)[0].id == id)
  {
    assert f in findings + [f] && forall x :: x in findings ==> x in findings + [f];
  }

  lemma {:induction false} FindingsClean(active: seq<Boundary>, findings: seq<Finding>)
    ensures FindingViolations(active, findings) == [] <==> EachSingle(findings, active)
    decreases |findings|
  {
    if findings != [] {
      var n := |findings| - 1;
      FindingsClean(active, findings[..n]);
      assert |FindingViolations(active, findings)| == |FindingViolations(active, findings[..n])|
          + if |Matching(active, findings[n])| == 1 then 0 else 1;
      forall f ensures f in findings <==> f in findings[..n] || f == findings[n] {
        assert findings == findings[..n] + [findings[n]];
      }
    }
  }

  lemma {:induction false} BoundariesUsed(active: seq<Boundary>, findings: seq<Finding>, n: nat)
    requires n <= |active|
    ensures StaleViolations(active, findings, n) == []
            <==> EachUsed(findings, active, n)
  {
    if n > 0 {
      var used := Used(findings, active, active[n - 1].id);
      BoundariesUsed(active, findings, n - 1);
      assert |StaleViolations(active, findings, n)| ==
             |StaleViolations(active, findings, n - 1)| + if used then 0 else 1;
      assert EachUsed(findings, active, n) <==> EachUsed(findings, active, n - 1) && used;
    }
  }

  lemma {:induction false} ScopeMembers(scope: string, boundaries: seq<Boundary>)
    ensures forall b :: b in InScope(scope, boundaries) <==> b in boundaries && b.scope == scope
  {
    if boundaries != [] {
      ScopeMembers(scope, boundaries[1..]);
      assert boundaries == [boundaries[0]] + boundaries[1..];
    }
  }

  lemma {:induction false} ScopeKeepsIds(scope: string, boundaries: seq<Boundary>)
    requires IdsDistinct(boundaries)
    ensures IdsDistinct(InScope(scope, boundaries))
  {
    if boundaries != [] {
      var rest := boundaries[1..];
      ScopeKeepsIds(scope, rest);
      ScopeMembers(scope, rest);
      forall b | b in InScope(scope, rest) ensures b.id != boundaries[0].id {
        var k :| 0 <= k < |rest| && rest[k] == b;
        assert boundaries[k + 1] == b;
      }
      if boundaries[0].scope == scope {
        var all := [boundaries[0]] + InScope(scope, rest);
        forall i, j | 0 <= i < j < |all| ensures all[i].id != all[j].id {
          assert all[j] == InScope(scope, rest)[j - 1] && all[j] in InScope(scope, rest);
          if i > 0 { assert all[i] == InScope(scope, rest)[i - 1]; }
        }
      }
    }
  }

  // With distinct ids, a boundary is used exactly when some finding matches it alone.
  lemma UsedMeans(findings: seq<Finding>, active: seq<Boundary>, j: nat)
    requires IdsDistinct(active) && j < |active|
    requires EachSingle(findings, active)
    ensures Used(findings, active, active[j].id) <==> Owns(findings, active[j])
  {
    forall f | f in findings
      ensures Matching(active, f)[0].id == active[j].id <==> Matches(active[j], f) {
      SoleOwner(active, f, j);
    }
  }

  lemma SoleOwner(active: seq<Boundary>, f: Finding, j: nat)
    requires IdsDistinct(active) && j < |active| && |Matching(active, f)| == 1
    ensures Matching(active, f)[0].id == active[j].id <==> Matches(active[j], f)
  {
    MatchingMembers(active, f);
    var b := Matching(active, f)[0];
    assert b in Matching(active, f) && active[j] in active;
    var k :| 0 <= k < |active| && active[k] == b;
    assert active[j].id == b.id ==> j == k;
    assert Matches(active[j], f) ==> active[j] in Matching(active, f);
    assert active[j] in Matching(active, f) ==> active[j] == b;
  }

  // The policy passes if and only if every finding has exactly one owner among the active boundaries and
  // every active boundary owns at least one finding.
  lemma PolicyIsExact(findings: seq<Finding>, boundaries: seq<Boundary>, scope: string)
    requires IdsDistinct(boundaries)
    ensures Report(InScope(scope, boundaries), findings) == [] <==> OwnedExactly(findings, InScope(scope, boundaries))
  {
    var active := InScope(scope, boundaries);
    ScopeKeepsIds(scope, boundaries);
    FindingsClean(active, findings);
    BoundariesUsed(active, findings, |active|);
    assert Report(active, findings) == [] <==>
           FindingViolations(active, findings) == [] && StaleViolations(active, findings, |active|) == [];
    FindingsOwned(active, findings);
    if EachSingle(findings, active) { BoundariesOwn(active, findings); }
  }

  lemma FindingsOwned(active: seq<Boundary>, findings: seq<Finding>)
    ensures EachSingle(findings, active) <==> EachOwned(findings, active)
  {
    forall f | f in findings ensures |Matching(active, f)| == 1 <==> exists j :: OwnsAlone(active, f, j) {
      OneMatching(active, f);
    }
  }

  lemma BoundariesOwn(active: seq<Boundary>, findings: seq<Finding>)
    requires IdsDistinct(active) && EachSingle(findings, active)
    ensures EachUsed(findings, active, |active|) <==> EachOwns(findings, active)
  {
    forall j | 0 <= j < |active| ensures Used(findings, active, active[j].id) <==> Owns(findings, active[j]) {
      UsedMeans(findings, active, j);
    }
  }

  // ---- What the report says -----------------------------------------------------------------------

  // These are the positions of the matching boundaries, in order.
  ghost predicate Positions(active: seq<Boundary>, f: Finding, ks: seq<nat>) {
    && Increasing(ks) && (forall i :: 0 <= i < |ks| ==> ks[i] < |active|)
    && (forall k: nat :: k in ks <==> k < |active| && Matches(active[k], f))
  }

  ghost predicate Increasing(ks: seq<nat>) { forall i, j :: 0 <= i < j < |ks| ==> ks[i] < ks[j] }

  lemma HeadIn(ks: seq<nat>)
    ensures ks == [] || ks[0] in ks
  {
  }

  lemma {:induction false} PositionsUnique(ks: seq<nat>, ls: seq<nat>)
    requires Increasing(ks) && Increasing(ls) && forall k: nat :: k in ks <==> k in ls
    ensures ks == ls
    decreases |ks|
  {
    if ks == [] {
      HeadIn(ls);
    } else {
      assert ks[0] in ks && ks[0] in ls;
      assert ls[0] in ls && ls[0] in ks;
      assert ks[0] == ls[0];
      forall k: nat ensures k in ks[1..] <==> k in ls[1..] {
        TailMembers(ks, k);
        TailMembers(ls, k);
      }
      PositionsUnique(ks[1..], ls[1..]);
      assert ks == [ks[0]] + ks[1..] && ls == [ls[0]] + ls[1..];
    }
  }

  lemma TailMembers(ks: seq<nat>, k: nat)
    requires ks != [] && Increasing(ks)
    ensures k in ks[1..] <==> k in ks && k != ks[0]
  {
    if k in ks[1..] {
      var i :| 0 <= i < |ks| - 1 && ks[1..][i] == k;
      assert ks[i + 1] == k;
    }
    assert ks == [ks[0]] + ks[1..];
  }

  ghost predicate Enumerates(active: seq<Boundary>, f: Finding, ks: seq<nat>) {
    && Positions(active, f, ks) && |ks| == |Matching(active, f)|
    && forall i :: 0 <= i < |ks| ==> Matching(active, f)[i] == active[ks[i]]
  }

  lemma {:induction false} MatchingAt(active: seq<Boundary>, f: Finding) returns (ks: seq<nat>)
    ensures Enumerates(active, f, ks)
    decreases |active|
  {
    if active == [] {
      ks := [];
    } else {
      var rest := MatchingAt(active[1..], f);
      var up := seq(|rest|, i requires 0 <= i < |rest| => rest[i] + 1);
      MovedUp(active, f, rest, up);
      if Matches(active[0], f) {
        ks := [0] + up;
        HeadFirst(active, f, up);
      } else {
        ks := up;
        HeadSkipped(active, f, up);
      }
    }
  }

  // The matches of the tail, counted from the head.
  ghost predicate TailAt(active: seq<Boundary>, f: Finding, up: seq<nat>)
    requires active != []
  {
    && Increasing(up) && |up| == |Matching(active[1..], f)|
    && (forall i :: 0 <= i < |up| ==> up[i] < |active| && Matching(active[1..], f)[i] == active[up[i]])
    && (forall k: nat :: k in up <==> 0 < k < |active| && Matches(active[k], f))
  }

  lemma MovedUp(active: seq<Boundary>, f: Finding, rest: seq<nat>, up: seq<nat>)
    requires active != [] && Enumerates(active[1..], f, rest) && |up| == |rest|
    requires forall i :: 0 <= i < |up| ==> up[i] == rest[i] + 1
    ensures TailAt(active, f, up)
  {
    forall k: nat ensures k in up <==> 0 < k < |active| && Matches(active[k], f) {
      if k in up {
        var i :| 0 <= i < |up| && up[i] == k;
        assert rest[i] in rest && active[1..][k - 1] == active[k];
      }
      if 0 < k < |active| && Matches(active[k], f) {
        assert active[1..][k - 1] == active[k] && k - 1 in rest;
        var i :| 0 <= i < |rest| && rest[i] == k - 1;
        assert up[i] == k;
      }
    }
  }

  lemma ZeroFirst(up: seq<nat>)
    requires Increasing(up) && 0 !in up
    ensures Increasing([0] + up) && forall k: nat :: k in [0] + up <==> k == 0 || k in up
  {
    forall j | 0 <= j < |up| ensures 0 < up[j] { assert up[j] in up; }
  }

  lemma HeadMatching(active: seq<Boundary>, f: Finding, up: seq<nat>)
    requires active != [] && Matches(active[0], f) && |up| == |Matching(active[1..], f)|
    requires forall i :: 0 <= i < |up| ==> up[i] < |active| && Matching(active[1..], f)[i] == active[up[i]]
    ensures var ks := [0] + up;
            && |ks| == |Matching(active, f)|
            && forall i :: 0 <= i < |ks| ==> ks[i] < |active| && Matching(active, f)[i] == active[ks[i]]
  {
    var rest := Matching(active[1..], f);
    assert Matching(active, f) == [active[0]] + rest;
    var ks := [0] + up;
    forall i | 0 <= i < |ks| ensures ks[i] < |active| && ([active[0]] + rest)[i] == active[ks[i]] {
      if i > 0 { assert ks[i] == up[i - 1] && ([active[0]] + rest)[i] == rest[i - 1]; }
    }
  }

  lemma HeadFirst(active: seq<Boundary>, f: Finding, up: seq<nat>)
    requires active != [] && Matches(active[0], f) && TailAt(active, f, up)
    ensures Enumerates(active, f, [0] + up)
  {
    ZeroFirst(up);
    HeadMatching(active, f, up);
  }

  lemma HeadSkipped(active: seq<Boundary>, f: Finding, up: seq<nat>)
    requires active != [] && !Matches(active[0], f) && TailAt(active, f, up)
    ensures Enumerates(active, f, up)
  {
    assert Matching(active, f) == Matching(active[1..], f);
  }

  lemma {:induction false} IdsAt(bs: seq<Boundary>)
    ensures |Ids(bs)| == |bs| && forall i :: 0 <= i < |bs| ==> Ids(bs)[i] == bs[i].id
  {
    if bs != [] { IdsAt(bs[1..]); }
  }

  // The ids of two or more boundaries that all match, in order and without omission.
  ghost predicate Rivals(active: seq<Boundary>, f: Finding, ids: seq<string>) {
    exists ks :: Positions(active, f, ks) && |ks| == |ids| >= 2 && forall i :: 0 <= i < |ids| ==> ids[i] == active[ks[i]].id
  }

  ghost predicate Deserved(findings: seq<Finding>, active: seq<Boundary>, v: Violation) {
    match v
    case Unapproved(f) => f in findings && forall k :: 0 <= k < |active| ==> !Matches(active[k], f)
    case Ambiguous(f, ids) => f in findings && Rivals(active, f, ids)
    case Stale(id) =>
      exists j :: 0 <= j < |active| && active[j].id == id && forall f :: f in findings ==> !OwnsAlone(active, f, j)
  }

  lemma RivalsAre(active: seq<Boundary>, f: Finding, ids: seq<string>)
    ensures Rivals(active, f, ids) <==> |Matching(active, f)| > 1 && ids == Ids(Matching(active, f))
  {
    var m := Matching(active, f);
    var ks := MatchingAt(active, f);
    IdsAt(m);
    if Rivals(active, f, ids) {
      var ls :| Positions(active, f, ls) && |ls| == |ids| >= 2 && forall i :: 0 <= i < |ids| ==> ids[i] == active[ls[i]].id;
      PositionsUnique(ks, ls);
    }
  }

  lemma {:induction false} FindingLines(active: seq<Boundary>, findings: seq<Finding>, v: Violation)
    ensures v in FindingViolations(active, findings) <==> !v.Stale? && Deserved(findings, active, v)
    decreases |findings|
  {
    if findings != [] {
      var n := |findings| - 1;
      var f := findings[n];
      FindingLines(active, findings[..n], v);
      NoneMatching(active, f);
      if v.Ambiguous? { RivalsAre(active, v.finding, v.ids); }
      assert findings == findings[..n] + [f];
    }
  }

  lemma AloneIsUsed(findings: seq<Finding>, active: seq<Boundary>, j: nat)
    requires IdsDistinct(active) && j < |active|
    ensures Used(findings, active, active[j].id) <==> exists f :: f in findings && OwnsAlone(active, f, j)
  {
    forall f | f in findings
      ensures |Matching(active, f)| == 1 && Matching(active, f)[0].id == active[j].id <==> OwnsAlone(active, f, j) {
      OneMatching(active, f);
      if |Matching(active, f)| == 1 { SoleOwner(active, f, j); }
    }
  }

  lemma {:induction false} StaleLines(active: seq<Boundary>, findings: seq<Finding>, n: nat, v: Violation)
    requires n <= |active|
    ensures v in StaleViolations(active, findings, n)
            <==> v.Stale? && exists j :: 0 <= j < n && active[j].id == v.id && !Used(findings, active, active[j].id)
  {
    if n > 0 { StaleLines(active, findings, n - 1, v); }
  }

  // The report names a finding as unapproved exactly when no active boundary matches it, as ambiguous exactly
  // with the ids of all those that do when there are several, and a boundary as stale exactly when it
  // is nobody's only owner.
  lemma ReportMeans(findings: seq<Finding>, active: seq<Boundary>, v: Violation)
    requires IdsDistinct(active)
    ensures v in Report(active, findings) <==> Deserved(findings, active, v)
  {
    FindingLines(active, findings, v);
    StaleLines(active, findings, |active|, v);
    forall j | 0 <= j < |active|
      ensures Used(findings, active, active[j].id) <==> exists f :: f in findings && OwnsAlone(active, f, j) {
      AloneIsUsed(findings, active, j);
    }
  }

  // ---- Inventories ----------------------------------------------------------------------------

  datatype Disposition = RuntimeBoundary | FixtureBoundary | KnownGap

  datatype Classification = Classification(file: string, disposition: Disposition, reason: string, owner: Option<string>)

  // owned is what the manifest reader returned for this inventory.
  datatype Inventory = Inventory(root: Manifest.Location, owned: seq<string>, classifications: seq<Classification>)

  predicate ClassificationOk(owned: seq<string>, c: Classification) {
    && PortableText(c.file) && !Blank(c.reason)
    && (c.disposition.KnownGap? ==> c.owner.Some? && !Blank(c.owner.value))
    && c.file in owned
  }

  predicate FilesDistinct(cs: seq<Classification>) {
    forall i, j :: 0 <= i < j < |cs| ==> cs[i].file != cs[j].file
  }

  predicate InventoryOk(inv: Inventory) {
    && (forall i :: 0 <= i < |inv.classifications| ==> ClassificationOk(inv.owned, inv.classifications[i]))
    && FilesDistinct(inv.classifications)
  }

  predicate Classified(inv: Inventory, file: string) {
    exists i :: 0 <= i < |inv.classifications| && inv.classifications[i].file == file
  }

  function Place(inv: Inventory, file: string): Manifest.Location { inv.root + Split(file, '/') }

  // The locations that one inventory enrolls: its owned files that it does not classify, in order.
  function Enrolled(inv: Inventory, owned: seq<string>): seq<Manifest.Location> {
    if owned == [] then []
    else
      var n := |owned| - 1;
      Enrolled(inv, owned[..n]) + if Classified(inv, owned[n]) then [] else [Place(inv, owned[n])]
  }

  function AllEnrolled(inventories: seq<Inventory>): seq<Manifest.Location> {
    if inventories == [] then []
    else
      var n := |inventories| - 1;
      AllEnrolled(inventories[..n]) + Enrolled(inventories[n], inventories[n].owned)
  }

  ghost predicate NoRepeats(places: seq<Manifest.Location>) {
    forall i, j :: 0 <= i < j < |places| ==> places[i] != places[j]
  }

  ghost predicate Fresh(program: set<Manifest.Location>, places: seq<Manifest.Location>) {
    NoRepeats(places) && forall p :: p in places ==> p in program
  }

  method CheckClassifications(inv: Inventory) returns (classified: Option<set<string>>)
    ensures classified.Some? <==> InventoryOk(inv)
    ensures classified.Some? ==> forall f :: f in classified.value <==> Classified(inv, f)
  {
    var cs := inv.classifications;
    var seen: set<string> := {};
    for k := 0 to |cs|
      invariant forall i :: 0 <= i < k ==> ClassificationOk(inv.owned, cs[i])
      invariant forall f :: f in seen <==> exists i :: 0 <= i < k && cs[i].file == f
      invariant forall i, j :: 0 <= i < j < k ==> cs[i].file != cs[j].file
    {
      var c := cs[k];
      if !PortableText(c.file) || Blank(c.reason) { return None; }
      if c.disposition.KnownGap? && (c.owner.None? || Blank(c.owner.value)) { return None; }
      if c.file in seen { return None; }
      if c.file !in inv.owned { return None; }
      seen := seen + {c.file};
    }
    return Some(seen);
  }

  lemma FreshSnoc(program: set<Manifest.Location>, places: seq<Manifest.Location>, p: Manifest.Location)
    requires Fresh(program, places)
    ensures Fresh(program, places + [p]) <==> p in program && p !in places
  {
    var all := places + [p];
    assert all[|places|] == p;
    if Fresh(program, all) {
      assert p in all;
      forall i | 0 <= i < |places| ensures places[i] != p { assert all[i] == places[i]; }
    }
  }

  lemma FreshPrefix(program: set<Manifest.Location>, a: seq<Manifest.Location>, b: seq<Manifest.Location>)
    requires Fresh(program, a + b)
    ensures Fresh(program, a)
  {
    forall i | 0 <= i < |a| ensures a[i] == (a + b)[i] {}
    forall p | p in a ensures p in a + b {}
  }

  lemma {:induction false} EnrolledPrefix(inv: Inventory, owned: seq<string>, k: nat)
    requires k <= |owned|
    ensures Enrolled(inv, owned[..k]) <= Enrolled(inv, owned)
    decreases |owned|
  {
    if k < |owned| {
      var n := |owned| - 1;
      EnrolledPrefix(inv, owned[..n], k);
      assert owned[..n][..k] == owned[..k];
    } else {
      assert owned[..k] == owned;
    }
  }

  // One inventory's files join the selection, or one of them is outside the program or already enrolled.
  lemma EnrolledSnoc(inv: Inventory, k: nat)
    requires k < |inv.owned|
    ensures Enrolled(inv, inv.owned[..k + 1]) == if Classified(inv, inv.owned[k]) then Enrolled(inv, inv.owned[..k])
              else Enrolled(inv, inv.owned[..k]) + [Place(inv, inv.owned[k])]
  {
    var init, all := inv.owned[..k], inv.owned[..k + 1];
    assert all[..k] == init && all[k] == inv.owned[k];
    assert Enrolled(inv, init) + [] == Enrolled(inv, init);
  }

  lemma Regroup(a: seq<Manifest.Location>, b: seq<Manifest.Location>, p: Manifest.Location)
    ensures a + (b + [p]) == a + b + [p]
  {
  }

  method EnrollFiles(inv: Inventory, classified: set<string>, program: set<Manifest.Location>,
                     selected: seq<Manifest.Location>)
    returns (r: Option<seq<Manifest.Location>>)
    requires forall f :: f in classified <==> Classified(inv, f)
    requires Fresh(program, selected)
    ensures r.Some? <==> Fresh(program, selected + Enrolled(inv, inv.owned))
    ensures r.Some? ==> r.value == selected + Enrolled(inv, inv.owned)
  {
    var now := selected;
    ghost var enrolled: seq<Manifest.Location> := [];
    for k := 0 to |inv.owned|
      invariant enrolled == Enrolled(inv, inv.owned[..k]) && now == selected + enrolled && Fresh(program, now)
    {
      var file := inv.owned[k];
      EnrolledSnoc(inv, k);
      if file in classified { continue; }
      var place := Place(inv, file);
      FreshSnoc(program, now, place);
      Regroup(selected, enrolled, place);
      if place !in program || place in now {
        RefusedForGood(inv, program, selected, k);
        return None;
      }
      now, enrolled := now + [place], enrolled + [place];
    }
    assert inv.owned[..|inv.owned|] == inv.owned;
    return Some(now);
  }

  lemma RefusedForGood(inv: Inventory, program: set<Manifest.Location>, selected: seq<Manifest.Location>, k: nat)
    requires k < |inv.owned| && !Fresh(program, selected + Enrolled(inv, inv.owned[..k + 1]))
    ensures !Fresh(program, selected + Enrolled(inv, inv.owned))
  {
    EnrolledPrefix(inv, inv.owned, k + 1);
    var a, all := Enrolled(inv, inv.owned[..k + 1]), Enrolled(inv, inv.owned);
    assert selected + all == (selected + a) + all[|a|..];
    if Fresh(program, selected + all) { FreshPrefix(program, selected + a, all[|a|..]); }
  }

  ghost predicate SelectionOk(inventories: seq<Inventory>, program: set<Manifest.Location>) {
    (forall i :: 0 <= i < |inventories| ==> InventoryOk(inventories[i])) && Fresh(program, AllEnrolled(inventories))
  }

  lemma SelectionSnoc(inventories: seq<Inventory>, inv: Inventory, program: set<Manifest.Location>)
    ensures SelectionOk(inventories + [inv], program) ==> SelectionOk(inventories, program)
    ensures SelectionOk(inventories, program) ==>
              (SelectionOk(inventories + [inv], program) <==>
                 InventoryOk(inv) && Fresh(program, AllEnrolled(inventories) + Enrolled(inv, inv.owned)))
    ensures AllEnrolled(inventories + [inv]) == AllEnrolled(inventories) + Enrolled(inv, inv.owned)
  {
    var all := inventories + [inv];
    assert all[..|inventories|] == inventories && all[|inventories|] == inv;
    if SelectionOk(all, program) {
      FreshPrefix(program, AllEnrolled(inventories), Enrolled(inv, inv.owned));
      forall i | 0 <= i < |inventories| ensures InventoryOk(inventories[i]) { assert all[i] == inventories[i]; }
    }
  }

  lemma {:induction false} SelectionPrefix(inventories: seq<Inventory>, k: nat, program: set<Manifest.Location>)
    requires k <= |inventories| && SelectionOk(inventories, program)
    ensures SelectionOk(inventories[..k], program)
    decreases |inventories|
  {
    if k < |inventories| {
      var n := |inventories| - 1;
      assert inventories == inventories[..n] + [inventories[n]];
      SelectionSnoc(inventories[..n], inventories[n], program);
      SelectionPrefix(inventories[..n], k, program);
      assert inventories[..n][..k] == inventories[..k];
    } else {
      assert inventories[..k] == inventories;
    }
  }

  method SelectModules(inventories: seq<Inventory>, program: set<Manifest.Location>)
    returns (selected: Option<seq<Manifest.Location>>)
    ensures selected.Some? <==> SelectionOk(inventories, program) && AllEnrolled(inventories) != []
    ensures selected.Some? ==> selected.value == AllEnrolled(inventories)
  {
    var now: seq<Manifest.Location> := [];
    for k := 0 to |inventories|
      invariant SelectionOk(inventories[..k], program) && now == AllEnrolled(inventories[..k])
    {
      var inv := inventories[k];
      assert inventories[..k + 1] == inventories[..k] + [inv];
      SelectionSnoc(inventories[..k], inv, program);
      var classified := CheckClassifications(inv);
      var next: Option<seq<Manifest.Location>> := None;
      if classified.Some? { next := EnrollFiles(inv, classified.value, program, now); }
      if next.None? {
        if SelectionOk(inventories, program) { SelectionPrefix(inventories, k + 1, program); }
        return None;
      }
      now := next.value;
    }
    assert inventories[..|inventories|] == inventories;
    return if now == [] then None else Some(now);
  }

  // ---- What an accepted selection is -------------------------------------------------------------

  lemma {:induction false} EnrolledMembers(inv: Inventory, owned: seq<string>)
    ensures forall p :: p in Enrolled(inv, owned) <==>
              exists f :: f in owned && !Classified(inv, f) && Place(inv, f) == p
    decreases |owned|
  {
    if owned != [] {
      var n := |owned| - 1;
      EnrolledMembers(inv, owned[..n]);
      assert owned == owned[..n] + [owned[n]];
    }
  }

  ghost predicate SomewhereEnrolled(inventories: seq<Inventory>, p: Manifest.Location) {
    exists i :: 0 <= i < |inventories| && p in Enrolled(inventories[i], inventories[i].owned)
  }

  lemma SomewhereSnoc(inventories: seq<Inventory>, p: Manifest.Location)
    requires inventories != []
    ensures var n := |inventories| - 1;
            SomewhereEnrolled(inventories, p)
            <==> SomewhereEnrolled(inventories[..n], p) || p in Enrolled(inventories[n], inventories[n].owned)
  {
    var n := |inventories| - 1;
    var init := inventories[..n];
    if SomewhereEnrolled(init, p) {
      var i :| 0 <= i < n && p in Enrolled(init[i], init[i].owned);
      assert init[i] == inventories[i];
    }
    if SomewhereEnrolled(inventories, p) {
      var i :| 0 <= i < |inventories| && p in Enrolled(inventories[i], inventories[i].owned);
      if i < n { assert init[i] == inventories[i]; }
    }
  }

  lemma {:induction false} EnrolledSomewhere(inventories: seq<Inventory>, p: Manifest.Location)
    ensures p in AllEnrolled(inventories) <==> SomewhereEnrolled(inventories, p)
    decreases |inventories|
  {
    if inventories != [] {
      EnrolledSomewhere(inventories[..|inventories| - 1], p);
      SomewhereSnoc(inventories, p);
    }
  }

  lemma AllEnrolledMembers(inventories: seq<Inventory>)
    ensures forall p :: p in AllEnrolled(inventories) <==>
              exists i :: 0 <= i < |inventories| && p in Enrolled(inventories[i], inventories[i].owned)
  {
    forall p ensures p in AllEnrolled(inventories) <==> SomewhereEnrolled(inventories, p) {
      EnrolledSomewhere(inventories, p);
    }
  }

  lemma DisjointParts(a: seq<Manifest.Location>, b: seq<Manifest.Location>)
    requires NoRepeats(a + b)
    ensures forall p :: p in a ==> p !in b
  {
    forall i, j | 0 <= i < |a| && 0 <= j < |b| ensures a[i] != b[j] {
      assert (a + b)[i] == a[i] && (a + b)[|a| + j] == b[j];
    }
  }

  lemma {:induction false} InventoriesDisjoint(inventories: seq<Inventory>, i: nat, j: nat)
    requires i < j < |inventories| && NoRepeats(AllEnrolled(inventories))
    ensures forall p :: p in Enrolled(inventories[i], inventories[i].owned) ==>
              p !in Enrolled(inventories[j], inventories[j].owned)
    decreases |inventories|
  {
    var n := |inventories| - 1;
    var init := inventories[..n];
    DisjointParts(AllEnrolled(init), Enrolled(inventories[n], inventories[n].owned));
    if j == n {
      AllEnrolledMembers(init);
      assert init[i] == inventories[i];
    } else {
      forall x, y | 0 <= x < y < |AllEnrolled(init)| ensures AllEnrolled(init)[x] != AllEnrolled(init)[y] {
        assert AllEnrolled(inventories)[x] == AllEnrolled(init)[x] && AllEnrolled(inventories)[y] == AllEnrolled(init)[y];
      }
      InventoriesDisjoint(init, i, j);
    }
  }

  // An accepted selection is the disjoint union, over the inventories, of the owned type modules without
  // exactly the classified ones; every classification names one owned file, once.
  lemma SelectionIsExact(inventories: seq<Inventory>, program: set<Manifest.Location>)
    requires SelectionOk(inventories, program)
    ensures forall p :: p in AllEnrolled(inventories) <==>
              exists i, f :: 0 <= i < |inventories| && f in inventories[i].owned
                && !Classified(inventories[i], f) && Place(inventories[i], f) == p
    ensures forall i, j :: 0 <= i < j < |inventories| ==>
              forall p :: p in Enrolled(inventories[i], inventories[i].owned) ==>
                p !in Enrolled(inventories[j], inventories[j].owned)
    ensures forall i, f :: 0 <= i < |inventories| && Classified(inventories[i], f) ==> f in inventories[i].owned
    ensures forall p :: p in AllEnrolled(inventories) ==> p in program
  {
    AllEnrolledMembers(inventories);
    forall i | 0 <= i < |inventories|
      ensures forall p :: p in Enrolled(inventories[i], inventories[i].owned) <==>
                exists f :: f in inventories[i].owned && !Classified(inventories[i], f) && Place(inventories[i], f) == p {
      EnrolledMembers(inventories[i], inventories[i].owned);
    }
    forall i, j | 0 <= i < j < |inventories|
      ensures forall p :: p in Enrolled(inventories[i], inventories[i].owned) ==>
                p !in Enrolled(inventories[j], inventories[j].owned) {
      InventoriesDisjoint(inventories, i, j);
    }
    forall i, f | 0 <= i < |inventories| && Classified(inventories[i], f) ensures f in inventories[i].owned {
      var c :| 0 <= c < |inventories[i].classifications| && inventories[i].classifications[c].file == f;
      assert ClassificationOk(inventories[i].owned, inventories[i].classifications[c]);
    }
  }
}
