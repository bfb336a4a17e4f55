/**
 Acceptance of a publication plan: the corpus checker of the repository's scripts, which compares
 paths as written, and the publisher's own validator, which compares their portable identities.
 */
module PlanCheck {
  import opened Wrappers
  import opened ArtifactPlan
  import ArtifactProtocol
  import opened Paths
  import OutputManifest

  // ---- Names and states ---------------------------------------------------------------------

  function AsciiLower(s: string): (r: string)
    ensures |r| == |s|
  {
    if s == "" then "" else [if 'A' <= s[0] <= 'Z' then s[0] - 'A' + 'a' else s[0]] + AsciiLower(s[1..])
  }

  predicate IsDigest(s: string) {
    |s| == 64 && forall c :: c in s ==> '0' <= c <= '9' || 'a' <= c <= 'f'
  }

  predicate StateOk(state: FileState) {
    state.File? ==> IsDigest(state.sha256) && state.mode <= 511
  }

  // portablePath of the corpus checker; normal says that a text is its own NFC form.
  predicate Portable(normal: string -> bool, s: string) {
    PortableText(s) && s[0] != '/' && normal(s)
  }

  const RESERVED: set<string> := {
    "con", "prn", "aux", "nul",
    "com1", "com2", "com3", "com4", "com5", "com6", "com7", "com8", "com9",
    "lpt1", "lpt2", "lpt3", "lpt4", "lpt5", "lpt6", "lpt7", "lpt8", "lpt9" }

  // What the publisher additionally demands of one path segment.
  predicate StrictSegment(segment: string) {
    && segment != ""
    && segment[|segment| - 1] != ' ' && segment[|segment| - 1] != '.'
    && (forall c :: c in segment ==> c !in "<>:\"|?*" && !('\U{1}' <= c <= '\U{1F}'))
    && (AsciiLower(Split(segment, '.')[0]) in RESERVED ==> '\U{2028}' in segment || '\U{2029}' in segment)
  }

  predicate Strict(s: string) {
    forall segment :: segment in Split(s, '/') ==> StrictSegment(segment)
  }

  // ---- What both checkers promise about names ----------------------------------------------

  predicate Distinct(values: seq<string>, fold: string -> string) {
    forall i, j :: 0 <= i < j < |values| ==> fold(values[i]) != fold(values[j])
  }

  predicate Sorted(values: seq<string>) {
    forall i, j :: 0 <= i < j < |values| ==> !Less(values[j], values[i])
  }

  predicate LiveDistinct(ts: seq<Transition>, fold: string -> string) {
    forall i, j :: 0 <= i < j < |ts| ==> fold(ts[i].path) != fold(ts[j].path)
  }

  predicate StagedDistinct(ts: seq<Transition>, fold: string -> string) {
    forall i, j :: 0 <= i < j < |ts| && ts[i].stagedPath.Some? && ts[j].stagedPath.Some? ==>
      fold(ts[i].stagedPath.value) != fold(ts[j].stagedPath.value)
  }

  predicate LiveNotStaged(ts: seq<Transition>, fold: string -> string) {
    forall i, j :: 0 <= i < |ts| && 0 <= j < |ts| && ts[j].stagedPath.Some? ==>
      fold(ts[i].path) != fold(ts[j].stagedPath.value)
  }

  predicate NotRoots(ts: seq<Transition>, fold: string -> string, roots: set<string>) {
    forall i :: 0 <= i < |ts| ==>
      fold(ts[i].path) !in roots && (ts[i].stagedPath.Some? ==> fold(ts[i].stagedPath.value) !in roots)
  }

  // No two live, staged and private names share a portable identity; roots are the identities of the
  // private roots.
  predicate Separate(ts: seq<Transition>, fold: string -> string, roots: set<string>) {
    LiveDistinct(ts, fold) && StagedDistinct(ts, fold) && LiveNotStaged(ts, fold) && NotRoots(ts, fold, roots)
  }

  function RootKeys(plan: Plan, fold: string -> string): set<string> {
    {fold(plan.transactionRoot), fold(plan.stageRoot)}
  }

  predicate NamesDistinct(plan: Plan, fold: string -> string) {
    && fold(plan.transactionRoot) != fold(plan.stageRoot)
    && Separate(plan.Transitions(), fold, RootKeys(plan, fold))
  }

  function LivePaths(ts: seq<Transition>): (ps: seq<string>)
    ensures |ps| == |ts| && forall i :: 0 <= i < |ts| ==> ps[i] == ts[i].path
  {
    seq(|ts|, i requires 0 <= i < |ts| => ts[i].path)
  }

  function StagePaths(ts: seq<Transition>): (ps: seq<string>)
    ensures forall p :: p in ps <==> exists i :: 0 <= i < |ts| && ts[i].stagedPath == Some(p)
  {
    if ts == [] then []
    else
      var rest := StagePaths(ts[1..]);
      if ts[0].stagedPath.Some? then [ts[0].stagedPath.value] + rest else rest
  }

  ghost predicate NoneShared(xs: seq<string>, ys: seq<string>, fold: string -> string) {
    forall x, y :: x in xs && y in ys ==> fold(x) != fold(y)
  }

  lemma DistinctAppend(a: seq<string>, b: seq<string>, fold: string -> string)
    ensures Distinct(a + b, fold) <==> Distinct(a, fold) && Distinct(b, fold) && NoneShared(a, b, fold)
  {
    var c := a + b;
    if Distinct(c, fold) {
      forall i, j | 0 <= i < j < |a| ensures fold(a[i]) != fold(a[j]) { assert c[i] == a[i] && c[j] == a[j]; }
      forall i, j | 0 <= i < j < |b| ensures fold(b[i]) != fold(b[j]) {
        assert c[|a| + i] == b[i] && c[|a| + j] == b[j];
      }
      forall x, y | x in a && y in b ensures fold(x) != fold(y) {
        var i :| 0 <= i < |a| && a[i] == x;
        var j :| 0 <= j < |b| && b[j] == y;
        assert c[i] == x && c[|a| + j] == y;
      }
    }
  }

  lemma NoneSharedAppend(a: seq<string>, b: seq<string>, c: seq<string>, fold: string -> string)
    ensures NoneShared(a + b, c, fold) <==> NoneShared(a, c, fold) && NoneShared(b, c, fold)
  {
    forall x ensures x in a + b <==> x in a || x in b {}
  }

  lemma {:induction false} StagePathsDistinct(ts: seq<Transition>, fold: string -> string)
    ensures Distinct(StagePaths(ts), fold) <==> StagedDistinct(ts, fold)
  {
    if ts != [] {
      var rest := ts[1..];
      StagePathsDistinct(rest, fold);
      if ts[0].stagedPath.Some? {
        var v := ts[0].stagedPath.value;
        DistinctAppend([v], StagePaths(rest), fold);
        if Distinct([v] + StagePaths(rest), fold) {
          forall i, j | 0 <= i < j < |ts| && ts[i].stagedPath.Some? && ts[j].stagedPath.Some?
            ensures fold(ts[i].stagedPath.value) != fold(ts[j].stagedPath.value) {
            assert rest[j - 1] == ts[j] && ts[j].stagedPath.value in StagePaths(rest);
            if i > 0 { assert rest[i - 1] == ts[i]; } else { assert v in [v]; }
          }
        }
      } else {
        forall i | 0 < i < |ts| ensures rest[i - 1] == ts[i] {}
      }
      forall i | 0 <= i < |rest| ensures rest[i] == ts[i + 1] {}
    }
  }

  lemma LivePathsMembers(ts: seq<Transition>)
    ensures forall p :: p in LivePaths(ts) <==> exists i :: 0 <= i < |ts| && ts[i].path == p
  {
    forall i | 0 <= i < |ts| ensures ts[i].path in LivePaths(ts) { assert LivePaths(ts)[i] == ts[i].path; }
  }

  lemma CrossListed(ts: seq<Transition>, fold: string -> string)
    ensures NoneShared(LivePaths(ts), StagePaths(ts), fold) <==> LiveNotStaged(ts, fold)
  {
    LivePathsMembers(ts);
  }

  lemma LiveRootsListed(ts: seq<Transition>, fold: string -> string, x: string, y: string)
    ensures NoneShared(LivePaths(ts), [x, y], fold)
            <==> forall i :: 0 <= i < |ts| ==> fold(ts[i].path) !in {fold(x), fold(y)}
  {
    LivePathsMembers(ts);
    assert x in [x, y] && y in [x, y];
  }

  lemma StagedRootsListed(ts: seq<Transition>, fold: string -> string, x: string, y: string)
    ensures NoneShared(StagePaths(ts), [x, y], fold)
            <==> forall i :: 0 <= i < |ts| && ts[i].stagedPath.Some? ==>
                   fold(ts[i].stagedPath.value) !in {fold(x), fold(y)}
  {
    assert x in [x, y] && y in [x, y];
    forall i | 0 <= i < |ts| && ts[i].stagedPath.Some? ensures ts[i].stagedPath.value in StagePaths(ts) {}
  }

  lemma RootsListed(ts: seq<Transition>, fold: string -> string, x: string, y: string)
    ensures NoneShared(LivePaths(ts) + StagePaths(ts), [x, y], fold) <==> NotRoots(ts, fold, {fold(x), fold(y)})
  {
    NoneSharedAppend(LivePaths(ts), StagePaths(ts), [x, y], fold);
    LiveRootsListed(ts, fold, x, y);
    StagedRootsListed(ts, fold, x, y);
  }

  lemma PairDistinct(x: string, y: string, fold: string -> string)
    ensures Distinct([x, y], fold) <==> fold(x) != fold(y)
  {
    assert [x, y][0] == x && [x, y][1] == y;
  }

  // The list that the corpus checker folds is duplicate-free exactly when the names are distinct.
  lemma NamesListed(plan: Plan, fold: string -> string)
    ensures var ts := plan.Transitions();
            Distinct(LivePaths(ts) + StagePaths(ts) + [plan.transactionRoot, plan.stageRoot], fold)
            <==> NamesDistinct(plan, fold)
  {
    var ts := plan.Transitions();
    DistinctAppend(LivePaths(ts) + StagePaths(ts), [plan.transactionRoot, plan.stageRoot], fold);
    AllListed(ts, fold);
    RootsListed(ts, fold, plan.transactionRoot, plan.stageRoot);
    PairDistinct(plan.transactionRoot, plan.stageRoot, fold);
  }

  lemma AllListed(ts: seq<Transition>, fold: string -> string)
    ensures Distinct(LivePaths(ts) + StagePaths(ts), fold)
            <==> LiveDistinct(ts, fold) && StagedDistinct(ts, fold) && LiveNotStaged(ts, fold)
  {
    DistinctAppend(LivePaths(ts), StagePaths(ts), fold);
    StagePathsDistinct(ts, fold);
    CrossListed(ts, fold);
    assert Distinct(LivePaths(ts), fold) <==> LiveDistinct(ts, fold);
  }

  // ---- The corpus checker --------------------------------------------------------------------

  predicate BlobKnown(blobs: map<string, nat>, state: FileState) {
    state.File? ==> state.sha256 in blobs && blobs[state.sha256] == state.sizeBytes
  }

  predicate TransitionOk(normal: string -> bool, blobs: map<string, nat>, t: Transition) {
    && Portable(normal, t.path)
    && (t.stagedPath.Some? ==> Portable(normal, t.stagedPath.value))
    && StateOk(t.prior) && StateOk(t.next) && BlobKnown(blobs, t.prior) && BlobKnown(blobs, t.next)
    && (t.stagedPath.Some? <==> t.Changes() && t.next.File?)
  }

  predicate Overlaps(path: string, root: string) {
    path == root || StartsWith(path, root + "/") || StartsWith(root, path + "/")
  }

  predicate TransitionsOk(normal: string -> bool, blobs: map<string, nat>, ts: seq<Transition>) {
    forall i :: 0 <= i < |ts| ==> TransitionOk(normal, blobs, ts[i])
  }

  predicate StagedUnder(root: string, ts: seq<Transition>) {
    forall i :: 0 <= i < |ts| && ts[i].stagedPath.Some? ==> Under(root, ts[i].stagedPath.value)
  }

  predicate ClearOfRoots(plan: Plan, ts: seq<Transition>) {
    forall i :: 0 <= i < |ts| ==>
      !Overlaps(ts[i].path, plan.transactionRoot) && !Overlaps(ts[i].path, plan.stageRoot)
  }

  predicate RootsOk(normal: string -> bool, plan: Plan) {
    && IsDigest(plan.projectIdentity) && IsDigest(plan.authorizationDigest)
    && Portable(normal, plan.transactionRoot) && Portable(normal, plan.stageRoot)
    && !Overlaps(plan.stageRoot, plan.transactionRoot)
  }

  // What an accepted plan is: the conjunction that validatePlan decides.
  predicate PlanOk(normal: string -> bool, fold: string -> string, blobs: map<string, nat>, plan: Plan) {
    && RootsOk(normal, plan)
    && TransitionsOk(normal, blobs, plan.Transitions())
    && plan.commitMarker.Changes()
    && Sorted(LivePaths(plan.artifacts))
    && NamesDistinct(plan, fold)
    && StagedUnder(plan.stageRoot, plan.Transitions())
    && ClearOfRoots(plan, plan.Transitions())
  }

  method AssertUnique(values: seq<string>, fold: string -> string) returns (ok: bool)
    ensures ok <==> Distinct(values, fold)
  {
    var seen: set<string> := {};
    for k := 0 to |values|
      invariant forall key :: key in seen <==> exists i :: 0 <= i < k && fold(values[i]) == key
      invariant Distinct(values[..k], fold)
    {
      var key := fold(values[k]);
      if key in seen {
        assert exists i :: 0 <= i < k && fold(values[i]) == key;
        return false;
      }
      forall i | 0 <= i < k ensures fold(values[i]) != key { assert fold(values[i]) in seen; }
      seen := seen + {key};
    }
    assert values[..|values|] == values;
    return true;
  }

  method ReadTransitions(normal: string -> bool, blobs: map<string, nat>, ts: seq<Transition>) returns (ok: bool)
    ensures ok <==> TransitionsOk(normal, blobs, ts)
  {
    for k := 0 to |ts|
      invariant forall i :: 0 <= i < k ==> TransitionOk(normal, blobs, ts[i])
    {
      if !TransitionOk(normal, blobs, ts[k]) { return false; }
    }
    return true;
  }

  method AllUnder(root: string, paths: seq<string>) returns (ok: bool)
    ensures ok <==> forall p :: p in paths ==> Under(root, p)
  {
    for k := 0 to |paths|
      invariant forall i :: 0 <= i < k ==> Under(root, paths[i])
    {
      if !Under(root, paths[k]) { return false; }
    }
    return true;
  }

  method AllClear(plan: Plan, paths: seq<string>) returns (ok: bool)
    ensures ok <==> forall i :: 0 <= i < |paths| ==>
              !Overlaps(paths[i], plan.transactionRoot) && !Overlaps(paths[i], plan.stageRoot)
  {
    for k := 0 to |paths|
      invariant forall i :: 0 <= i < k ==>
        !Overlaps(paths[i], plan.transactionRoot) && !Overlaps(paths[i], plan.stageRoot)
    {
      if Overlaps(paths[k], plan.transactionRoot) || Overlaps(paths[k], plan.stageRoot) { return false; }
    }
    return true;
  }

  method ValidatePlan(normal: string -> bool, fold: string -> string, blobs: map<string, nat>, plan: Plan)
    returns (ok: bool)
    ensures ok <==> PlanOk(normal, fold, blobs, plan)
  {
    if !RootsOk(normal, plan) { return false; }
    var ts := plan.Transitions();
    ok := ReadTransitions(normal, blobs, ts);
    if !ok || !plan.commitMarker.Changes() || !Sorted(LivePaths(plan.artifacts)) { return false; }
    var live, staged, roots := LivePaths(ts), StagePaths(ts), [plan.transactionRoot, plan.stageRoot];
    NamesListed(plan, fold);
    SubListsDistinct(live, staged, roots, fold);
    ok := AssertUnique(live, fold);
    if !ok { return; }
    ok := AllUnder(plan.stageRoot, staged);
    if !ok { return; }
    ok := AssertUnique(staged, fold);
    if !ok { return; }
    ok := AssertUnique(live + staged + roots, fold);
    if !ok { return; }
    ok := AllClear(plan, live);
  }

  lemma SubListsDistinct(a: seq<string>, b: seq<string>, c: seq<string>, fold: string -> string)
    ensures Distinct(a + b + c, fold) ==> Distinct(a, fold) && Distinct(b, fold)
  {
    DistinctAppend(a + b, c, fold);
    DistinctAppend(a, b, fold);
  }

  // ---- The publisher's validator --------------------------------------------------------------

  predicate Within(fold: string -> string, root: string, candidate: string) {
    fold(candidate) == fold(root) || StartsWith(fold(candidate), fold(root) + "/")
  }

  predicate Strictly(normal: string -> bool, s: string) {
    Portable(normal, s) && Strict(s)
  }

  predicate PublicTransitionOk(normal: string -> bool, fold: string -> string, stageRoot: string, t: Transition) {
    && Strictly(normal, t.path) && StateOk(t.prior) && StateOk(t.next)
    && (t.stagedPath.Some? <==> t.Changes() && t.next.File?)
    && (t.stagedPath.Some? ==>
          && Strictly(normal, t.stagedPath.value)
          && fold(t.stagedPath.value) != fold(stageRoot) && Within(fold, stageRoot, t.stagedPath.value))
  }

  predicate ClearOf(fold: string -> string, root: string, path: string) {
    !Within(fold, root, path) && !Within(fold, path, root)
  }

  predicate ClearOfBoth(fold: string -> string, plan: Plan, path: string) {
    ClearOf(fold, plan.transactionRoot, path) && ClearOf(fold, plan.stageRoot, path)
  }

  predicate Admitted(normal: string -> bool, fold: string -> string, plan: Plan, t: Transition) {
    PublicTransitionOk(normal, fold, plan.stageRoot, t) && ClearOfBoth(fold, plan, t.path)
  }

  predicate PublicationOk(normal: string -> bool, fold: string -> string, plan: Plan) {
    var ts := plan.Transitions();
    && IsDigest(plan.projectIdentity) && IsDigest(plan.authorizationDigest)
    && Strictly(normal, plan.transactionRoot) && Strictly(normal, plan.stageRoot)
    && ClearOf(fold, plan.transactionRoot, plan.stageRoot)
    && (forall i :: 0 <= i < |ts| ==> Admitted(normal, fold, plan, ts[i]))
    && NamesDistinct(plan, fold)
    && Sorted(LivePaths(plan.artifacts))
    && plan.commitMarker.Changes()
  }

  datatype Refusal = Invalid | PathEscape | PrivateOverlap | PortableCollision

  // The identities recorded for these transitions.
  ghost predicate Recorded(ts: seq<Transition>, fold: string -> string, live: set<string>, staged: set<string>) {
    && (forall key :: key in live <==> exists i :: 0 <= i < |ts| && fold(ts[i].path) == key)
    && (forall key :: key in staged <==>
          exists i :: 0 <= i < |ts| && ts[i].stagedPath.Some? && fold(ts[i].stagedPath.value) == key)
  }

  // One more transition keeps the names separate exactly when neither of its identities is taken.
  ghost predicate Untaken(t: Transition, fold: string -> string, taken: set<string>) {
    && fold(t.path) !in taken
    && (t.stagedPath.Some? ==> fold(t.stagedPath.value) !in taken && fold(t.stagedPath.value) != fold(t.path))
  }

  lemma RecordedStep(ts: seq<Transition>, t: Transition, fold: string -> string,
                     live: set<string>, staged: set<string>)
    requires Recorded(ts, fold, live, staged)
    ensures Recorded(ts + [t], fold, live + {fold(t.path)},
                     if t.stagedPath.Some? then staged + {fold(t.stagedPath.value)} else staged)
  {
    var us := ts + [t];
    forall i | 0 <= i < |ts| ensures us[i] == ts[i] {}
    assert us[|ts|] == t;
    forall key | key in live ensures exists i :: 0 <= i < |us| && fold(us[i].path) == key {
      var i :| 0 <= i < |ts| && fold(ts[i].path) == key;
      assert fold(us[i].path) == key;
    }
    forall key | key in staged
      ensures exists i :: 0 <= i < |us| && us[i].stagedPath.Some? && fold(us[i].stagedPath.value) == key {
      var i :| 0 <= i < |ts| && ts[i].stagedPath.Some? && fold(ts[i].stagedPath.value) == key;
      assert fold(us[i].stagedPath.value) == key;
    }
  }

  lemma SeparateStep(ts: seq<Transition>, t: Transition, fold: string -> string, roots: set<string>,
                     live: set<string>, staged: set<string>)
    requires Recorded(ts, fold, live, staged) && Separate(ts, fold, roots)
    ensures Separate(ts + [t], fold, roots) <==> Untaken(t, fold, live + staged + roots)
  {
    var us, n := ts + [t], |ts|;
    forall i | 0 <= i < n ensures us[i] == ts[i] && fold(ts[i].path) in live {}
    assert us[n] == t;
    if Separate(us, fold, roots) {
      forall key | key in live ensures fold(t.path) != key {
        var i :| 0 <= i < n && fold(ts[i].path) == key;
        assert us[i] == ts[i];
      }
      forall key | key in staged ensures fold(t.path) != key {
        var i :| 0 <= i < n && ts[i].stagedPath.Some? && fold(ts[i].stagedPath.value) == key;
        assert us[i] == ts[i];
      }
      if t.stagedPath.Some? { StagedUntaken(ts, t, fold, roots, live, staged); }
    }
  }

  lemma StagedUntaken(ts: seq<Transition>, t: Transition, fold: string -> string, roots: set<string>,
                      live: set<string>, staged: set<string>)
    requires Recorded(ts, fold, live, staged) && Separate(ts + [t], fold, roots) && t.stagedPath.Some?
    ensures fold(t.stagedPath.value) !in live + staged + roots && fold(t.stagedPath.value) != fold(t.path)
  {
    var us, n := ts + [t], |ts|;
    assert us[n] == t;
    forall key | key in live ensures fold(t.stagedPath.value) != key {
      var i :| 0 <= i < n && fold(ts[i].path) == key;
      assert us[i] == ts[i];
    }
    forall key | key in staged ensures fold(t.stagedPath.value) != key {
      var i :| 0 <= i < n && ts[i].stagedPath.Some? && fold(ts[i].stagedPath.value) == key;
      assert us[i] == ts[i];
    }
  }

  lemma SeparatePrefix(ts: seq<Transition>, k: nat, fold: string -> string, roots: set<string>)
    requires k <= |ts|
    ensures Separate(ts, fold, roots) ==> Separate(ts[..k], fold, roots)
  {
  }

  // One round of the validator's loop: the identity maps accept t, or two names collide.
  method Record(ts: seq<Transition>, t: Transition, fold: string -> string, ghost roots: set<string>,
                live: set<string>, staged: set<string>, all: set<string>)
    returns (ok: bool, live': set<string>, staged': set<string>, all': set<string>)
    requires Recorded(ts, fold, live, staged) && Separate(ts, fold, roots) && all == live + staged + roots
    ensures ok <==> Separate(ts + [t], fold, roots)
    ensures ok ==> Recorded(ts + [t], fold, live', staged') && all' == live' + staged' + roots
  {
    SeparateStep(ts, t, fold, roots, live, staged);
    RecordedStep(ts, t, fold, live, staged);
    live', staged', all' := live, staged, all;
    var key := fold(t.path);
    if key in live' || key in all' { return false, live', staged', all'; }
    live', all' := live' + {key}, all' + {key};
    if t.stagedPath.Some? {
      var stagedKey := fold(t.stagedPath.value);
      if stagedKey in staged' || stagedKey in all' { return false, live', staged', all'; }
      staged', all' := staged' + {stagedKey}, all' + {stagedKey};
    }
    ok := true;
  }

  // The transitions before the k-th are admitted, and their names are the ones recorded.
  ghost predicate Checked(normal: string -> bool, fold: string -> string, plan: Plan, k: nat,
                          live: set<string>, staged: set<string>, all: set<string>)
    requires k <= |plan.Transitions()|
  {
    var ts, roots := plan.Transitions(), RootKeys(plan, fold);
    && (forall i :: 0 <= i < k ==> Admitted(normal, fold, plan, ts[i]))
    && Separate(ts[..k], fold, roots) && Recorded(ts[..k], fold, live, staged) && all == live + staged + roots
  }

  // The checks on one transition that do not look at the others.
  function Fault(normal: string -> bool, fold: string -> string, plan: Plan, t: Transition): (r: Option<Refusal>)
    ensures r.None? <==> Admitted(normal, fold, plan, t)
    ensures r != Some(PortableCollision) && (r == Some(PrivateOverlap) ==> !ClearOfBoth(fold, plan, t.path))
  {
    if !Strictly(normal, t.path) then Some(PathEscape)
    else if !StateOk(t.prior) || !StateOk(t.next) then Some(Invalid)
    else if t.Changes() && t.next.File? && t.stagedPath.Some? && !Strictly(normal, t.stagedPath.value) then Some(PathEscape)
    else if !PublicTransitionOk(normal, fold, plan.stageRoot, t) then Some(Invalid)
    else if !ClearOfBoth(fold, plan, t.path) then Some(PrivateOverlap)
    else None
  }

  lemma PrefixOn(ts: seq<Transition>, k: nat)
    requires k < |ts|
    ensures ts[..k + 1] == ts[..k] + [ts[k]]
  {
  }

  lemma CheckedOn(normal: string -> bool, fold: string -> string, plan: Plan, k: nat,
                  live: set<string>, staged: set<string>, all: set<string>)
    requires k < |plan.Transitions()| && Admitted(normal, fold, plan, plan.Transitions()[k])
    requires forall i :: 0 <= i < k ==> Admitted(normal, fold, plan, plan.Transitions()[i])
    requires var us := plan.Transitions()[..k] + [plan.Transitions()[k]];
             Separate(us, fold, RootKeys(plan, fold)) && Recorded(us, fold, live, staged)
    requires all == live + staged + RootKeys(plan, fold)
    ensures Checked(normal, fold, plan, k + 1, live, staged, all)
  {
    PrefixOn(plan.Transitions(), k);
  }

  lemma CollisionStays(fold: string -> string, plan: Plan, k: nat)
    requires k < |plan.Transitions()|
    ensures Separate(plan.Transitions(), fold, RootKeys(plan, fold)) ==>
              Separate(plan.Transitions()[..k] + [plan.Transitions()[k]], fold, RootKeys(plan, fold))
  {
    PrefixOn(plan.Transitions(), k);
    SeparatePrefix(plan.Transitions(), k + 1, fold, RootKeys(plan, fold));
  }

  predicate AllAdmitted(normal: string -> bool, fold: string -> string, plan: Plan) {
    forall i :: 0 <= i < |plan.Transitions()| ==> Admitted(normal, fold, plan, plan.Transitions()[i])
  }

  // A refusal names a fault that the plan has.
  ghost predicate Truthful(normal: string -> bool, fold: string -> string, plan: Plan, r: Refusal) {
    && !(AllAdmitted(normal, fold, plan) && Separate(plan.Transitions(), fold, RootKeys(plan, fold)))
    && (r.PortableCollision? ==> !Separate(plan.Transitions(), fold, RootKeys(plan, fold)))
    && (r.PrivateOverlap? ==>
          exists i :: 0 <= i < |plan.Transitions()| && !ClearOfBoth(fold, plan, plan.Transitions()[i].path))
  }

  lemma FaultIsTruthful(normal: string -> bool, fold: string -> string, plan: Plan, k: nat)
    requires k < |plan.Transitions()| && Fault(normal, fold, plan, plan.Transitions()[k]).Some?
    ensures Truthful(normal, fold, plan, Fault(normal, fold, plan, plan.Transitions()[k]).value)
  {
    assert !Admitted(normal, fold, plan, plan.Transitions()[k]);
  }

  method CheckRound(normal: string -> bool, fold: string -> string, plan: Plan, k: nat,
                    live: set<string>, staged: set<string>, all: set<string>)
    returns (refusal: Option<Refusal>, live': set<string>, staged': set<string>, all': set<string>)
    requires k < |plan.Transitions()| && Checked(normal, fold, plan, k, live, staged, all)
    ensures refusal.None? ==> Checked(normal, fold, plan, k + 1, live', staged', all')
    ensures refusal.Some? ==> Truthful(normal, fold, plan, refusal.value)
  {
    var ts := plan.Transitions();
    live', staged', all' := live, staged, all;
    refusal := Fault(normal, fold, plan, ts[k]);
    if refusal.Some? {
      FaultIsTruthful(normal, fold, plan, k);
      return;
    }
    CollisionStays(fold, plan, k);
    var ok;
    ok, live', staged', all' := Record(ts[..k], ts[k], fold, RootKeys(plan, fold), live, staged, all);
    if !ok { return Some(PortableCollision), live', staged', all'; }
    CheckedOn(normal, fold, plan, k, live', staged', all');
  }

  lemma CheckedAll(normal: string -> bool, fold: string -> string, plan: Plan,
                   live: set<string>, staged: set<string>, all: set<string>)
    requires Checked(normal, fold, plan, |plan.Transitions()|, live, staged, all)
    ensures AllAdmitted(normal, fold, plan) && Separate(plan.Transitions(), fold, RootKeys(plan, fold))
  {
    assert plan.Transitions()[..|plan.Transitions()|] == plan.Transitions();
  }

  method CheckTransitions(normal: string -> bool, fold: string -> string, plan: Plan)
    returns (refusal: Option<Refusal>)
    ensures refusal.None? <==> AllAdmitted(normal, fold, plan) && Separate(plan.Transitions(), fold, RootKeys(plan, fold))
    ensures refusal.Some? ==> Truthful(normal, fold, plan, refusal.value)
  {
    var live: set<string>, staged: set<string>, all := {}, {}, RootKeys(plan, fold);
    for k := 0 to |plan.Transitions()|
      invariant Checked(normal, fold, plan, k, live, staged, all)
    {
      refusal, live, staged, all := CheckRound(normal, fold, plan, k, live, staged, all);
      if refusal.Some? { return; }
    }
    CheckedAll(normal, fold, plan, live, staged, all);
    return None;
  }

  method ValidatePublicationPlan(normal: string -> bool, fold: string -> string, plan: Plan)
    returns (refusal: Option<Refusal>)
    ensures refusal.None? <==> PublicationOk(normal, fold, plan)
    ensures refusal == Some(PortableCollision) ==> !NamesDistinct(plan, fold)
    ensures refusal == Some(PrivateOverlap) ==>
              exists i :: 0 <= i < |plan.Transitions()| && !ClearOfBoth(fold, plan, plan.Transitions()[i].path)
  {
    if !IsDigest(plan.projectIdentity) || !IsDigest(plan.authorizationDigest) { return Some(Invalid); }
    if !Strictly(normal, plan.transactionRoot) || !Strictly(normal, plan.stageRoot) { return Some(PathEscape); }
    if Within(fold, plan.transactionRoot, plan.stageRoot) || Within(fold, plan.stageRoot, plan.transactionRoot) {
      return Some(Invalid);
    }
    if exists i :: 0 <= i < |plan.artifacts| && plan.artifacts[i].path == plan.commitMarker.path {
      SharedPath(plan, fold);
      return Some(Invalid);
    }
    refusal := CheckTransitions(normal, fold, plan);
    if refusal.Some? { return; }
    if !Sorted(LivePaths(plan.artifacts)) || !plan.commitMarker.Changes() { return Some(Invalid); }
  }

  lemma SharedPath(plan: Plan, fold: string -> string)
    requires exists i :: 0 <= i < |plan.artifacts| && plan.artifacts[i].path == plan.commitMarker.path
    ensures !NamesDistinct(plan, fold)
  {
    var ts := plan.Transitions();
    var i :| 0 <= i < |plan.artifacts| && plan.artifacts[i].path == plan.commitMarker.path;
    assert ts[i].path == ts[|plan.artifacts|].path;
  }

  // ---- Non-interference ------------------------------------------------------------------------

  // Seen through view, every live path is apart from both private roots and from every staged path;
  // staged paths lie strictly inside the stage root and apart from the transaction root.
  ghost predicate NonInterfering(plan: Plan, view: string -> string) {
    var ts := plan.Transitions();
    var transaction, stage := view(plan.transactionRoot), view(plan.stageRoot);
    && Apart(transaction, stage)
    && (forall i :: 0 <= i < |ts| ==> Apart(view(ts[i].path), transaction) && Apart(view(ts[i].path), stage))
    && (forall j :: 0 <= j < |ts| && ts[j].stagedPath.Some? ==>
          var staged := view(ts[j].stagedPath.value);
          Split(stage, '/') < Split(staged, '/') && Apart(transaction, staged))
    && (forall i, j :: 0 <= i < |ts| && 0 <= j < |ts| && ts[j].stagedPath.Some? ==>
          Apart(view(ts[i].path), view(ts[j].stagedPath.value)))
  }

  ghost predicate Placed(t: Transition, view: string -> string, transaction: string, stage: string) {
    && Apart(view(t.path), transaction) && Apart(view(t.path), stage)
    && (t.stagedPath.Some? ==> StartsWith(view(t.stagedPath.value), stage + "/"))
  }

  lemma InsideStage(stage: string, staged: string)
    requires StartsWith(staged, stage + "/")
    ensures Split(stage, '/') < Split(staged, '/')
    ensures forall p :: Apart(p, stage) ==> Apart(p, staged)
  {
    WithinIsPrefix(stage, staged);
    JoinSplit(stage, '/');
    JoinSplit(staged, '/');
    forall p | Apart(p, stage) ensures Apart(p, staged) { ApartFromInside(p, stage, staged); }
  }

  lemma StagedPlaced(ts: seq<Transition>, view: string -> string, transaction: string, stage: string, j: nat)
    requires Apart(transaction, stage) && forall i :: 0 <= i < |ts| ==> Placed(ts[i], view, transaction, stage)
    requires j < |ts| && ts[j].stagedPath.Some?
    ensures var staged := view(ts[j].stagedPath.value);
            && Split(stage, '/') < Split(staged, '/') && Apart(transaction, staged)
            && forall i :: 0 <= i < |ts| ==> Apart(view(ts[i].path), staged)
  {
    assert Placed(ts[j], view, transaction, stage);
    InsideStage(stage, view(ts[j].stagedPath.value));
    forall i | 0 <= i < |ts| ensures Apart(view(ts[i].path), view(ts[j].stagedPath.value)) {
      assert Placed(ts[i], view, transaction, stage);
    }
  }

  // Roots that are apart, and staged paths inside the stage root, settle every pair of names.
  lemma RootsSuffice(plan: Plan, view: string -> string)
    requires var transaction, stage := view(plan.transactionRoot), view(plan.stageRoot);
             Apart(transaction, stage)
             && forall i :: 0 <= i < |plan.Transitions()| ==> Placed(plan.Transitions()[i], view, transaction, stage)
    ensures NonInterfering(plan, view)
  {
    var ts := plan.Transitions();
    var transaction, stage := view(plan.transactionRoot), view(plan.stageRoot);
    forall i | 0 <= i < |ts|
      ensures Apart(view(ts[i].path), transaction) && Apart(view(ts[i].path), stage) {
      assert Placed(ts[i], view, transaction, stage);
    }
    forall j | 0 <= j < |ts| && ts[j].stagedPath.Some?
      ensures Split(stage, '/') < Split(view(ts[j].stagedPath.value), '/')
      ensures Apart(transaction, view(ts[j].stagedPath.value))
      ensures forall i :: 0 <= i < |ts| ==> Apart(view(ts[i].path), view(ts[j].stagedPath.value)) {
      StagedPlaced(ts, view, transaction, stage, j);
    }
  }

  lemma ApartIffNoOverlap(p: string, root: string)
    ensures Apart(p, root) <==> !Overlaps(p, root)
  {
    WithinIsPrefix(p, root);
    WithinIsPrefix(root, p);
  }

  lemma ApartIffClear(fold: string -> string, root: string, path: string)
    ensures Apart(fold(path), fold(root)) <==> ClearOf(fold, root, path)
  {
    WithinIsPrefix(fold(path), fold(root));
    WithinIsPrefix(fold(root), fold(path));
  }

  function Raw(s: string): string { s }

  // Every plan of the corpus checker keeps its public and private paths apart as written, and has the
  // structure that the transaction relies on.
  lemma CheckedPlanSeparates(normal: string -> bool, fold: string -> string, blobs: map<string, nat>, plan: Plan)
    requires PlanOk(normal, fold, blobs, plan)
    ensures NonInterfering(plan, Raw) && ArtifactProtocol.Accepted(plan)
  {
    var ts := plan.Transitions();
    ApartIffNoOverlap(plan.stageRoot, plan.transactionRoot);
    forall i | 0 <= i < |ts| ensures Apart(ts[i].path, plan.transactionRoot) && Apart(ts[i].path, plan.stageRoot) {
      ApartIffNoOverlap(ts[i].path, plan.transactionRoot);
      ApartIffNoOverlap(ts[i].path, plan.stageRoot);
    }
    RootsSuffice(plan, Raw);
  }

  // Every plan of the publisher's validator keeps the portable identities of those paths apart, so the
  // separation holds on a file system that folds names.
  lemma ValidPlanSeparates(normal: string -> bool, fold: string -> string, plan: Plan)
    requires PublicationOk(normal, fold, plan)
    ensures NonInterfering(plan, fold) && ArtifactProtocol.Accepted(plan)
  {
    var ts := plan.Transitions();
    ApartIffClear(fold, plan.transactionRoot, plan.stageRoot);
    forall i | 0 <= i < |ts|
      ensures Apart(fold(ts[i].path), fold(plan.transactionRoot)) && Apart(fold(ts[i].path), fold(plan.stageRoot)) {
      ApartIffClear(fold, plan.transactionRoot, ts[i].path);
      ApartIffClear(fold, plan.stageRoot, ts[i].path);
    }
    RootsSuffice(plan, fold);
  }

  // ---- Where a plan can write -----------------------------------------------------------------------

  // Every path that a plan names.
  predicate NamedPath(plan: Plan, path: string) {
    || path == plan.transactionRoot || path == plan.stageRoot
    || exists i :: 0 <= i < |plan.Transitions()|
                   && (plan.Transitions()[i].path == path || plan.Transitions()[i].stagedPath == Some(path))
  }

  // On disk it stays strictly inside the project, wherever the project is.
  ghost predicate InProject(root: OutputManifest.Location, path: string) {
    var place := OutputManifest.Resolve(root, Split(path, '/'));
    root < place && place == root + Split(path, '/')
  }

  lemma PortableInProject(root: OutputManifest.Location, path: string)
    requires PortableText(path) && ".." !in root
    ensures InProject(root, path)
  {
    OutputManifest.PortableResolvesInside(root, path);
  }

  // No accepted plan reads or writes outside the project.
  lemma PlanStaysInside(normal: string -> bool, fold: string -> string, blobs: map<string, nat>, plan: Plan,
                        root: OutputManifest.Location, path: string)
    requires PlanOk(normal, fold, blobs, plan) || PublicationOk(normal, fold, plan)
    requires ".." !in root && NamedPath(plan, path)
    ensures InProject(root, path)
  {
    var ts := plan.Transitions();
    if i :| 0 <= i < |ts| && (ts[i].path == path || ts[i].stagedPath == Some(path)) {
      assert TransitionOk(normal, blobs, ts[i]) || Admitted(normal, fold, plan, ts[i]);
    }
    PortableInProject(root, path);
  }

  // ---- States and segments ------------------------------------------------------------------------------

  function HexDigit(v: nat): char
    requires v < 16
  {
    if v < 10 then (v + '0' as int) as char else (v - 10 + 'a' as int) as char
  }

  type Octet = b: int | 0 <= b < 256

  function Hex(bytes: seq<Octet>): (r: string)
    ensures |r| == 2 * |bytes|
  {
    if bytes == [] then "" else [HexDigit(bytes[0] / 16), HexDigit(bytes[0] % 16)] + Hex(bytes[1..])
  }

  predicate IsHexDigit(c: char) { '0' <= c <= '9' || 'a' <= c <= 'f' }

  lemma {:induction false} HexDigits(bytes: seq<Octet>)
    ensures forall c :: c in Hex(bytes) ==> IsHexDigit(c)
  {
    if bytes != [] { HexDigits(bytes[1..]); }
  }

  lemma {:induction false} HexRead(s: string) returns (bytes: seq<Octet>)
    requires |s| % 2 == 0 && forall c :: c in s ==> IsHexDigit(c)
    ensures |bytes| == |s| / 2 && Hex(bytes) == s
    decreases |s|
  {
    if s == "" {
      bytes := [];
    } else {
      assert s[0] in s && s[1] in s && forall c :: c in s[2..] ==> c in s;
      var rest := HexRead(s[2..]);
      var a := if s[0] <= '9' then s[0] as int - '0' as int else s[0] as int - 'a' as int + 10;
      var b := if s[1] <= '9' then s[1] as int - '0' as int else s[1] as int - 'a' as int + 10;
      bytes := [a * 16 + b] + rest;
      assert (a * 16 + b) / 16 == a && (a * 16 + b) % 16 == b;
      assert bytes[1..] == rest && s == [s[0], s[1]] + s[2..];
    }
  }

  // The small hexadecimal text of exactly 32 bytes.
  ghost predicate HexOf32(s: string) {
    exists bytes: seq<Octet> :: |bytes| == 32 && s == Hex(bytes)
  }

  lemma DigestExactly(s: string)
    ensures IsDigest(s) <==> HexOf32(s)
  {
    if IsDigest(s) {
      var bytes := HexRead(s);
    }
    if bytes: seq<Octet> :| |bytes| == 32 && s == Hex(bytes) { HexDigits(bytes); }
  }

  // In an accepted plan every recorded file has such a digest and nothing but permission bits in its mode, and so
  // have the plan's two identities their digests.
  lemma StatesAreExact(normal: string -> bool, fold: string -> string, blobs: map<string, nat>, plan: Plan, i: nat)
    requires PlanOk(normal, fold, blobs, plan) || PublicationOk(normal, fold, plan)
    requires i < |plan.Transitions()|
    ensures forall x :: x in {plan.Transitions()[i].prior, plan.Transitions()[i].next} && x.File? ==>
              x.mode < 0x200 && HexOf32(x.sha256)
    ensures HexOf32(plan.projectIdentity) && HexOf32(plan.authorizationDigest)
  {
    var t := plan.Transitions()[i];
    assert TransitionOk(normal, blobs, t) || Admitted(normal, fold, plan, t);
    if t.prior.File? { DigestExactly(t.prior.sha256); }
    if t.next.File? { DigestExactly(t.next.sha256); }
    DigestExactly(plan.projectIdentity);
    DigestExactly(plan.authorizationDigest);
  }

  // A name as Windows stores it: without dots and spaces at its end.
  function Stored(segment: string): string
    decreases |segment|
  {
    if segment != "" && segment[|segment| - 1] in " ." then Stored(segment[..|segment| - 1]) else segment
  }

  // Every segment of every path of a plan that the publisher accepts is stored there under its own name, is no
  // device, and has no character that is not allowed.
  lemma SegmentsAreStored(normal: string -> bool, fold: string -> string, plan: Plan, path: string, segment: string)
    requires PublicationOk(normal, fold, plan) && NamedPath(plan, path) && segment in Split(path, '/')
    ensures segment != "" && Stored(segment) == segment
    ensures forall c :: c in segment ==> c as int >= 0x20 || c as int == 0
    ensures forall c :: c in segment ==> c !in "<>:\"|?*\\\0"
    ensures '\U{2028}' !in segment && '\U{2029}' !in segment ==> AsciiLower(Split(segment, '.')[0]) !in RESERVED
  {
    var ts := plan.Transitions();
    if i :| 0 <= i < |ts| && (ts[i].path == path || ts[i].stagedPath == Some(path)) {
      assert Admitted(normal, fold, plan, ts[i]);
    }
    assert StrictSegment(segment);
    SegmentChars(path, segment);
  }

  lemma {:induction false} SegmentChars(path: string, segment: string)
    requires segment in Split(path, '/')
    ensures forall c :: c in segment ==> c in path
  {
    if path != "" {
      var rest := Split(path[1..], '/');
      assert path == [path[0]] + path[1..];
      if path[0] == '/' {
        assert segment == "" || segment in rest;
      } else {
        assert segment == [path[0]] + rest[0] || segment in rest;
        if segment == [path[0]] + rest[0] { SegmentChars(path[1..], rest[0]); }
      }
      if segment in rest { SegmentChars(path[1..], segment); }
    }
  }

  // ---- One order ------------------------------------------------------------------------------------

  ghost predicate Ascending(ts: seq<Transition>) {
    forall i, j :: 0 <= i < j < |ts| ==> Less(ts[i].path, ts[j].path)
  }

  lemma AscendingTail(ts: seq<Transition>, t: Transition)
    requires ts != [] && Ascending(ts)
    ensures t in ts[1..] <==> t in ts && t != ts[0]
    ensures t in ts ==> t == ts[0] || Less(ts[0].path, t.path)
  {
    assert ts == [ts[0]] + ts[1..];
    if t in ts[1..] {
      var i :| 0 <= i < |ts| - 1 && ts[1..][i] == t;
      assert ts[i + 1] == t;
      LessIrreflexive(t.path);
    }
  }

  lemma HeadIn(ts: seq<Transition>)
    ensures ts == [] || ts[0] in ts
  {
  }

  lemma {:induction false} AscendingUnique(ts: seq<Transition>, us: seq<Transition>)
    requires Ascending(ts) && Ascending(us) && forall t :: t in ts <==> t in us
    ensures ts == us
    decreases |ts|
  {
    if ts == [] {
      HeadIn(us);
    } else {
      assert ts[0] in ts && ts[0] in us;
      HeadsMeet(ts, us);
      forall t ensures t in ts[1..] <==> t in us[1..] {
        AscendingTail(ts, t);
        AscendingTail(us, t);
      }
      AscendingUnique(ts[1..], us[1..]);
      assert ts == [ts[0]] + ts[1..] && us == [us[0]] + us[1..];
    }
  }

  lemma HeadsMeet(ts: seq<Transition>, us: seq<Transition>)
    requires ts != [] && us != [] && Ascending(ts) && Ascending(us) && forall t :: t in ts <==> t in us
    ensures ts[0] == us[0]
  {
    assert us[0] in us && ts[0] in ts;
    AscendingTail(ts, us[0]);
    AscendingTail(us, ts[0]);
    if ts[0] != us[0] {
      LessTransitive(ts[0].path, us[0].path, ts[0].path);
      LessIrreflexive(ts[0].path);
    }
  }

  lemma SortedAscends(plan: Plan, fold: string -> string)
    requires Sorted(LivePaths(plan.artifacts)) && NamesDistinct(plan, fold)
    ensures Ascending(plan.artifacts)
  {
    var ts := plan.artifacts;
    forall i, j | 0 <= i < j < |ts| ensures Less(ts[i].path, ts[j].path) {
      assert plan.Transitions()[i] == ts[i] && plan.Transitions()[j] == ts[j];
      assert fold(ts[i].path) != fold(ts[j].path);
      assert !Less(LivePaths(ts)[j], LivePaths(ts)[i]);
      LessTotal(ts[i].path, ts[j].path);
    }
  }

  // Accepted plans list their artifacts in one order only: the same artifacts are the same list.
  lemma OneOrder(normal: string -> bool, fold: string -> string, blobs: map<string, nat>, plan: Plan, other: Plan)
    requires PlanOk(normal, fold, blobs, plan) || PublicationOk(normal, fold, plan)
    requires PlanOk(normal, fold, blobs, other) || PublicationOk(normal, fold, other)
    requires forall t :: t in plan.artifacts <==> t in other.artifacts
    ensures plan.artifacts == other.artifacts
  {
    SortedAscends(plan, fold);
    SortedAscends(other, fold);
    AscendingUnique(plan.artifacts, other.artifacts);
  }

  // ---- The two checkers compared ----------------------------------------------------------------

  // Folding works segment by segment.
  ghost predicate Segmental(fold: string -> string) {
    forall a, b :: fold(a + "/" + b) == fold(a) + "/" + fold(b)
  }

  lemma FoldKeepsWithin(fold: string -> string, root: string, path: string)
    requires Segmental(fold) && (path == root || StartsWith(path, root + "/"))
    ensures Within(fold, root, path)
  {
    if path != root {
      var rest := path[|root| + 1..];
      assert path == root + "/" + rest;
    }
  }

  // The guard that the corpus checker lacks: no private root meets a live path or the other root
  // after folding.
  predicate RootsClear(fold: string -> string, plan: Plan) {
    && ClearOf(fold, plan.transactionRoot, plan.stageRoot)
    && forall i :: 0 <= i < |plan.Transitions()| ==>
         ClearOf(fold, plan.transactionRoot, plan.Transitions()[i].path)
         && ClearOf(fold, plan.stageRoot, plan.Transitions()[i].path)
  }

  predicate NamesStrict(plan: Plan) {
    && Strict(plan.transactionRoot) && Strict(plan.stageRoot)
    && forall i :: 0 <= i < |plan.Transitions()| ==>
         (var t := plan.Transitions()[i]; Strict(t.path) && (t.stagedPath.Some? ==> Strict(t.stagedPath.value)))
  }

  predicate BlobsKnown(blobs: map<string, nat>, plan: Plan) {
    forall i :: 0 <= i < |plan.Transitions()| ==>
      BlobKnown(blobs, plan.Transitions()[i].prior) && BlobKnown(blobs, plan.Transitions()[i].next)
  }

  predicate StagedAsWritten(plan: Plan) {
    forall i :: 0 <= i < |plan.Transitions()| && plan.Transitions()[i].stagedPath.Some? ==>
      Under(plan.stageRoot, plan.Transitions()[i].stagedPath.value)
  }

  // Neither checker implies the other. With its own folds each (the corpus checker lower-cases for a locale,
  // the publisher without one), a plan that the publisher's validator accepts passes the corpus checker
  // exactly when its blobs are known, its staged paths spell the stage root as the plan does and its names
  // differ under the other fold; a plan that the corpus checker accepts passes the validator exactly when its
  // segments are strict, its roots stay clear after folding and its names differ under that fold.
  lemma CheckersAgree(normal: string -> bool, local: string -> string, fold: string -> string,
                      blobs: map<string, nat>, plan: Plan)
    requires Segmental(fold)
    ensures PublicationOk(normal, fold, plan) && BlobsKnown(blobs, plan) && StagedAsWritten(plan)
            && NamesDistinct(plan, local)
            <==> PlanOk(normal, local, blobs, plan) && NamesStrict(plan) && RootsClear(fold, plan)
                 && NamesDistinct(plan, fold)
  {
    if PlanOk(normal, local, blobs, plan) && NamesStrict(plan) && RootsClear(fold, plan) && NamesDistinct(plan, fold) {
      CheckedIsPublic(normal, local, fold, blobs, plan);
    }
    if PublicationOk(normal, fold, plan) && BlobsKnown(blobs, plan) && StagedAsWritten(plan) && NamesDistinct(plan, local) {
      PublicIsChecked(normal, local, fold, blobs, plan);
    }
  }

  lemma CheckedIsPublic(normal: string -> bool, local: string -> string, fold: string -> string,
                        blobs: map<string, nat>, plan: Plan)
    requires Segmental(fold) && NamesDistinct(plan, fold)
    requires PlanOk(normal, local, blobs, plan) && NamesStrict(plan) && RootsClear(fold, plan)
    ensures PublicationOk(normal, fold, plan) && BlobsKnown(blobs, plan) && StagedAsWritten(plan)
  {
    var ts := plan.Transitions();
    forall i | 0 <= i < |ts| ensures PublicTransitionOk(normal, fold, plan.stageRoot, ts[i]) {
      assert TransitionOk(normal, blobs, ts[i]);
      if ts[i].stagedPath.Some? { FoldKeepsWithin(fold, plan.stageRoot, ts[i].stagedPath.value); }
    }
    forall i | 0 <= i < |ts| ensures BlobKnown(blobs, ts[i].prior) && BlobKnown(blobs, ts[i].next) {
      assert TransitionOk(normal, blobs, ts[i]);
    }
  }

  lemma ClearOnceFolded(fold: string -> string, root: string, path: string)
    requires Segmental(fold) && ClearOf(fold, root, path)
    ensures !Overlaps(path, root)
  {
    if path == root || StartsWith(path, root + "/") { FoldKeepsWithin(fold, root, path); }
    if StartsWith(root, path + "/") { FoldKeepsWithin(fold, path, root); }
  }

  lemma PublicIsChecked(normal: string -> bool, local: string -> string, fold: string -> string,
                        blobs: map<string, nat>, plan: Plan)
    requires Segmental(fold) && NamesDistinct(plan, local)
    requires PublicationOk(normal, fold, plan) && BlobsKnown(blobs, plan) && StagedAsWritten(plan)
    ensures PlanOk(normal, local, blobs, plan) && NamesStrict(plan) && RootsClear(fold, plan)
  {
    var ts := plan.Transitions();
    ClearOnceFolded(fold, plan.transactionRoot, plan.stageRoot);
    forall i | 0 <= i < |ts|
      ensures TransitionOk(normal, blobs, ts[i])
      ensures Strict(ts[i].path) && (ts[i].stagedPath.Some? ==> Strict(ts[i].stagedPath.value))
      ensures !Overlaps(ts[i].path, plan.transactionRoot) && !Overlaps(ts[i].path, plan.stageRoot) {
      assert PublicTransitionOk(normal, fold, plan.stageRoot, ts[i]);
      assert BlobKnown(blobs, ts[i].prior) && BlobKnown(blobs, ts[i].next);
      ClearOnceFolded(fold, plan.transactionRoot, ts[i].path);
      ClearOnceFolded(fold, plan.stageRoot, ts[i].path);
    }
  }

  // For plans of the corpus checker, separation after folding is exactly the missing guard.
  lemma FoldedSeparationExact(normal: string -> bool, fold: string -> string, blobs: map<string, nat>, plan: Plan)
    requires Segmental(fold) && PlanOk(normal, fold, blobs, plan)
    ensures NonInterfering(plan, fold) <==> RootsClear(fold, plan)
  {
    var ts := plan.Transitions();
    ApartIffClear(fold, plan.transactionRoot, plan.stageRoot);
    forall i | 0 <= i < |ts|
      ensures Apart(fold(ts[i].path), fold(plan.transactionRoot)) <==> ClearOf(fold, plan.transactionRoot, ts[i].path)
      ensures Apart(fold(ts[i].path), fold(plan.stageRoot)) <==> ClearOf(fold, plan.stageRoot, ts[i].path)
      ensures ts[i].stagedPath.Some? ==> StartsWith(fold(ts[i].stagedPath.value), fold(plan.stageRoot) + "/") {
      ApartIffClear(fold, plan.transactionRoot, ts[i].path);
      ApartIffClear(fold, plan.stageRoot, ts[i].path);
      if ts[i].stagedPath.Some? {
        FoldKeepsWithin(fold, plan.stageRoot, ts[i].stagedPath.value);
        assert fold(ts[i].stagedPath.value) != fold(plan.stageRoot);
      }
    }
    if RootsClear(fold, plan) { RootsSuffice(plan, fold); }
  }

  lemma LowerAppend(a: string, b: string)
    ensures AsciiLower(a + b) == AsciiLower(a) + AsciiLower(b)
  {
    if a == "" {
      assert a + b == b;
    } else {
      assert (a + b)[1..] == a[1..] + b;
      LowerAppend(a[1..], b);
    }
  }

  lemma LowerIsSegmental()
    ensures Segmental(AsciiLower)
  {
    forall a, b ensures AsciiLower(a + "/" + b) == AsciiLower(a) + "/" + AsciiLower(b) {
      LowerAppend(a + "/", b);
      LowerAppend(a, "/");
      assert "/"[1..] == "";
      assert AsciiLower("/") == "/";
    }
  }

  function Zeros(n: nat): (s: string)
    ensures |s| == n && forall c :: c in s ==> c == '0'
  {
    if n == 0 then "" else "0" + Zeros(n - 1)
  }

  // A plan whose marker lies in "S/x" while "s" is the stage root.
  function MixedCase(): Plan {
    Plan(Zeros(64), Zeros(64), "t", "s", [],
         Transition("S/x", Absent, File(Zeros(64), 0, 420), Some("s/y")))
  }

  lemma SplitOne(c: char)
    requires c != '/'
    ensures Split([c], '/') == [[c]]
  {
    SplitStep(c, "", '/');
    assert [c] + "" == [c] && Split("", '/') == [""];
  }

  lemma SplitTwo(c: char, d: char)
    requires c != '/' && d != '/'
    ensures Split([c, '/', d], '/') == [[c], [d]]
  {
    SplitOne(c);
    SplitOne(d);
    SplitAppend([c], [d], '/');
    assert [c] + ['/'] + [d] == [c, '/', d];
  }

  lemma LowerShort()
    ensures AsciiLower("t") == "t" && AsciiLower("s") == "s"
    ensures AsciiLower("S/x") == "s/x" && AsciiLower("s/y") == "s/y"
  {
    assert "t"[1..] == "" && "s"[1..] == "" && "x"[1..] == "" && "y"[1..] == "";
    assert "S/x"[1..] == "/x" && "/x"[1..] == "x" && "s/y"[1..] == "/y" && "/y"[1..] == "y";
    assert AsciiLower("/x") == "/x" && AsciiLower("/y") == "/y";
  }

  lemma MixedCaseNames()
    ensures var normal: string -> bool := _ => true;
            Portable(normal, "t") && Portable(normal, "s") && Portable(normal, "S/x") && Portable(normal, "s/y")
  {
    SplitOne('t');
    SplitOne('s');
    SplitTwo('S', 'x');
    SplitTwo('s', 'y');
  }

  lemma MixedCaseTransition()
    ensures TransitionOk(_ => true, map[Zeros(64) := 0], MixedCase().commitMarker)
    ensures MixedCase().Transitions() == [MixedCase().commitMarker]
  {
    MixedCaseNames();
  }

  lemma MixedCaseOverlaps()
    ensures !Overlaps("s", "t") && !Overlaps("S/x", "t") && !Overlaps("S/x", "s") && Under("s", "s/y")
  {
    assert "s"[0] == 's' && "t"[0] == 't' && "S/x"[0] == 'S';
    assert "s/y"[..2] == "s/";
  }

  lemma SingleSeparate(t: Transition, fold: string -> string, roots: set<string>)
    requires Untaken(t, fold, roots)
    ensures Separate([t], fold, roots)
  {
  }

  lemma MixedCaseDistinct()
    ensures NamesDistinct(MixedCase(), AsciiLower)
  {
    LowerShort();
    MixedCaseTransition();
    assert |"t"| == |"s"| == 1 && |"s/x"| == |"s/y"| == 3;
    assert "t"[0] != "s"[0] && "s/x"[2] != "s/y"[2];
    SingleSeparate(MixedCase().commitMarker, AsciiLower, RootKeys(MixedCase(), AsciiLower));
  }

  lemma MixedCaseRoots()
    ensures RootsOk(_ => true, MixedCase())
    ensures var ts := MixedCase().Transitions(); StagedUnder("s", ts) && ClearOfRoots(MixedCase(), ts)
  {
    MixedCaseNames();
    MixedCaseTransition();
    MixedCaseOverlaps();
  }

  lemma MixedCaseAccepted()
    ensures PlanOk(_ => true, AsciiLower, map[Zeros(64) := 0], MixedCase())
  {
    MixedCaseTransition();
    MixedCaseRoots();
    MixedCaseDistinct();
  }

  lemma MixedCaseClashes()
    ensures !RootsClear(AsciiLower, MixedCase())
  {
    MixedCaseTransition();
    LowerShort();
    assert "s/x"[..2] == "s/" && "s" + "/" == "s/";
    assert Within(AsciiLower, "s", MixedCase().Transitions()[0].path);
  }

  // The corpus checker accepts it, although its marker lies inside the stage root of a file system
  // that ignores case.
  lemma CorpusCheckerMissesCase()
    ensures var blobs := map[Zeros(64) := 0];
            PlanOk(_ => true, AsciiLower, blobs, MixedCase()) && !NonInterfering(MixedCase(), AsciiLower)
  {
    MixedCaseAccepted();
    MixedCaseClashes();
    LowerIsSegmental();
    FoldedSeparationExact(_ => true, AsciiLower, map[Zeros(64) := 0], MixedCase());
  }

  // ---- Live paths inside one another --------------------------------------------------------------

  const NEW_FILE := File(Zeros(64), 0, 420)

  function NewFile(path: string, staged: string): Transition { Transition(path, Absent, NEW_FILE, Some(staged)) }

  // A plan that creates the file "a" and, as its marker, the file "a/b".
  function Nested(): Plan {
    Plan(Zeros(64), Zeros(64), "t", "s", [NewFile("a", "s/a")], NewFile("a/b", "s/b"))
  }

  lemma NestedTransitions()
    ensures Nested().Transitions() == [NewFile("a", "s/a"), NewFile("a/b", "s/b")]
  {
  }

  lemma LetterStrict(c: char)
    requires 'a' <= c <= 'z'
    ensures StrictSegment([c]) && [c] != "." && [c] != ".." && [c] != ""
  {
    assert |[c]| == 1 && "."[0] == '.';
    var parts := Split([c], '.');
    SplitNone([c], '.');
    assert parts == [[c]] && AsciiLower([c]) == [c] by { assert [c][1..] == ""; }
    assert forall r :: r in RESERVED ==> |r| > 1;
  }

  lemma StrictOne(c: char)
    requires 'a' <= c <= 'z'
    ensures Strictly(_ => true, [c])
  {
    SplitOne(c);
    LetterStrict(c);
  }

  lemma SegmentsStrict(s: string, x: string, y: string)
    requires Split(s, '/') == [x, y] && StrictSegment(x) && StrictSegment(y)
    requires x != "." && x != ".." && y != "." && y != ".."
    requires s != "" && '\\' !in s && '\0' !in s && s[0] != '/'
    ensures Strictly(_ => true, s)
  {
    forall segment | segment in Split(s, '/')
      ensures StrictSegment(segment) && segment != "" && segment != "." && segment != ".." {
      assert segment == x || segment == y;
    }
  }

  lemma StrictTwo(c: char, d: char)
    requires 'a' <= c <= 'z' && 'a' <= d <= 'z'
    ensures Strictly(_ => true, [c, '/', d])
  {
    SplitTwo(c, d);
    LetterStrict(c);
    LetterStrict(d);
    SegmentsStrict([c, '/', d], [c], [d]);
  }

  lemma NestedStrict()
    ensures var normal: string -> bool := _ => true;
            && Strictly(normal, "t") && Strictly(normal, "s") && Strictly(normal, "a")
            && Strictly(normal, "a/b") && Strictly(normal, "s/a") && Strictly(normal, "s/b")
  {
    StrictOne('t');
    StrictOne('s');
    StrictOne('a');
    StrictTwo('a', 'b');
    StrictTwo('s', 'a');
    StrictTwo('s', 'b');
  }

  lemma LowerLetters(c: char, d: char)
    requires 'a' <= c <= 'z' && 'a' <= d <= 'z'
    ensures AsciiLower([c]) == [c] && AsciiLower([c, '/', d]) == [c, '/', d]
  {
    assert [c][1..] == "" && [d][1..] == "" && [c, '/', d][1..] == ['/', d] && ['/', d][1..] == [d];
    assert AsciiLower([d]) == [d] && AsciiLower(['/', d]) == ['/', d];
  }

  lemma NestedLower()
    ensures AsciiLower("t") == "t" && AsciiLower("s") == "s" && AsciiLower("a") == "a"
    ensures AsciiLower("a/b") == "a/b" && AsciiLower("s/a") == "s/a" && AsciiLower("s/b") == "s/b"
  {
    LowerLetters('t', 't');
    LowerLetters('s', 'a');
    LowerLetters('s', 'b');
    LowerLetters('a', 'b');
  }

  lemma NestedDistinct()
    ensures NamesDistinct(Nested(), AsciiLower)
  {
    NestedLower();
    NestedTransitions();
    assert |"t"| == |"s"| == |"a"| == 1 && |"a/b"| == |"s/a"| == |"s/b"| == 3;
    assert "t"[0] == 't' && "s"[0] == 's' && "a"[0] == 'a';
    assert "a/b"[0] == 'a' && "s/a"[0] == "s/b"[0] == 's' && "s/a"[2] == 'a' && "s/b"[2] == 'b';
    PairSeparate(NewFile("a", "s/a"), NewFile("a/b", "s/b"), AsciiLower, RootKeys(Nested(), AsciiLower));
  }

  lemma PairSeparate(t: Transition, u: Transition, fold: string -> string, roots: set<string>)
    requires Untaken(t, fold, roots) && t.stagedPath.Some? && u.stagedPath.Some?
    requires Untaken(u, fold, roots + {fold(t.path), fold(t.stagedPath.value)})
    ensures Separate([t, u], fold, roots)
  {
  }

  lemma HeadOf(root: string, path: string)
    requires root != "" && path != "" && root[0] != path[0]
    ensures !StartsWith(path, root + "/") && !StartsWith(root, path + "/") && root != path
  {
  }

  lemma NestedClear()
    ensures RootsClear(AsciiLower, Nested())
  {
    NestedLower();
    NestedTransitions();
    HeadOf("t", "s");
    HeadOf("t", "a");
    HeadOf("s", "a");
    HeadOf("t", "a/b");
    HeadOf("s", "a/b");
  }

  lemma NestedApart()
    ensures ClearOfRoots(Nested(), Nested().Transitions()) && !Overlaps("s", "t")
  {
    NestedTransitions();
    HeadOf("t", "s");
    HeadOf("t", "a");
    HeadOf("s", "a");
    HeadOf("t", "a/b");
    HeadOf("s", "a/b");
  }

  lemma NestedRoots()
    ensures RootsOk(_ => true, Nested()) && StagedUnder("s", Nested().Transitions())
  {
    NestedTransitions();
    NestedStrict();
    NestedApart();
    assert "s" + "/" == "s/" && "s/a"[..2] == "s/" && "s/b"[..2] == "s/";
  }

  lemma NestedClashes()
    ensures !Unnested(Nested())
  {
    NestedTransitions();
    var ts := Nested().Transitions();
    assert ts[0].path == "a" && ts[1].path == "a/b" && ts[0].next.File?;
    SplitOne('a');
    SplitTwo('a', 'b');
    assert Split("a", '/') == ["a"] && Split("a/b", '/') == ["a", "b"] && ["a", "b"][..1] == ["a"];
    assert Clash(ts[0], ts[1]);
  }

  lemma NestedTransitionsOk()
    ensures TransitionsOk(_ => true, map[Zeros(64) := 0], Nested().Transitions()) && NamesStrict(Nested())
  {
    NestedStrict();
    NestedTransitions();
  }

  // Both checkers accept it, although "a/b" cannot be read once "a" is a file.
  lemma NestedPlanAccepted()
    ensures var normal: string -> bool := _ => true;
            && PlanOk(normal, AsciiLower, map[Zeros(64) := 0], Nested())
            && PublicationOk(normal, AsciiLower, Nested()) && !Unnested(Nested())
  {
    NestedTransitionsOk();
    NestedDistinct();
    NestedClear();
    NestedApart();
    NestedRoots();
    NestedClashes();
    LowerIsSegmental();
    assert Sorted(LivePaths(Nested().artifacts));
    CheckersAgree(_ => true, AsciiLower, AsciiLower, map[Zeros(64) := 0], Nested());
  }
}
