/** The closed data of one publication: exact file states, transitions and plans. */
module ArtifactPlan {
  import opened Wrappers
  import Paths

  // An exact file state binds digest, size and Unix mode; equality is the source's sameFileState.
  datatype FileState = Absent | File(sha256: string, sizeBytes: nat, mode: nat)

  datatype Transition = Transition(path: string, prior: FileState, next: FileState, stagedPath: Option<string>)
  {
    predicate Changes() { prior != next }
  }

  datatype Plan = Plan(
    projectIdentity: string,
    authorizationDigest: string,
    transactionRoot: string,
    stageRoot: string,
    artifacts: seq<Transition>,
    commitMarker: Transition)
  {
    // Publication order: every artifact, then the commit marker.
    function Transitions(): (ts: seq<Transition>)
      ensures |ts| == |artifacts| + 1
      ensures ts[|artifacts|] == commitMarker
      ensures forall i :: 0 <= i < |artifacts| ==> ts[i] == artifacts[i]
    {
      artifacts + [commitMarker]
    }
  }

  type Tree = map<string, FileState>

  function At(tree: Tree, path: string): FileState {
    if path in tree then tree[path] else Absent
  }

  function Put(tree: Tree, path: string, state: FileState): (t: Tree)
    ensures At(t, path) == state
    ensures forall q :: q != path ==> At(t, q) == At(tree, q)
  {
    if state.Absent? then tree - {path} else tree[path := state]
  }

  predicate Under(root: string, path: string) {
    Paths.StartsWith(path, root + "/")
  }

  // ---- Paths that lie inside one another --------------------------------------------------------

  // A file system shows the state of a path only if no file lies above it, where a directory is
  // needed, and none below it, which makes the path a directory.
  predicate Legible(tree: Tree, path: string) {
    forall q :: q in tree.Keys && q != path && At(tree, q).File? ==> Paths.Apart(q, path)
  }

  predicate AllLegible(tree: Tree, plan: Plan) {
    forall i :: 0 <= i < |plan.Transitions()| ==> Legible(tree, plan.Transitions()[i].path)
  }

  // Two of a plan's live paths lie inside one another, and a file is ever at one of them.
  predicate Clash(t: Transition, u: Transition) {
    && !Paths.Apart(t.path, u.path)
    && (t.prior.File? || t.next.File? || u.prior.File? || u.next.File?)
  }

  predicate Unnested(plan: Plan) {
    forall i, j :: 0 <= i < j < |plan.Transitions()| ==> !Clash(plan.Transitions()[i], plan.Transitions()[j])
  }

  // Every reading that the code makes of these live files shows their states.
  predicate Readable(tree: Tree, plan: Plan) {
    Unnested(plan) && AllLegible(tree, plan)
  }
}
