/**
 Live paths inside one another. Both plan checkers accept them, but a path below a file, or with a file
 below it, cannot be read. The step machine lets every path hold a file; here is exactly when it may.
 */
module ArtifactNesting {
  import opened Wrappers
  import opened ArtifactPlan
  import opened ArtifactProtocol
  import opened ArtifactSafety
  import opened Paths

  // ---- The exact condition --------------------------------------------------------------------------

  // The tree after a complete publication.
  predicate Follows(prior: Tree, next: Tree, plan: Plan) {
    && (forall i :: 0 <= i < |plan.Transitions()| ==>
          && At(prior, plan.Transitions()[i].path) == plan.Transitions()[i].prior
          && At(next, plan.Transitions()[i].path) == plan.Transitions()[i].next)
    && (forall q :: q in next.Keys && !PlanPath(plan, q) ==> At(next, q) == At(prior, q))
  }

  // Whatever files a plan may have put at its own paths, an unnested plan stays legible.
  lemma StaysLegible(prior: Tree, tree: Tree, plan: Plan)
    requires Readable(prior, plan)
    requires forall q :: q in tree.Keys && !PlanPath(plan, q) ==> At(tree, q) == At(prior, q)
    requires forall i :: 0 <= i < |plan.Transitions()| && At(tree, plan.Transitions()[i].path).File? ==>
               plan.Transitions()[i].prior.File? || plan.Transitions()[i].next.File?
    ensures Readable(tree, plan)
  {
    var ts := plan.Transitions();
    forall i, q | 0 <= i < |ts| && q in tree.Keys && q != ts[i].path && At(tree, q).File?
      ensures Apart(q, ts[i].path) {
      if PlanPath(plan, q) {
        var j :| 0 <= j < |ts| && ts[j].path == q;
        assert if i < j then !Clash(ts[i], ts[j]) else !Clash(ts[j], ts[i]);
      } else {
        assert q in prior.Keys && Legible(prior, ts[i].path);
      }
    }
  }

  // The first and the last reading of a publication can both succeed if and only if no two of its paths
  // clash: the guard that neither plan checker has.
  lemma NestingExact(prior: Tree, next: Tree, plan: Plan)
    requires Follows(prior, next, plan) && AllLegible(prior, plan)
    requires forall i, j :: 0 <= i < j < |plan.Transitions()| ==> plan.Transitions()[i].path != plan.Transitions()[j].path
    ensures AllLegible(next, plan) <==> Unnested(plan)
  {
    if Unnested(plan) {
      StaysLegible(prior, next, plan);
    } else {
      var ts := plan.Transitions();
      var i, j :| 0 <= i < j < |ts| && Clash(ts[i], ts[j]);
      ClashHides(prior, next, ts[i], ts[j]);
      ClashHides(prior, next, ts[j], ts[i]);
      assert Legible(prior, ts[i].path) && Legible(prior, ts[j].path);
    }
  }

  lemma ClashHides(prior: Tree, next: Tree, t: Transition, u: Transition)
    requires t.path != u.path && !Apart(t.path, u.path)
    requires At(prior, t.path) == t.prior && At(next, t.path) == t.next
    ensures t.prior.File? ==> !Legible(prior, u.path)
    ensures t.next.File? ==> !Legible(next, u.path)
  {
  }

  // ---- Runs that only ever read legible paths -------------------------------------------------------

  function PlanOf(p: Proc): Option<Plan> {
    match p
    case Opening(plan, _, _, _) => Some(plan)
    case Forward(plan, _, _) => Some(plan)
    case Recovering(j, _, _) => Some(j.plan)
    case Settling(j, _, _, _) => Some(j.plan)
    case _ => None
  }

  // The running invocation and the next recovery can read every path they have to read.
  predicate LegibleSys(s: Sys) {
    && (s.disk.journal.Some? ==> Readable(s.disk.live, s.disk.journal.value.plan))
    && (PlanOf(s.proc).Some? ==> Readable(s.disk.live, PlanOf(s.proc).value))
  }

  // A publication passes its first reading of an unnested plan.
  predicate Inspected(s: Sys, e: Event) {
    e.Publish? ==> Readable(s.disk.live, e.plan)
  }

  predicate InspectedRun(s: Sys, es: seq<Event>)
    decreases |es|
  {
    es == [] || (Inspected(s, es[0]) && InspectedRun(Step(s, es[0]), es[1..]))
  }

  // Live files change only at paths of the plan that the journal records.
  ghost predicate LiveFrame(s: Sys, f: Sys) {
    f.disk.live == s.disk.live
    || (&& s.disk.journal.Some? && f.disk.journal == s.disk.journal && !s.disk.journal.value.phase.Committed?
        && PlanOf(s.proc) == Some(s.disk.journal.value.plan)
        && forall q: string :: !PlanPath(s.disk.journal.value.plan, q) ==> At(f.disk.live, q) == At(s.disk.live, q))
  }

  lemma ForwardFrame(s: Sys)
    requires Inv(s) && s.proc.Forward?
    ensures LiveFrame(s, Act(s))
  {
    var plan, at := s.proc.plan, s.proc.at;
    if at.Move? {
      assert Act(s) == MoveStep(s.disk, plan, s.proc.mine, at.index);
      if at.index < |plan.Transitions()| { assert PlanPath(plan, plan.Transitions()[at.index].path); }
    } else if at.Place? {
      assert Act(s) == PlaceStep(s.disk, plan, s.proc.mine, at.index);
      if at.index < |plan.Transitions()| { assert PlanPath(plan, plan.Transitions()[at.index].path); }
    }
  }

  lemma UndoFrameOf(s: Sys)
    requires Inv(s) && s.proc.Settling? && (s.proc.settlement.Reverse? || s.proc.settlement.Restore?)
    ensures LiveFrame(s, Act(s))
  {
    var j, l, v, k := s.proc.journal, s.proc.holder, s.proc.verdict, s.proc.settlement.remaining;
    if 0 < k { assert PlanPath(j.plan, j.plan.Transitions()[k - 1].path); }
    if s.proc.settlement.Reverse? { assert Act(s) == ReverseStep(s.disk, j, l, v, k); }
    else { assert Act(s) == RestoreStep(s.disk, j, l, v, k); }
  }

  lemma SettleFrame(s: Sys)
    requires Inv(s) && s.proc.Settling?
    ensures LiveFrame(s, Act(s))
  {
    if s.proc.settlement.Reverse? || s.proc.settlement.Restore? { UndoFrameOf(s); }
    else { assert Act(s).disk.live == s.disk.live; }
  }

  lemma OtherFrame(s: Sys)
    requires !s.proc.Forward? && !s.proc.Settling?
    ensures Act(s).disk.live == s.disk.live
  {
  }

  lemma ActFrame(s: Sys)
    requires Inv(s)
    ensures LiveFrame(s, Act(s))
  {
    if s.proc.Forward? { ForwardFrame(s); }
    else if s.proc.Settling? { SettleFrame(s); }
    else { OtherFrame(s); }
  }

  lemma StepDisk(s: Sys, e: Event)
    requires !e.EditLive?
    ensures Step(s, e).disk.live == s.disk.live
            || (&& Step(s, e).disk.live == Act(s).disk.live && Step(s, e).disk.journal == Act(s).disk.journal)
  {
  }

  lemma StepFrame(s: Sys, e: Event)
    requires Inv(s) && Calm(s, e)
    ensures LiveFrame(s, Step(s, e))
  {
    ActFrame(s);
    StepDisk(s, e);
  }

  function JournalPlan(j: Option<Journal>): Option<Plan> {
    if j.Some? then Some(j.value.plan) else None
  }

  // No step brings in a plan that the process or the journal does not already hold.
  predicate Known(s: Sys, plan: Option<Plan>) {
    plan.Some? ==> plan == PlanOf(s.proc) || plan == JournalPlan(s.disk.journal)
  }

  // The temporary journal that a process is about to rename is its own.
  predicate OwnTemp(s: Sys) {
    (s.proc.Forward? && s.proc.at.Seal?) || (s.proc.Settling? && s.proc.settlement.Rename?) ==>
      Known(s, JournalPlan(s.disk.temp))
  }

  lemma TempIsOwn(s: Sys)
    requires Inv(s)
    ensures OwnTemp(s)
  {
  }

  lemma MovePlans(s: Sys)
    requires s.proc.Forward? && (s.proc.at.Move? || s.proc.at.Place?)
    ensures Known(s, JournalPlan(Act(s).disk.journal)) && Known(s, PlanOf(Act(s).proc))
  {
    if s.proc.at.Move? {
      assert Act(s) == MoveStep(s.disk, s.proc.plan, s.proc.mine, s.proc.at.index);
    } else {
      assert Act(s) == PlaceStep(s.disk, s.proc.plan, s.proc.mine, s.proc.at.index);
    }
  }

  lemma SettlePlans(s: Sys)
    requires OwnTemp(s) && s.proc.Settling?
    ensures Known(s, JournalPlan(Act(s).disk.journal)) && Known(s, PlanOf(Act(s).proc))
  {
    var j, l, v := s.proc.journal, s.proc.holder, s.proc.verdict;
    match s.proc.settlement
    case Reverse(k) => assert Act(s) == ReverseStep(s.disk, j, l, v, k);
    case Restore(k) => assert Act(s) == RestoreStep(s.disk, j, l, v, k);
    case _ =>
  }

  lemma ForwardPlans(s: Sys)
    requires OwnTemp(s) && s.proc.Forward?
    ensures Known(s, JournalPlan(Act(s).disk.journal)) && Known(s, PlanOf(Act(s).proc))
  {
    if s.proc.at.Move? || s.proc.at.Place? { MovePlans(s); }
  }

  lemma ActPlans(s: Sys)
    requires OwnTemp(s)
    ensures Known(s, JournalPlan(Act(s).disk.journal)) && Known(s, PlanOf(Act(s).proc))
  {
    if s.proc.Forward? { ForwardPlans(s); }
    else if s.proc.Settling? { SettlePlans(s); }
  }

  lemma StepPlans(s: Sys, e: Event)
    requires OwnTemp(s) && !e.Publish?
    ensures Known(s, JournalPlan(Step(s, e).disk.journal)) && Known(s, PlanOf(Step(s, e).proc))
  {
    ActPlans(s);
  }

  // At the paths of a transaction under way every file is a recorded one.
  lemma RecordedFiles(d: Disk, plan: Plan)
    requires CrashOk(d) && d.journal.Some? && d.journal.value.plan == plan
    ensures forall i :: 0 <= i < |plan.Transitions()| && At(d.live, plan.Transitions()[i].path).File? ==>
              plan.Transitions()[i].prior.File? || plan.Transitions()[i].next.File?
  {
    if !d.journal.value.phase.Committed? {
      forall i | 0 <= i < |plan.Transitions()| ensures Restorable(d, plan.Transitions()[i]) {}
    }
  }

  lemma StepReadable(s: Sys, e: Event, plan: Plan)
    requires Inv(s) && Calm(s, e) && Readable(s.disk.live, plan) && Known(s, Some(plan))
    ensures Readable(Step(s, e).disk.live, plan)
  {
    StepFrame(s, e);
    StepKeeps(s, e);
    var f := Step(s, e);
    if f.disk.live != s.disk.live {
      RecordedFiles(f.disk, plan);
      StaysLegible(s.disk.live, f.disk.live, plan);
    }
  }

  lemma StepLegible(s: Sys, e: Event)
    requires Inv(s) && Calm(s, e) && LegibleSys(s) && Inspected(s, e)
    ensures LegibleSys(Step(s, e))
  {
    if !e.Publish? {
      TempIsOwn(s);
      StepPlans(s, e);
      if PlanOf(s.proc).Some? { StepReadable(s, e, PlanOf(s.proc).value); }
      if s.disk.journal.Some? { StepReadable(s, e, s.disk.journal.value.plan); }
    }
  }

  // In every state of every calm run whose publications pass their first reading with an unnested plan,
  // every path that the running invocation or a later recovery has to read is legible; so no reading
  // fails, and the machine takes the branches that the code takes.
  lemma {:induction false} RunLegible(s: Sys, es: seq<Event>)
    requires Inv(s) && CalmRun(s, es) && LegibleSys(s) && InspectedRun(s, es)
    ensures Inv(Run(s, es)) && LegibleSys(Run(s, es))
    decreases |es|
  {
    if es != [] {
      StepKeeps(s, es[0]);
      StepLegible(s, es[0]);
      RunLegible(Step(s, es[0]), es[1..]);
    }
  }

  // One plan, seen through to the end: whoever runs, it is this plan's transaction, and its paths are legible.
  predicate Reads(s: Sys, plan: Plan) {
    && Readable(s.disk.live, plan)
    && (s.disk.journal.Some? ==> s.disk.journal.value.plan == plan)
    && (PlanOf(s.proc).Some? ==> PlanOf(s.proc) == Some(plan))
  }

  lemma StepReads(s: Sys, e: Event, plan: Plan)
    requires Inv(s) && Calm(s, e) && !e.Publish? && Reads(s, plan)
    ensures Reads(Step(s, e), plan)
  {
    TempIsOwn(s);
    StepPlans(s, e);
    if PlanOf(s.proc).Some? || s.disk.journal.Some? {
      StepReadable(s, e, plan);
    } else {
      StepFrame(s, e);
    }
  }
}
