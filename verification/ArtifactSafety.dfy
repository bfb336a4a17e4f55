/**
 Crash safety of the artifact transaction: one inductive invariant over every reachable state, with a
 process exit before any step, I/O errors with or without effect, and any number of invocations.
 */
module ArtifactSafety {
  import opened Wrappers
  import opened ArtifactPlan
  import opened ArtifactProtocol

  // ---- One transition on disk ---------------------------------------------------------------

  predicate Untouched(d: Disk, t: Transition) {
    At(d.live, t.path) == t.prior && At(d.backup, t.path).Absent?
  }

  predicate Lifted(d: Disk, t: Transition) {
    t.Changes() && At(d.live, t.path).Absent? && At(d.backup, t.path) == t.prior
  }

  predicate Replaced(d: Disk, t: Transition) {
    t.Changes() && At(d.live, t.path) == t.next && At(d.backup, t.path) == t.prior
  }

  predicate Restorable(d: Disk, t: Transition) {
    Untouched(d, t) || Lifted(d, t) || Replaced(d, t)
  }

  predicate Done(d: Disk, t: Transition) {
    if t.Changes() then Replaced(d, t) else Untouched(d, t)
  }

  predicate DoneBelow(d: Disk, plan: Plan, n: nat) {
    forall i :: 0 <= i < |plan.Transitions()| && i < n ==> Done(d, plan.Transitions()[i])
  }

  predicate UntouchedFrom(d: Disk, plan: Plan, n: nat) {
    forall i :: n <= i < |plan.Transitions()| ==> Untouched(d, plan.Transitions()[i])
  }

  predicate StagedFrom(d: Disk, plan: Plan, n: nat) {
    forall i :: n <= i < |plan.Transitions()| ==>
      (var t := plan.Transitions()[i]; t.stagedPath.Some? ==> At(d.stage, t.stagedPath.value) == t.next)
  }

  predicate AllRestorable(d: Disk, plan: Plan) {
    forall i :: 0 <= i < |plan.Transitions()| ==> Restorable(d, plan.Transitions()[i])
  }

  predicate PlanPath(plan: Plan, path: string) {
    exists i :: 0 <= i < |plan.Transitions()| && plan.Transitions()[i].path == path
  }

  predicate ChangedPath(plan: Plan, path: string) {
    exists i :: 0 <= i < |plan.Transitions()| && plan.Transitions()[i].path == path && plan.Transitions()[i].Changes()
  }

  predicate BackupsBelong(d: Disk, plan: Plan) {
    forall q :: q in d.backup.Keys ==> d.backup[q].File? && ChangedPath(plan, q)
  }

  // The marker at its next state witnesses that every artifact is at its next state.
  predicate Truthful(d: Disk, plan: Plan) {
    At(d.live, plan.commitMarker.path) == plan.commitMarker.next ==> AllNext(d, plan)
  }

  predicate Recoverable(d: Disk, plan: Plan) {
    AllRestorable(d, plan) && BackupsBelong(d, plan) && Truthful(d, plan)
  }

  // ---- The invariant ------------------------------------------------------------------------

  // What a crash at any moment leaves behind.
  predicate CrashOk(d: Disk) {
    && (d.journal.None? ==> d.backup == map[])
    && (d.journal.Some? ==>
          var j := d.journal.value;
          && Accepted(j.plan)
          && (if j.phase.Committed? then AllPrior(d, j.plan) || AllNext(d, j.plan) else Recoverable(d, j.plan))
          && (j.phase.Committed? && d.lock.None? ==> d.backup == map[]))
  }

  // A journal that this writer does not own is terminal and its backups are already gone.
  predicate Tidy(d: Disk) {
    d.journal.Some? && d.journal.value.phase.Committed? ==> d.backup == map[]
  }

  predicate Sweeps(at: Point) {
    at.SweepTemp? || at.SweepWork? || at.SweepLock? || at.SweepJournal?
  }

  predicate ForwardOk(d: Disk, plan: Plan, mine: Lock, at: Point) {
    var n := |plan.Transitions()|;
    var tx := mine.transaction;
    && Accepted(plan)
    && (!at.SweepJournal? ==> d.lock == Some(mine))
    && match at
       case Recheck => Tidy(d)
       case Draft(Prepared) => Tidy(d) && AllPrior(d, plan) && StagedFrom(d, plan, 0)
       case Seal(Prepared) =>
         AllPrior(d, plan) && StagedFrom(d, plan, 0) && d.journal.None? && d.temp == Some(Journal(plan, tx, Prepared))
       case Draft(Publishing) =>
         UntouchedFrom(d, plan, 0) && StagedFrom(d, plan, 0) && d.journal == Some(Journal(plan, tx, Prepared))
       case Seal(Publishing) =>
         && UntouchedFrom(d, plan, 0) && StagedFrom(d, plan, 0)
         && d.journal == Some(Journal(plan, tx, Prepared)) && d.temp == Some(Journal(plan, tx, Publishing))
       case Move(i) =>
         && i <= n && d.journal == Some(Journal(plan, tx, Publishing))
         && DoneBelow(d, plan, i) && UntouchedFrom(d, plan, i) && StagedFrom(d, plan, i)
       case Place(i) =>
         && i < n && d.journal == Some(Journal(plan, tx, Publishing))
         && DoneBelow(d, plan, i) && Lifted(d, plan.Transitions()[i])
         && UntouchedFrom(d, plan, i + 1) && StagedFrom(d, plan, i)
       case Draft(Published) => DoneBelow(d, plan, n) && d.journal == Some(Journal(plan, tx, Publishing))
       case Seal(Published) =>
         && DoneBelow(d, plan, n) && d.journal == Some(Journal(plan, tx, Publishing))
         && d.temp == Some(Journal(plan, tx, Published))
       case Ask => DoneBelow(d, plan, n) && d.journal == Some(Journal(plan, tx, Published))
       case Confirm => DoneBelow(d, plan, n) && d.journal == Some(Journal(plan, tx, Published))
       case Draft(Committed) => DoneBelow(d, plan, n) && d.journal == Some(Journal(plan, tx, Published))
       case Seal(Committed) =>
         && DoneBelow(d, plan, n) && d.journal == Some(Journal(plan, tx, Published))
         && d.temp == Some(Journal(plan, tx, Committed))
       case SweepTemp =>
         AllNext(d, plan) && BackupsBelong(d, plan) && d.temp.None? && d.journal == Some(Journal(plan, tx, Committed))
       case SweepWork =>
         AllNext(d, plan) && BackupsBelong(d, plan) && d.temp.None? && d.journal == Some(Journal(plan, tx, Committed))
       case SweepLock =>
         AllNext(d, plan) && d.backup == map[] && d.temp.None? && d.journal == Some(Journal(plan, tx, Committed))
       case SweepJournal =>
         && AllNext(d, plan) && d.backup == map[] && d.temp.None? && d.lock.None?
         && d.journal == Some(Journal(plan, tx, Committed))
       case _ => false
  }

  predicate RecoveringOk(d: Disk, j: Journal, owner: Option<Lock>, decision: Decision) {
    && d.journal == Some(j)
    && (owner.Some? ==> d.lock == owner)
    && (owner.None? ==> j.phase.Committed? && d.lock.None?)
    && match decision
       case DropJournal(committed) => owner.None? && (if committed then AllNext(d, j.plan) else AllPrior(d, j.plan))
       case AskIntended => owner.Some? && !j.phase.Committed?
       case ConfirmIntended => owner.Some? && !j.phase.Committed?
       case _ => true
  }

  // The live tree that a verdict announces.
  predicate VerdictHolds(d: Disk, plan: Plan, v: Outcome) {
    match v
    case CommittedPlan(p) => p == plan && AllNext(d, plan)
    case RolledBack(p) => p == plan && AllPrior(d, plan)
    case Failed(_) => AllPrior(d, plan)
    case _ => false
  }

  predicate SettlingOk(d: Disk, j: Journal, v: Outcome, s: Settlement) {
    var ts := j.plan.Transitions();
    && d.journal == Some(j)
    && Accepted(j.plan)
    && match s
       case Write(RollingBack) => Recoverable(d, j.plan) && (v == RolledBack(j.plan) || v.Failed?)
       case Rename(RollingBack) =>
         Recoverable(d, j.plan) && d.temp == Some(j.(phase := RollingBack)) && (v == RolledBack(j.plan) || v.Failed?)
       case Reverse(k) =>
         && k <= |ts| && j.phase.RollingBack? && UntouchedFrom(d, j.plan, k)
         && (v == RolledBack(j.plan) || v.Failed?)
       case Restore(k) =>
         && 0 < k <= |ts| && j.phase.RollingBack? && UntouchedFrom(d, j.plan, k)
         && Lifted(d, ts[k - 1]) && ts[k - 1].prior.File? && (v == RolledBack(j.plan) || v.Failed?)
       case CheckPrior => j.phase.RollingBack? && UntouchedFrom(d, j.plan, 0) && (v == RolledBack(j.plan) || v.Failed?)
       case Write(Committed) =>
         !j.phase.Committed? && VerdictHolds(d, j.plan, v) && (d.lock.Some? || d.backup == map[])
       case Rename(Committed) =>
         && !j.phase.Committed? && VerdictHolds(d, j.plan, v) && (d.lock.Some? || d.backup == map[])
         && d.temp == Some(j.(phase := Committed))
       case CleanTemp => j.phase.Committed? && VerdictHolds(d, j.plan, v)
       case CleanWork => j.phase.Committed? && VerdictHolds(d, j.plan, v)
       case CleanLock => j.phase.Committed? && VerdictHolds(d, j.plan, v) && d.backup == map[]
       case CleanJournal => j.phase.Committed? && VerdictHolds(d, j.plan, v) && d.backup == map[] && d.lock.None?
       case _ => false
  }

  predicate ControlGone(d: Disk) {
    d.journal.None? && d.lock.None? && d.backup == map[]
  }

  predicate OutcomeOk(d: Disk, o: Outcome) {
    match o
    case PublishedPlan(plan) => AllNext(d, plan) && ControlGone(d) && d.temp.None?
    case CommittedPlan(plan) => AllNext(d, plan) && ControlGone(d)
    case RolledBack(plan) => AllPrior(d, plan) && ControlGone(d)
    case NothingToRecover => ControlGone(d)
    case Unchanged => true
    case _ => true
  }

  predicate ProcOk(d: Disk, p: Proc) {
    match p
    case Idle(o) => OutcomeOk(d, o)
    case Opening(plan, _, _, _) => Accepted(plan)
    case Forward(plan, mine, at) => ForwardOk(d, plan, mine, at)
    case Releasing(_, _) => Tidy(d)
    case Recovering(j, owner, decision) => RecoveringOk(d, j, owner, decision)
    case Settling(j, _, v, s) => SettlingOk(d, j, v, s)
  }

  predicate Inv(s: Sys) {
    CrashOk(s.disk) && ProcOk(s.disk, s.proc)
  }

  // ---- Which runs -----------------------------------------------------------------------------

  // No outside edit, and no I/O error in the publisher's clean-up once a needed backup is gone.
  predicate Calm(s: Sys, e: Event) {
    && !e.EditLive? && !e.EditStage?
    && (e.IoError? && s.proc.Forward? && Sweeps(s.proc.at) && !(s.proc.at.SweepJournal? && e.applied) ==>
          AllRestorable(s.disk, s.proc.plan))
  }

  predicate CalmRun(s: Sys, es: seq<Event>)
    decreases |es|
  {
    es == [] || (Calm(s, es[0]) && CalmRun(Step(s, es[0]), es[1..]))
  }

  // ---- Facts about one transition -------------------------------------------------------------

  lemma DoneIsNext(d: Disk, plan: Plan)
    requires DoneBelow(d, plan, |plan.Transitions()|)
    ensures AllNext(d, plan) && AllRestorable(d, plan) && Truthful(d, plan)
  {
    var ts := plan.Transitions();
    forall i | 0 <= i < |ts| ensures At(d.live, ts[i].path) == ts[i].next && Restorable(d, ts[i]) {
      assert Done(d, ts[i]);
    }
  }

  // Before the marker's own turn it is not at its next state.
  lemma MarkerPending(d: Disk, plan: Plan, i: nat)
    requires Accepted(plan) && i <= |plan.artifacts| && UntouchedFrom(d, plan, i)
    ensures At(d.live, plan.commitMarker.path) != plan.commitMarker.next
  {
    assert Untouched(d, plan.Transitions()[|plan.artifacts|]);
  }

  lemma PriorIsUntouched(d: Disk, plan: Plan)
    requires AllPrior(d, plan) && d.backup == map[]
    ensures UntouchedFrom(d, plan, 0)
  {
  }

  lemma UntouchedIsPrior(d: Disk, plan: Plan)
    requires UntouchedFrom(d, plan, 0) && BackupsBelong(d, plan)
    ensures AllPrior(d, plan) && d.backup == map[]
  {
    forall q ensures q !in d.backup.Keys {
      if ChangedPath(plan, q) {
        var i :| 0 <= i < |plan.Transitions()| && plan.Transitions()[i].path == q && plan.Transitions()[i].Changes();
        assert Untouched(d, plan.Transitions()[i]);
      }
    }
  }

  // Mid-publication: a prefix done, one transition possibly lifted, the rest untouched.
  lemma MidwayRecoverable(d: Disk, plan: Plan, i: nat)
    requires Accepted(plan) && i < |plan.Transitions()| && BackupsBelong(d, plan)
    requires DoneBelow(d, plan, i) && Restorable(d, plan.Transitions()[i]) && UntouchedFrom(d, plan, i + 1)
    requires i == |plan.artifacts| || At(d.live, plan.commitMarker.path) == plan.commitMarker.prior
    ensures Recoverable(d, plan)
  {
    var ts := plan.Transitions();
    forall k | 0 <= k < |ts| ensures Restorable(d, ts[k]) {
      if k < i { assert Done(d, ts[k]); } else if k > i { assert Untouched(d, ts[k]); }
    }
    if i == |plan.artifacts| && At(d.live, plan.commitMarker.path) == plan.commitMarker.next {
      forall k | 0 <= k < |ts| ensures At(d.live, ts[k].path) == ts[k].next {
        if k < i { assert Done(d, ts[k]); }
      }
    }
  }

  // ---- Every step keeps the invariant ---------------------------------------------------------

  lemma AbortKeeps(d: Disk, p: Proc, why: Failure)
    requires CrashOk(d) && !p.Idle?
    requires p.Forward? && (p.at == Recheck || p.at == Draft(Prepared) || p.at == Seal(Prepared)) ==> Tidy(d)
    requires p.Forward? && d.journal.Some? && !(p.at == Recheck || p.at == Draft(Prepared) || p.at == Seal(Prepared)) ==>
               Recoverable(d, d.journal.value.plan)
    ensures Inv(Abort(d, p, why))
  {
  }

  // Backing up one file leaves the other transitions as they were.
  lemma LiftFrame(d: Disk, e: Disk, plan: Plan, i: nat)
    requires Accepted(plan) && i < |plan.Transitions()| && BackupsBelong(d, plan)
    requires plan.Transitions()[i].Changes() && Untouched(d, plan.Transitions()[i]) && plan.Transitions()[i].prior.File?
    requires var p := plan.Transitions()[i].path;
             e == d.(backup := Put(d.backup, p, At(d.live, p)), live := Put(d.live, p, Absent))
    requires DoneBelow(d, plan, i) && UntouchedFrom(d, plan, i)
    ensures DoneBelow(e, plan, i) && UntouchedFrom(e, plan, i + 1) && Lifted(e, plan.Transitions()[i])
    ensures BackupsBelong(e, plan)
    ensures i < |plan.artifacts| ==> At(e.live, plan.commitMarker.path) == plan.commitMarker.prior
  {
    var ts := plan.Transitions();
    var t := ts[i];
    forall k | 0 <= k < |ts| && k != i
      ensures Untouched(d, ts[k]) ==> Untouched(e, ts[k])
      ensures Done(d, ts[k]) ==> Done(e, ts[k]) {
      assert ts[k].path != t.path;
    }
    forall q | q in e.backup.Keys ensures e.backup[q].File? && ChangedPath(plan, q) {
      if q == t.path { assert ts[i].path == q && ts[i].Changes(); } else { assert q in d.backup.Keys; }
    }
    if i < |plan.artifacts| { assert Untouched(d, ts[|plan.artifacts|]) && ts[|plan.artifacts|].path != t.path; }
  }

  lemma LiftKeeps(d: Disk, plan: Plan, mine: Lock, i: nat)
    requires CrashOk(d) && ForwardOk(d, plan, mine, Move(i)) && i < |plan.Transitions()|
    requires plan.Transitions()[i].Changes() && plan.Transitions()[i].prior.File?
    ensures Inv(MoveStep(d, plan, mine, i))
  {
    var t := plan.Transitions()[i];
    assert Untouched(d, t);
    var e := d.(backup := Put(d.backup, t.path, At(d.live, t.path)), live := Put(d.live, t.path, Absent));
    LiftFrame(d, e, plan, i);
    MidwayRecoverable(e, plan, i);
    assert MoveStep(d, plan, mine, i) == Sys(e, Forward(plan, mine, Place(i)));
  }

  lemma MoveKeeps(d: Disk, plan: Plan, mine: Lock, i: nat)
    requires CrashOk(d) && ForwardOk(d, plan, mine, Move(i))
    ensures Inv(MoveStep(d, plan, mine, i))
  {
    var ts := plan.Transitions();
    if i < |ts| {
      assert Untouched(d, ts[i]);
      if ts[i].Changes() && ts[i].prior.File? { LiftKeeps(d, plan, mine, i); }
      else { assert MoveStep(d, plan, mine, i).disk == d; }
    }
  }

  // Publishing one staged file leaves the other transitions as they were.
  lemma PlaceFrame(d: Disk, e: Disk, plan: Plan, i: nat)
    requires Accepted(plan) && i < |plan.Transitions()|
    requires var t := plan.Transitions()[i]; t.next.File? && t.stagedPath.Some? && Lifted(d, t)
    requires var t := plan.Transitions()[i];
             e == d.(live := Put(d.live, t.path, t.next), stage := Put(d.stage, t.stagedPath.value, Absent))
    requires DoneBelow(d, plan, i) && UntouchedFrom(d, plan, i + 1) && StagedFrom(d, plan, i)
    ensures DoneBelow(e, plan, i + 1) && UntouchedFrom(e, plan, i + 1) && StagedFrom(e, plan, i + 1)
    ensures i < |plan.artifacts| ==> At(e.live, plan.commitMarker.path) == plan.commitMarker.prior
  {
    var ts := plan.Transitions();
    var t := ts[i];
    forall k | 0 <= k < |ts| && k != i
      ensures Untouched(d, ts[k]) ==> Untouched(e, ts[k])
      ensures Done(d, ts[k]) ==> Done(e, ts[k]) {
      assert ts[k].path != t.path;
    }
    assert Done(e, t);
    if i < |plan.artifacts| { assert Untouched(d, ts[|plan.artifacts|]) && ts[|plan.artifacts|].path != t.path; }
  }

  lemma PutInPlaceKeeps(d: Disk, plan: Plan, mine: Lock, i: nat)
    requires CrashOk(d) && ForwardOk(d, plan, mine, Place(i)) && plan.Transitions()[i].next.File?
    ensures Inv(PlaceStep(d, plan, mine, i))
  {
    var t := plan.Transitions()[i];
    assert t.stagedPath.Some? && At(d.stage, t.stagedPath.value) == t.next;
    var e := d.(live := Put(d.live, t.path, t.next), stage := Put(d.stage, t.stagedPath.value, Absent));
    PlaceFrame(d, e, plan, i);
    assert Done(e, t);
    MidwayRecoverable(e, plan, i);
    assert PlaceStep(d, plan, mine, i) == Sys(e, Forward(plan, mine, Move(i + 1)));
  }

  lemma PlaceKeeps(d: Disk, plan: Plan, mine: Lock, i: nat)
    requires CrashOk(d) && ForwardOk(d, plan, mine, Place(i))
    ensures Inv(PlaceStep(d, plan, mine, i))
  {
    if plan.Transitions()[i].next.File? {
      PutInPlaceKeeps(d, plan, mine, i);
    } else {
      assert PlaceStep(d, plan, mine, i) == Sys(d, Forward(plan, mine, Move(i + 1)));
    }
  }

  // Changing control files alone changes none of the facts about public files and backups.
  lemma SameFiles(d: Disk, e: Disk, plan: Plan, n: nat)
    requires e.live == d.live && e.stage == d.stage && e.backup == d.backup
    ensures AllPrior(d, plan) ==> AllPrior(e, plan)
    ensures AllNext(d, plan) ==> AllNext(e, plan)
    ensures DoneBelow(d, plan, n) ==> DoneBelow(e, plan, n)
    ensures UntouchedFrom(d, plan, n) ==> UntouchedFrom(e, plan, n)
    ensures StagedFrom(d, plan, n) ==> StagedFrom(e, plan, n)
    ensures Recoverable(d, plan) ==> Recoverable(e, plan)
  {
    forall i | 0 <= i < |plan.Transitions()|
      ensures Restorable(d, plan.Transitions()[i]) ==> Restorable(e, plan.Transitions()[i]) {
    }
  }

  lemma SealKeeps(d: Disk, plan: Plan, mine: Lock, phase: Phase)
    requires CrashOk(d) && ForwardOk(d, plan, mine, Seal(phase))
    ensures Inv(ForwardStep(d, plan, mine, Seal(phase)))
  {
    var e := ForwardStep(d, plan, mine, Seal(phase)).disk;
    if phase.Prepared? {
      PriorIsUntouched(d, plan);
      MarkerPending(d, plan, 0);
      SameFiles(d, e, plan, 0);
      assert AllRestorable(e, plan);
    } else if phase.Publishing? {
      SameFiles(d, e, plan, 0);
    } else {
      DoneIsNext(d, plan);
      SameFiles(d, e, plan, |plan.Transitions()|);
    }
  }

  lemma DraftKeeps(d: Disk, plan: Plan, mine: Lock, phase: Phase)
    requires CrashOk(d) && ForwardOk(d, plan, mine, Draft(phase))
    ensures Inv(ForwardStep(d, plan, mine, Draft(phase)))
  {
    var here := Forward(plan, mine, Draft(phase));
    if phase.Prepared? && d.journal.Some? {
      AbortKeeps(d, here, OrphanControlState);
    } else if d.temp.Some? {
      AbortKeeps(d, here, ControlPathCollision);
    } else {
      var s := ForwardStep(d, plan, mine, Draft(phase));
      SameFiles(d, s.disk, plan, 0);
      SameFiles(d, s.disk, plan, |plan.Transitions()|);
      assert CrashOk(s.disk);
    }
  }

  lemma SweepKeeps(d: Disk, plan: Plan, mine: Lock, at: Point)
    requires CrashOk(d) && ForwardOk(d, plan, mine, at) && Sweeps(at)
    ensures Inv(ForwardStep(d, plan, mine, at))
  {
    var e := ForwardStep(d, plan, mine, at).disk;
    SameFiles(d, e, plan, 0);
    assert d.backup.Keys == {} ==> d.backup == map[];
  }

  lemma RecheckKeeps(d: Disk, plan: Plan, mine: Lock)
    requires CrashOk(d) && ForwardOk(d, plan, mine, Recheck)
    ensures Inv(ForwardStep(d, plan, mine, Recheck))
  {
    var here := Forward(plan, mine, Recheck);
    if !StagedStatesOk(d, plan) { AbortKeeps(d, here, UnexpectedStagedState); }
    else if !NoUndeclaredStage(d, plan) { AbortKeeps(d, here, UndeclaredStagedEntry); }
    else if !AllPrior(d, plan) { AbortKeeps(d, here, UnexpectedLiveState); }
  }

  lemma ConfirmKeeps(d: Disk, plan: Plan, mine: Lock)
    requires CrashOk(d) && ForwardOk(d, plan, mine, Confirm)
    ensures Inv(ForwardStep(d, plan, mine, Confirm))
  {
    DoneIsNext(d, plan);
    assert ForwardStep(d, plan, mine, Confirm) == Sys(d, Forward(plan, mine, Draft(Committed)));
  }

  lemma ForwardKeeps(d: Disk, plan: Plan, mine: Lock, at: Point)
    requires CrashOk(d) && ForwardOk(d, plan, mine, at)
    ensures Inv(ForwardStep(d, plan, mine, at))
  {
    match at
    case Move(i) => MoveKeeps(d, plan, mine, i);
    case Place(i) => PlaceKeeps(d, plan, mine, i);
    case Seal(phase) => SealKeeps(d, plan, mine, phase);
    case Draft(phase) => DraftKeeps(d, plan, mine, phase);
    case Confirm => ConfirmKeeps(d, plan, mine);
    case Recheck => RecheckKeeps(d, plan, mine);
    case Ask =>
    case _ => SweepKeeps(d, plan, mine, at);
  }

  lemma RecoverKeeps(d: Disk, j: Journal, owner: Option<Lock>, decision: Decision)
    requires CrashOk(d) && RecoveringOk(d, j, owner, decision)
    ensures Inv(RecoverStep(d, j, owner, decision))
  {
  }

  // In a rolling-back transaction, undoing one transition leaves the others as they were.
  lemma UndoFrame(d: Disk, e: Disk, plan: Plan, k: nat)
    requires Accepted(plan) && k < |plan.Transitions()| && UntouchedFrom(d, plan, k + 1) && Recoverable(d, plan)
    requires forall q :: q != plan.Transitions()[k].path ==> At(e.live, q) == At(d.live, q) && At(e.backup, q) == At(d.backup, q)
    requires Restorable(e, plan.Transitions()[k]) && BackupsBelong(e, plan)
    requires k == |plan.artifacts| && At(e.live, plan.commitMarker.path) == plan.commitMarker.next ==> AllNext(d, plan)
    ensures UntouchedFrom(e, plan, k + 1) && Recoverable(e, plan)
  {
    var ts := plan.Transitions();
    forall i | 0 <= i < |ts| && i != k
      ensures Restorable(d, ts[i]) && Restorable(e, ts[i])
      ensures Untouched(d, ts[i]) ==> Untouched(e, ts[i])
      ensures At(e.live, ts[i].path) == At(d.live, ts[i].path) {
      assert ts[i].path != ts[k].path;
    }
    if k < |plan.artifacts| {
      MarkerPending(d, plan, k + 1);
    }
  }

  // The next file of one transition is removed.
  lemma UnlinkKeeps(d: Disk, e: Disk, j: Journal, k: nat)
    requires CrashOk(d) && d.journal == Some(j) && j.phase.RollingBack? && UntouchedFrom(d, j.plan, k)
    requires 0 < k <= |j.plan.Transitions()|
    requires (var t := j.plan.Transitions()[k - 1]; t.Changes() && Replaced(d, t) && t.next.File?)
    requires e == d.(live := Put(d.live, j.plan.Transitions()[k - 1].path, Absent))
    ensures CrashOk(e) && Lifted(e, j.plan.Transitions()[k - 1]) && UntouchedFrom(e, j.plan, k)
  {
    assert Lifted(e, j.plan.Transitions()[k - 1]);
    UndoFrame(d, e, j.plan, k - 1);
  }

  // The next file goes, and the prior one comes back next.
  lemma ReplacedKeeps(d: Disk, j: Journal, l: Lock, v: Outcome, k: nat)
    requires CrashOk(d) && SettlingOk(d, j, v, Reverse(k)) && 0 < k
    requires (var t := j.plan.Transitions()[k - 1]; t.Changes() && Replaced(d, t) && t.next.File? && t.prior.File?)
    ensures Inv(ReverseStep(d, j, l, v, k))
  {
    var e := d.(live := Put(d.live, j.plan.Transitions()[k - 1].path, Absent));
    UnlinkKeeps(d, e, j, k);
    assert ReverseStep(d, j, l, v, k) == Sys(e, Settling(j, l, v, Restore(k)));
  }

  // The next file goes, and there is no prior one.
  lemma CreatedKeeps(d: Disk, j: Journal, l: Lock, v: Outcome, k: nat)
    requires CrashOk(d) && SettlingOk(d, j, v, Reverse(k)) && 0 < k
    requires (var t := j.plan.Transitions()[k - 1]; t.Changes() && Replaced(d, t) && t.next.File? && t.prior.Absent?)
    ensures Inv(ReverseStep(d, j, l, v, k))
  {
    var t := j.plan.Transitions()[k - 1];
    var e := d.(live := Put(d.live, t.path, Absent));
    UnlinkKeeps(d, e, j, k);
    assert Untouched(e, t);
    assert ReverseStep(d, j, l, v, k) == Sys(e, Settling(j, l, v, Reverse(k - 1)));
  }

  // Nothing has to go first.
  lemma KeptKeeps(d: Disk, j: Journal, l: Lock, v: Outcome, k: nat)
    requires CrashOk(d) && SettlingOk(d, j, v, Reverse(k)) && 0 < k
    requires (var t := j.plan.Transitions()[k - 1]; Restorable(d, t) && !(t.Changes() && Replaced(d, t) && t.next.File?))
    ensures Inv(ReverseStep(d, j, l, v, k))
  {
    var t := j.plan.Transitions()[k - 1];
    if t.prior.File? && Lifted(d, t) {
      assert ReverseStep(d, j, l, v, k) == Sys(d, Settling(j, l, v, Restore(k)));
    } else {
      assert Untouched(d, t);
      assert ReverseStep(d, j, l, v, k) == Sys(d, Settling(j, l, v, Reverse(k - 1)));
    }
  }

  lemma ReverseKeeps(d: Disk, j: Journal, l: Lock, v: Outcome, k: nat)
    requires CrashOk(d) && SettlingOk(d, j, v, Reverse(k))
    ensures Inv(ReverseStep(d, j, l, v, k))
  {
    if k > 0 {
      var t := j.plan.Transitions()[k - 1];
      assert Restorable(d, t);
      if t.Changes() && Replaced(d, t) && t.next.File? {
        if t.prior.File? { ReplacedKeeps(d, j, l, v, k); } else { CreatedKeeps(d, j, l, v, k); }
      } else {
        KeptKeeps(d, j, l, v, k);
      }
    }
  }

  // The backup of one transition goes home.
  lemma RestoreFrame(d: Disk, e: Disk, plan: Plan, k: nat)
    requires Accepted(plan) && k < |plan.Transitions()| && UntouchedFrom(d, plan, k + 1) && Recoverable(d, plan)
    requires Lifted(d, plan.Transitions()[k]) && plan.Transitions()[k].prior.File?
    requires var p := plan.Transitions()[k].path;
             e == d.(live := Put(d.live, p, At(d.backup, p)), backup := Put(d.backup, p, Absent))
    ensures Recoverable(e, plan) && UntouchedFrom(e, plan, k)
  {
    var t := plan.Transitions()[k];
    assert e.backup.Keys <= d.backup.Keys;
    assert Untouched(e, t) && Restorable(e, t);
    assert BackupsBelong(e, plan);
    UndoFrame(d, e, plan, k);
  }

  lemma RestoreFiles(d: Disk, e: Disk, j: Journal, k: nat)
    requires CrashOk(d) && d.journal == Some(j) && j.phase.RollingBack? && UntouchedFrom(d, j.plan, k)
    requires 0 < k <= |j.plan.Transitions()|
    requires Lifted(d, j.plan.Transitions()[k - 1]) && j.plan.Transitions()[k - 1].prior.File?
    requires var p := j.plan.Transitions()[k - 1].path;
             e == d.(live := Put(d.live, p, At(d.backup, p)), backup := Put(d.backup, p, Absent))
    ensures CrashOk(e) && UntouchedFrom(e, j.plan, k - 1)
  {
    RestoreFrame(d, e, j.plan, k - 1);
  }

  lemma RestoreKeeps(d: Disk, j: Journal, l: Lock, v: Outcome, k: nat)
    requires CrashOk(d) && SettlingOk(d, j, v, Restore(k))
    ensures Inv(RestoreStep(d, j, l, v, k))
  {
    RestoreFiles(d, RestoreStep(d, j, l, v, k).disk, j, k);
  }

  // A change of control files alone keeps what is recorded about public files and backups.
  lemma RecoverableStays(d: Disk, e: Disk, plan: Plan)
    requires e.live == d.live && e.backup == d.backup
    ensures Recoverable(d, plan) ==> Recoverable(e, plan)
    ensures AllPrior(d, plan) == AllPrior(e, plan) && AllNext(d, plan) == AllNext(e, plan)
  {
    if AllRestorable(d, plan) {
      forall i | 0 <= i < |plan.Transitions()| ensures Restorable(e, plan.Transitions()[i]) {
        assert Restorable(d, plan.Transitions()[i]);
      }
    }
  }

  // The temporary journal is not part of what a crash relies on.
  lemma CrashOkTemp(d: Disk, temp: Option<Journal>)
    requires CrashOk(d)
    ensures CrashOk(d.(temp := temp))
  {
    if d.journal.Some? { RecoverableStays(d, d.(temp := temp), d.journal.value.plan); }
  }

  lemma WriteKeeps(d: Disk, j: Journal, l: Lock, v: Outcome, phase: Phase)
    requires CrashOk(d) && SettlingOk(d, j, v, Write(phase))
    ensures Inv(SettleStep(d, j, l, v, Write(phase)))
  {
    if d.temp.None? {
      var next := j.(phase := phase);
      var e := d.(temp := Some(next));
      CrashOkTemp(d, Some(next));
      RecoverableStays(d, e, j.plan);
      assert SettlingOk(e, j, v, Rename(phase));
      assert SettleStep(d, j, l, v, Write(phase)) == Sys(e, Settling(j, l, v, Rename(phase)));
    }
  }

  lemma RenameRolling(d: Disk, j: Journal, l: Lock, v: Outcome)
    requires CrashOk(d) && SettlingOk(d, j, v, Rename(RollingBack))
    ensures Inv(SettleStep(d, j, l, v, Rename(RollingBack)))
  {
    var next := j.(phase := RollingBack);
    var e := d.(journal := Some(next), temp := None);
    RecoverableStays(d, e, j.plan);
    assert SettleStep(d, j, l, v, Rename(RollingBack)) == Sys(e, Settling(next, l, v, Reverse(|j.plan.Transitions()|)));
  }

  lemma RenameCommitted(d: Disk, j: Journal, l: Lock, v: Outcome)
    requires CrashOk(d) && SettlingOk(d, j, v, Rename(Committed))
    ensures Inv(SettleStep(d, j, l, v, Rename(Committed)))
  {
    var next := j.(phase := Committed);
    var e := d.(journal := Some(next), temp := None);
    RecoverableStays(d, e, j.plan);
    assert SettleStep(d, j, l, v, Rename(Committed)) == Sys(e, Settling(next, l, v, CleanTemp));
  }

  lemma RenameKeeps(d: Disk, j: Journal, l: Lock, v: Outcome, phase: Phase)
    requires CrashOk(d) && SettlingOk(d, j, v, Rename(phase))
    ensures Inv(SettleStep(d, j, l, v, Rename(phase)))
  {
    if phase.RollingBack? { RenameRolling(d, j, l, v); } else { RenameCommitted(d, j, l, v); }
  }

  lemma CleanWorkKeeps(d: Disk, j: Journal, l: Lock, v: Outcome, s: Settlement)
    requires CrashOk(d) && SettlingOk(d, j, v, s) && (s.CleanTemp? || s.CleanWork?)
    ensures Inv(SettleStep(d, j, l, v, s))
  {
    var e := SettleStep(d, j, l, v, s).disk;
    assert e.live == d.live && e.backup == d.backup;
    assert d.backup.Keys == {} ==> d.backup == map[];
  }

  lemma CleanControlKeeps(d: Disk, j: Journal, l: Lock, v: Outcome, s: Settlement)
    requires CrashOk(d) && SettlingOk(d, j, v, s) && (s.CleanLock? || s.CleanJournal?)
    ensures Inv(SettleStep(d, j, l, v, s))
  {
    var e := SettleStep(d, j, l, v, s).disk;
    assert e.live == d.live && e.backup == d.backup;
  }

  lemma SettleKeeps(d: Disk, j: Journal, l: Lock, v: Outcome, s: Settlement)
    requires CrashOk(d) && SettlingOk(d, j, v, s)
    ensures Inv(SettleStep(d, j, l, v, s))
  {
    match s
    case Reverse(k) => ReverseKeeps(d, j, l, v, k);
    case Restore(k) => RestoreKeeps(d, j, l, v, k);
    case CheckPrior => UntouchedIsPrior(d, j.plan);
    case Write(phase) => WriteKeeps(d, j, l, v, phase);
    case Rename(phase) => RenameKeeps(d, j, l, v, phase);
    case CleanTemp => CleanWorkKeeps(d, j, l, v, s);
    case CleanWork => CleanWorkKeeps(d, j, l, v, s);
    case _ => CleanControlKeeps(d, j, l, v, s);
  }

  lemma StartKeeps(s: Sys, e: Event)
    requires Inv(s) && (e.Publish? || e.Recover?)
    ensures Inv(Step(s, e))
  {
  }

  // Taking or reclaiming the lock, where no terminal journal stands behind it.
  lemma RelockKeeps(d: Disk, lock: Option<Lock>)
    requires CrashOk(d) && (lock.None? ==> d.journal.None?)
    ensures CrashOk(d.(lock := lock))
  {
    if d.journal.Some? { RecoverableStays(d, d.(lock := lock), d.journal.value.plan); }
  }

  lemma UnlockedTidy(d: Disk)
    requires CrashOk(d) && d.lock.None?
    ensures Tidy(d)
  {
  }

  lemma ClaimKeeps(d: Disk, plan: Plan, mine: Lock, alive: set<nat>, reclaimed: bool)
    requires CrashOk(d) && Accepted(plan)
    ensures Inv(Claim(d, plan, mine, alive, reclaimed))
  {
    if d.lock.None? {
      UnlockedTidy(d);
      RelockKeeps(d, Some(mine));
      assert Claim(d, plan, mine, alive, reclaimed) == Sys(d.(lock := Some(mine)), Forward(plan, mine, Recheck));
    } else if d.journal.None? {
      RelockKeeps(d, None);
    }
  }

  lemma UnlockKeeps(d: Disk)
    requires CrashOk(d) && Tidy(d)
    ensures CrashOk(d.(lock := None)) && Tidy(d.(lock := None))
  {
    if d.journal.Some? { SameFiles(d, d.(lock := None), d.journal.value.plan, 0); }
  }

  lemma ReleaseKeeps(d: Disk, mine: Lock, why: Failure)
    requires CrashOk(d) && Tidy(d)
    ensures Inv(ReleaseStep(d, mine, why))
  {
    UnlockKeeps(d);
  }

  lemma ActKeeps(s: Sys)
    requires Inv(s)
    ensures Inv(Act(s))
  {
    match s.proc
    case Idle(_) =>
    case Opening(plan, mine, alive, reclaimed) => ClaimKeeps(s.disk, plan, mine, alive, reclaimed);
    case Forward(plan, mine, at) => ForwardKeeps(s.disk, plan, mine, at);
    case Releasing(mine, why) => ReleaseKeeps(s.disk, mine, why);
    case Recovering(j, owner, decision) => RecoverKeeps(s.disk, j, owner, decision);
    case Settling(j, l, v, settlement) => SettleKeeps(s.disk, j, l, v, settlement);
  }

  lemma SweepFileKeeps(s: Sys, path: string)
    requires Inv(s) && Sweeping(s.proc)
    ensures Inv(Step(s, Sweep(path)))
  {
    var plan := if s.proc.Forward? then s.proc.plan else s.proc.journal.plan;
    var e := Step(s, Sweep(path)).disk;
    assert AllPrior(s.disk, plan) ==> AllPrior(e, plan);
    assert AllNext(s.disk, plan) ==> AllNext(e, plan);
  }

  lemma AskKeeps(d: Disk, plan: Plan, mine: Lock, a: Answer)
    requires CrashOk(d) && ForwardOk(d, plan, mine, Ask)
    ensures Inv(Answered(Sys(d, Forward(plan, mine, Ask)), a))
  {
    if a.Yes? {
      assert Answered(Sys(d, Forward(plan, mine, Ask)), a) == Sys(d, Forward(plan, mine, Confirm));
    } else {
      AbortKeeps(d, Forward(plan, mine, Ask), if a.No? then IntendedStateRejected else HostError);
    }
  }

  lemma DecisionKeeps(d: Disk, j: Journal, owner: Option<Lock>, decision: Decision, a: Answer)
    requires CrashOk(d) && RecoveringOk(d, j, owner, decision) && (decision.AskPlan? || decision.AskIntended?)
    ensures Inv(Answered(Sys(d, Recovering(j, owner, decision)), a))
  {
  }

  predicate Asking(p: Proc) {
    (p.Forward? && p.at.Ask?) || (p.Recovering? && (p.decision.AskPlan? || p.decision.AskIntended?))
  }

  lemma NotAsked(s: Sys, a: Answer)
    requires !Asking(s.proc)
    ensures Answered(s, a) == s
  {
  }

  lemma AnswerKeeps(d: Disk, p: Proc, a: Answer)
    requires Inv(Sys(d, p)) && Asking(p)
    ensures Inv(Answered(Sys(d, p), a))
  {
    match p
    case Forward(plan, mine, _) => AskKeeps(d, plan, mine, a);
    case Recovering(j, owner, decision) => DecisionKeeps(d, j, owner, decision, a);
  }

  lemma ReplyKeeps(s: Sys, a: Answer)
    requires Inv(s)
    ensures Inv(Step(s, Reply(a)))
  {
    if Asking(s.proc) { AnswerKeeps(s.disk, s.proc, a); } else { NotAsked(s, a); }
  }

  // The clean-up changes control files only.
  lemma SweepDisk(d: Disk, plan: Plan, mine: Lock, at: Point)
    requires ForwardOk(d, plan, mine, at) && Sweeps(at)
    ensures var e := ForwardStep(d, plan, mine, at).disk;
            && e.live == d.live && e.backup == d.backup
            && e.journal == (if at.SweepJournal? then None else d.journal)
    ensures d.journal.Some? && d.journal.value.plan == plan && BackupsBelong(d, plan) && AllNext(d, plan)
  {
  }

  lemma SweepAborts(d: Disk, e: Disk, plan: Plan, mine: Lock, at: Point)
    requires CrashOk(e) && Sweeps(at) && e.live == d.live && e.backup == d.backup
    requires e.journal.Some? ==> e.journal.value.plan == plan && BackupsBelong(d, plan) && AllNext(d, plan) && AllRestorable(d, plan)
    ensures Inv(Abort(e, Forward(plan, mine, at), FilesystemUnsupported))
  {
    if e.journal.Some? { RecoverableStays(d, e, plan); }
    AbortKeeps(e, Forward(plan, mine, at), FilesystemUnsupported);
  }

  lemma SweepErrorKeeps(d: Disk, plan: Plan, mine: Lock, at: Point, applied: bool)
    requires Inv(Sys(d, Forward(plan, mine, at))) && Sweeps(at)
    requires !(at.SweepJournal? && applied) ==> AllRestorable(d, plan)
    ensures Inv(Step(Sys(d, Forward(plan, mine, at)), IoError(applied)))
  {
    SweepDisk(d, plan, mine, at);
    if applied {
      SweepKeeps(d, plan, mine, at);
      SweepAborts(d, ForwardStep(d, plan, mine, at).disk, plan, mine, at);
    } else {
      SweepAborts(d, d, plan, mine, at);
    }
  }

  predicate Early(at: Point) {
    at == Recheck || at == Draft(Prepared) || at == Seal(Prepared)
  }

  lemma EarlyTidy(d: Disk, plan: Plan, mine: Lock, at: Point)
    requires CrashOk(d) && ForwardOk(d, plan, mine, at) && Early(at)
    ensures Tidy(d) && Tidy(ForwardStep(d, plan, mine, at).disk)
  {
  }

  lemma MovesKeepJournal(d: Disk, plan: Plan, mine: Lock, at: Point)
    requires at.Move? || at.Place?
    ensures ForwardStep(d, plan, mine, at).disk.journal == d.journal
  {
    if at.Move? { assert ForwardStep(d, plan, mine, at) == MoveStep(d, plan, mine, at.index); }
    else { assert ForwardStep(d, plan, mine, at) == PlaceStep(d, plan, mine, at.index); }
  }

  // Before the clean-up, only the final journal rename makes the journal terminal.
  lemma TerminalOnlyAtSeal(d: Disk, plan: Plan, mine: Lock, at: Point)
    requires CrashOk(d) && ForwardOk(d, plan, mine, at) && !Sweeps(at)
    ensures var e := ForwardStep(d, plan, mine, at).disk;
            if Early(at) then Tidy(d) && Tidy(e)
            else d.journal.Some? && !d.journal.value.phase.Committed? && e.journal.Some?
                 && (at != Seal(Committed) ==> !e.journal.value.phase.Committed?)
  {
    if Early(at) { EarlyTidy(d, plan, mine, at); }
    else if at.Move? || at.Place? { MovesKeepJournal(d, plan, mine, at); }
  }

  // The final journal rename leaves the rollback everything it needs.
  lemma SealedRecoverable(d: Disk, plan: Plan, mine: Lock)
    requires CrashOk(d) && ForwardOk(d, plan, mine, Seal(Committed))
    ensures var e := ForwardStep(d, plan, mine, Seal(Committed)).disk;
            e.journal.Some? && e.journal.value.plan == plan && Recoverable(e, plan)
  {
    DoneIsNext(d, plan);
    RecoverableStays(d, ForwardStep(d, plan, mine, Seal(Committed)).disk, plan);
  }

  lemma ForwardErrorKeeps(d: Disk, plan: Plan, mine: Lock, at: Point, applied: bool)
    requires Inv(Sys(d, Forward(plan, mine, at))) && !Sweeps(at)
    ensures Inv(Step(Sys(d, Forward(plan, mine, at)), IoError(applied)))
  {
    var here := Forward(plan, mine, at);
    ForwardKeeps(d, plan, mine, at);
    TerminalOnlyAtSeal(d, plan, mine, at);
    var e := if applied then ForwardStep(d, plan, mine, at).disk else d;
    if at == Seal(Committed) { SealedRecoverable(d, plan, mine); }
    AbortKeeps(e, here, FilesystemUnsupported);
    assert Step(Sys(d, here), IoError(applied)) == Abort(e, here, FilesystemUnsupported);
  }

  // An I/O error may strike before or after the effect of the operation.
  lemma IoErrorKeeps(s: Sys, applied: bool)
    requires Inv(s) && Calm(s, IoError(applied)) && !s.proc.Idle?
    ensures Inv(Step(s, IoError(applied)))
  {
    if s.proc.Forward? {
      if Sweeps(s.proc.at) {
        SweepErrorKeeps(s.disk, s.proc.plan, s.proc.mine, s.proc.at, applied);
      } else {
        ForwardErrorKeeps(s.disk, s.proc.plan, s.proc.mine, s.proc.at, applied);
      }
    } else {
      ActKeeps(s);
    }
  }

  lemma StepKeeps(s: Sys, e: Event)
    requires Inv(s) && Calm(s, e)
    ensures Inv(Step(s, e))
  {
    match e
    case Publish(_, _, _) => StartKeeps(s, e);
    case Recover(_, _) => StartKeeps(s, e);
    case Go => ActKeeps(s);
    case Sweep(path) => if Sweeping(s.proc) { SweepFileKeeps(s, path); }
    case Reply(a) => ReplyKeeps(s, a);
    case Exit =>
    case IoError(applied) => if !s.proc.Idle? { IoErrorKeeps(s, applied); }
    case _ =>
  }

  // Crash atomicity, for every calm run from a fresh project.
  lemma {:induction false} RunKeeps(s: Sys, es: seq<Event>)
    requires Inv(s) && CalmRun(s, es)
    ensures Inv(Run(s, es))
    decreases |es|
  {
    if es != [] {
      StepKeeps(s, es[0]);
      RunKeeps(Step(s, es[0]), es[1..]);
    }
  }
}
