/**
 Outside editors. Bytes that are neither a path's recorded prior nor its recorded next state survive
 every run - publication, rollback, recovery, crashes and I/O errors in any order - unless they arrive
 inside the one window in which the publisher moves that path without looking at it again.
 */
module ArtifactOutside {
  import opened Wrappers
  import opened ArtifactPlan
  import opened ArtifactProtocol
  import opened ArtifactSafety

  // State x at path p is foreign to a plan when the plan did not record it for that path; for a path
  // that the plan does not own, every state - absence included - is foreign.
  predicate Foreign(plan: Plan, p: string, x: FileState) {
    && (x.File? || !PlanPath(plan, p))
    && forall i :: 0 <= i < |plan.Transitions()| && plan.Transitions()[i].path == p ==>
         x != plan.Transitions()[i].prior && x != plan.Transitions()[i].next
  }

  predicate ForeignJournal(j: Option<Journal>, p: string, x: FileState) {
    j.Some? ==> Foreign(j.value.plan, p, x)
  }

  predicate ForeignProc(proc: Proc, p: string, x: FileState) {
    match proc
    case Opening(plan, _, _, _) => Foreign(plan, p, x)
    case Forward(plan, _, _) => Foreign(plan, p, x)
    case Recovering(j, _, _) => Foreign(j.plan, p, x)
    case Settling(j, _, _, _) => Foreign(j.plan, p, x)
    case _ => true
  }

  predicate ForeignEverywhere(s: Sys, p: string, x: FileState) {
    ForeignProc(s.proc, p, x) && ForeignJournal(s.disk.journal, p, x) && ForeignJournal(s.disk.temp, p, x)
  }

  // The events other parties may contribute without touching p themselves.
  predicate LeavesAlone(e: Event, p: string, x: FileState) {
    && (e.EditLive? ==> e.path != p)
    && (e.Publish? ==> Foreign(e.plan, p, x))
  }

  predicate ChangesFrom(plan: Plan, p: string, from: nat) {
    exists i :: from <= i < |plan.Transitions()| && plan.Transitions()[i].path == p && plan.Transitions()[i].Changes()
  }

  // Between the check under the lock and p's own move; and between removal and restoration of p.
  predicate InWindow(proc: Proc, p: string) {
    match proc
    case Forward(plan, _, at) =>
      (match at
       case Draft(phase) => (phase.Prepared? || phase.Publishing?) && ChangesFrom(plan, p, 0)
       case Seal(phase) => (phase.Prepared? || phase.Publishing?) && ChangesFrom(plan, p, 0)
       case Move(i) => ChangesFrom(plan, p, i)
       case Place(i) =>
         (i < |plan.Transitions()| && plan.Transitions()[i].path == p) || ChangesFrom(plan, p, i + 1)
       case _ => false)
    case Settling(j, _, _, Restore(k)) => 0 < k <= |j.plan.Transitions()| && j.plan.Transitions()[k - 1].path == p
    case _ => false
  }

  predicate Shielded(s: Sys, p: string, x: FileState) {
    At(s.disk.live, p) == x && ForeignEverywhere(s, p, x) && !InWindow(s.proc, p)
  }

  lemma AbortShields(d: Disk, proc: Proc, why: Failure, p: string, x: FileState)
    requires At(d.live, p) == x && ForeignEverywhere(Sys(d, proc), p, x)
    ensures Shielded(Abort(d, proc, why), p, x)
  {
  }

  lemma MoveShields(d: Disk, plan: Plan, mine: Lock, i: nat, p: string, x: FileState)
    requires Shielded(Sys(d, Forward(plan, mine, Move(i))), p, x)
    ensures Shielded(MoveStep(d, plan, mine, i), p, x)
  {
    if i < |plan.Transitions()| && plan.Transitions()[i].path == p {
      assert !plan.Transitions()[i].Changes();
    }
    assert ChangesFrom(plan, p, i + 1) ==> ChangesFrom(plan, p, i);
  }

  lemma ForeignBlocksChecks(d: Disk, plan: Plan, p: string, x: FileState)
    requires At(d.live, p) == x && Foreign(plan, p, x) && PlanPath(plan, p)
    ensures !AllPrior(d, plan) && !AllNext(d, plan)
  {
    var i :| 0 <= i < |plan.Transitions()| && plan.Transitions()[i].path == p;
    assert At(d.live, plan.Transitions()[i].path) == x;
  }

  lemma RecheckShields(d: Disk, plan: Plan, mine: Lock, p: string, x: FileState)
    requires Shielded(Sys(d, Forward(plan, mine, Recheck)), p, x)
    ensures Shielded(ForwardStep(d, plan, mine, Recheck), p, x)
  {
    if PlanPath(plan, p) { ForeignBlocksChecks(d, plan, p, x); }
  }

  lemma PlaceShields(d: Disk, plan: Plan, mine: Lock, i: nat, p: string, x: FileState)
    requires Shielded(Sys(d, Forward(plan, mine, Place(i))), p, x)
    ensures Shielded(PlaceStep(d, plan, mine, i), p, x)
  {
  }

  lemma WriteShields(d: Disk, plan: Plan, mine: Lock, at: Point, p: string, x: FileState)
    requires Shielded(Sys(d, Forward(plan, mine, at)), p, x) && (at.Draft? || at.Seal?)
    ensures Shielded(ForwardStep(d, plan, mine, at), p, x)
  {
  }

  lemma ForwardShields(d: Disk, plan: Plan, mine: Lock, at: Point, p: string, x: FileState)
    requires Shielded(Sys(d, Forward(plan, mine, at)), p, x)
    ensures Shielded(ForwardStep(d, plan, mine, at), p, x)
  {
    match at
    case Recheck => RecheckShields(d, plan, mine, p, x);
    case Move(i) => MoveShields(d, plan, mine, i, p, x);
    case Place(i) => PlaceShields(d, plan, mine, i, p, x);
    case Draft(_) => WriteShields(d, plan, mine, at, p, x);
    case Seal(_) => WriteShields(d, plan, mine, at, p, x);
    case _ =>
  }

  lemma ReverseShields(d: Disk, j: Journal, l: Lock, v: Outcome, k: nat, p: string, x: FileState)
    requires Shielded(Sys(d, Settling(j, l, v, Reverse(k))), p, x)
    ensures Shielded(ReverseStep(d, j, l, v, k), p, x)
  {
    if 0 < k <= |j.plan.Transitions()| && j.plan.Transitions()[k - 1].path == p {
      assert x != j.plan.Transitions()[k - 1].next || x.Absent?;
    }
  }

  lemma RestoreShields(d: Disk, j: Journal, l: Lock, v: Outcome, k: nat, p: string, x: FileState)
    requires Shielded(Sys(d, Settling(j, l, v, Restore(k))), p, x)
    ensures Shielded(RestoreStep(d, j, l, v, k), p, x)
  {
  }

  lemma ControlShields(d: Disk, j: Journal, l: Lock, v: Outcome, settlement: Settlement, p: string, x: FileState)
    requires Shielded(Sys(d, Settling(j, l, v, settlement)), p, x) && !settlement.Reverse? && !settlement.Restore?
    ensures Shielded(SettleStep(d, j, l, v, settlement), p, x)
  {
  }

  lemma SettleShields(s: Sys, p: string, x: FileState)
    requires Shielded(s, p, x) && s.proc.Settling?
    ensures Shielded(Act(s), p, x)
  {
    var j, l, v := s.proc.journal, s.proc.holder, s.proc.verdict;
    match s.proc.settlement
    case Reverse(k) => ReverseShields(s.disk, j, l, v, k, p, x);
    case Restore(k) => RestoreShields(s.disk, j, l, v, k, p, x);
    case _ => ControlShields(s.disk, j, l, v, s.proc.settlement, p, x);
  }

  lemma ActShields(s: Sys, p: string, x: FileState)
    requires Shielded(s, p, x)
    ensures Shielded(Act(s), p, x)
  {
    match s.proc
    case Forward(plan, mine, at) => ForwardShields(s.disk, plan, mine, at, p, x);
    case Settling(_, _, _, _) => SettleShields(s, p, x);
    case Recovering(_, _, _) =>
    case _ =>
  }

  lemma ErrorShields(s: Sys, applied: bool, p: string, x: FileState)
    requires Shielded(s, p, x) && !s.proc.Idle?
    ensures Shielded(Step(s, IoError(applied)), p, x)
  {
    ActShields(s, p, x);
    var d := if applied then Act(s).disk else s.disk;
    assert ForeignEverywhere(Sys(d, s.proc), p, x);
    AbortShields(d, s.proc, FilesystemUnsupported, p, x);
  }

  lemma AskShields(s: Sys, a: Answer, p: string, x: FileState)
    requires Shielded(s, p, x) && s.proc.Forward? && s.proc.at.Ask?
    ensures Shielded(Answered(s, a), p, x)
  {
    if a.Yes? {
      assert Answered(s, a) == s.(proc := Forward(s.proc.plan, s.proc.mine, Confirm));
    } else {
      AbortShields(s.disk, s.proc, if a.No? then IntendedStateRejected else HostError, p, x);
    }
  }

  lemma DecisionShields(s: Sys, a: Answer, p: string, x: FileState)
    requires Shielded(s, p, x) && s.proc.Recovering?
    ensures Shielded(Answered(s, a), p, x)
  {
  }

  lemma ReplyShields(s: Sys, a: Answer, p: string, x: FileState)
    requires Shielded(s, p, x)
    ensures Shielded(Step(s, Reply(a)), p, x)
  {
    if !Asking(s.proc) { NotAsked(s, a); }
    else if s.proc.Forward? { AskShields(s, a, p, x); }
    else { DecisionShields(s, a, p, x); }
  }

  lemma StepShields(s: Sys, e: Event, p: string, x: FileState)
    requires Shielded(s, p, x) && LeavesAlone(e, p, x)
    ensures Shielded(Step(s, e), p, x)
  {
    match e
    case Go => ActShields(s, p, x);
    case IoError(applied) => if !s.proc.Idle? { ErrorShields(s, applied, p, x); }
    case Reply(a) => ReplyShields(s, a, p, x);
    case _ =>
  }

  // No lost outside bytes, for every run: any publications of plans that did not record x for p, any
  // recoveries, crashes, I/O errors (clean-up included) and host answers, and edits of other paths.
  lemma {:induction false} OutsideBytesSurvive(s: Sys, es: seq<Event>, p: string, x: FileState)
    requires Shielded(s, p, x)
    requires forall i :: 0 <= i < |es| ==> LeavesAlone(es[i], p, x)
    ensures Shielded(Run(s, es), p, x) && At(Run(s, es).disk.live, p) == x
    decreases |es|
  {
    if es != [] {
      StepShields(s, es[0], p, x);
      OutsideBytesSurvive(Step(s, es[0]), es[1..], p, x);
    }
  }

  // ---- Such a state is never accepted -----------------------------------------------------------

  predicate JournalUndecided(j: Option<Journal>, p: string) {
    j.Some? && PlanPath(j.value.plan, p) ==> !j.value.phase.Committed?
  }

  // No transaction that owns p has passed its final re-read.
  predicate Undecided(s: Sys, p: string) {
    && JournalUndecided(s.disk.journal, p) && JournalUndecided(s.disk.temp, p)
    && match s.proc
       case Idle(PublishedPlan(plan)) => !PlanPath(plan, p)
       case Idle(CommittedPlan(plan)) => !PlanPath(plan, p)
       case Idle(RolledBack(plan)) => !PlanPath(plan, p)
       case Forward(plan, _, at) =>
         PlanPath(plan, p) ==> at != Draft(Committed) && at != Seal(Committed) && !Sweeps(at)
       case Recovering(j, _, decision) =>
         PlanPath(j.plan, p) ==> !j.phase.Committed? && !decision.DropJournal?
       case Settling(j, _, v, settlement) =>
         && (PlanPath(j.plan, p) ==>
               !j.phase.Committed? && BeforeTerminal(settlement))
         && (v == RolledBack(j.plan) || v == CommittedPlan(j.plan) || v.Failed?)
       case _ => true
  }

  predicate BeforeTerminal(settlement: Settlement) {
    settlement == Write(RollingBack) || settlement == Rename(RollingBack)
    || settlement.Reverse? || settlement.Restore? || settlement.CheckPrior?
  }

  // ConfirmIntended and Confirm re-read every live file, so a foreign p stops both.
  lemma MovesUndecided(d: Disk, plan: Plan, mine: Lock, at: Point, p: string)
    requires Undecided(Sys(d, Forward(plan, mine, at)), p) && (at.Move? || at.Place?)
    ensures Undecided(ForwardStep(d, plan, mine, at), p)
  {
    if at.Move? { assert Undecided(MoveStep(d, plan, mine, at.index), p); }
    else { assert Undecided(PlaceStep(d, plan, mine, at.index), p); }
  }

  lemma WritesUndecided(d: Disk, plan: Plan, mine: Lock, at: Point, p: string)
    requires Undecided(Sys(d, Forward(plan, mine, at)), p) && (at.Draft? || at.Seal?)
    ensures Undecided(ForwardStep(d, plan, mine, at), p)
  {
  }

  lemma ForwardUndecided(d: Disk, plan: Plan, mine: Lock, at: Point, p: string, x: FileState)
    requires At(d.live, p) == x && Foreign(plan, p, x) && Undecided(Sys(d, Forward(plan, mine, at)), p)
    ensures Undecided(ForwardStep(d, plan, mine, at), p)
  {
    if at.Move? || at.Place? {
      MovesUndecided(d, plan, mine, at, p);
    } else if at.Draft? || at.Seal? {
      WritesUndecided(d, plan, mine, at, p);
    } else if PlanPath(plan, p) {
      ForeignBlocksChecks(d, plan, p, x);
    }
  }

  // Recovery keeps to the plan of its journal, and changes at most the journal itself.
  lemma RecoveryKeepsPlan(s: Sys)
    requires s.proc.Recovering?
    ensures Act(s).disk.temp == s.disk.temp && (Act(s).disk.journal == s.disk.journal || Act(s).disk.journal.None?)
    ensures match Act(s).proc
            case Idle(o) => o.Failed? || o == CommittedPlan(s.proc.saved.plan) || o == RolledBack(s.proc.saved.plan)
            case Recovering(j, _, _) => j == s.proc.saved
            case Settling(j, _, v, _) => j == s.proc.saved && (v == CommittedPlan(j.plan) || v == RolledBack(j.plan))
            case _ => false
  {
  }

  lemma OthersRecovery(s: Sys, p: string)
    requires Undecided(s, p) && s.proc.Recovering? && !PlanPath(s.proc.saved.plan, p)
    ensures Undecided(Act(s), p)
  {
    RecoveryKeepsPlan(s);
  }

  lemma OwnRecovery(s: Sys, p: string)
    requires Undecided(s, p) && s.proc.Recovering? && PlanPath(s.proc.saved.plan, p)
    requires !AllPrior(s.disk, s.proc.saved.plan) && !AllNext(s.disk, s.proc.saved.plan)
    ensures Undecided(Act(s), p)
  {
  }

  lemma RecoverUndecided(s: Sys, p: string, x: FileState)
    requires Shielded(s, p, x) && Undecided(s, p) && s.proc.Recovering?
    ensures Undecided(Act(s), p)
  {
    if PlanPath(s.proc.saved.plan, p) {
      ForeignBlocksChecks(s.disk, s.proc.saved.plan, p, x);
      OwnRecovery(s, p);
    } else {
      OthersRecovery(s, p);
    }
  }

  lemma UndoUndecided(d: Disk, j: Journal, l: Lock, v: Outcome, settlement: Settlement, p: string)
    requires Undecided(Sys(d, Settling(j, l, v, settlement)), p) && (settlement.Reverse? || settlement.Restore?)
    ensures Undecided(SettleStep(d, j, l, v, settlement), p)
  {
    if settlement.Reverse? { assert Undecided(ReverseStep(d, j, l, v, settlement.remaining), p); }
    else { assert Undecided(RestoreStep(d, j, l, v, settlement.remaining), p); }
  }

  lemma SettleUndecided(d: Disk, j: Journal, l: Lock, v: Outcome, settlement: Settlement, p: string, x: FileState)
    requires At(d.live, p) == x && Foreign(j.plan, p, x) && Undecided(Sys(d, Settling(j, l, v, settlement)), p)
    ensures Undecided(SettleStep(d, j, l, v, settlement), p)
  {
    if settlement.Reverse? || settlement.Restore? {
      UndoUndecided(d, j, l, v, settlement, p);
    } else if PlanPath(j.plan, p) {
      ForeignBlocksChecks(d, j.plan, p, x);
    }
  }

  lemma ActUndecided(s: Sys, p: string, x: FileState)
    requires Shielded(s, p, x) && Undecided(s, p)
    ensures Undecided(Act(s), p)
  {
    match s.proc
    case Forward(plan, mine, at) => ForwardUndecided(s.disk, plan, mine, at, p, x);
    case Recovering(_, _, _) => RecoverUndecided(s, p, x);
    case Settling(j, l, v, settlement) => SettleUndecided(s.disk, j, l, v, settlement, p, x);
    case _ =>
  }

  // ---- The control record stays -------------------------------------------------------------------

  predicate JournalOf(j: Option<Journal>, plan: Plan) {
    j.Some? && j.value.plan == plan
  }

  // Whoever rewrites the journal rewrites the journal of its own plan.
  predicate Owned(s: Sys) {
    match s.proc
    case Forward(plan, _, at) =>
      && (at.Seal? ==> JournalOf(s.disk.temp, plan))
      && (if at == Recheck || at == Draft(Prepared) then true
          else if at == Seal(Prepared) then s.disk.journal.None?
          else JournalOf(s.disk.journal, plan))
    case Settling(j, _, _, settlement) =>
      JournalOf(s.disk.journal, j.plan) && (settlement.Rename? ==> JournalOf(s.disk.temp, j.plan))
    case Recovering(j, owner, decision) =>
      owner.Some? ==> JournalOf(s.disk.journal, j.plan)
    case _ => true
  }

  lemma ActOwned(s: Sys)
    requires Owned(s)
    ensures Owned(Act(s))
  {
    match s.proc
    case Forward(_, _, at) => if at.Move? || at.Place? { MovesOwned(s); } else { ForwardOwned(s); }
    case Settling(_, _, _, _) => SettleOwned(s);
    case _ =>
  }

  lemma MovesOwned(s: Sys)
    requires Owned(s) && s.proc.Forward? && (s.proc.at.Move? || s.proc.at.Place?)
    ensures Owned(Act(s)) && Act(s).disk.journal == s.disk.journal
  {
    if s.proc.at.Move? { assert Owned(MoveStep(s.disk, s.proc.plan, s.proc.mine, s.proc.at.index)); }
    else { assert Owned(PlaceStep(s.disk, s.proc.plan, s.proc.mine, s.proc.at.index)); }
  }

  lemma ForwardOwned(s: Sys)
    requires Owned(s) && s.proc.Forward? && !s.proc.at.Move? && !s.proc.at.Place?
    ensures Owned(Act(s))
  {
  }

  lemma SettleOwned(s: Sys)
    requires Owned(s) && s.proc.Settling?
    ensures Owned(Act(s))
  {
  }

  lemma StepOwned(s: Sys, e: Event)
    requires Owned(s)
    ensures Owned(Step(s, e))
  {
    ActOwned(s);
  }

  lemma ActJournalStays(s: Sys, p: string)
    requires Owned(s) && Undecided(s, p) && s.disk.journal.Some? && PlanPath(s.disk.journal.value.plan, p)
    ensures JournalOf(Act(s).disk.journal, s.disk.journal.value.plan)
  {
    if s.proc.Forward? && (s.proc.at.Move? || s.proc.at.Place?) { MovesOwned(s); }
  }

  lemma JournalStays(s: Sys, e: Event, p: string)
    requires Owned(s) && Undecided(s, p) && s.disk.journal.Some? && PlanPath(s.disk.journal.value.plan, p)
    ensures JournalOf(Step(s, e).disk.journal, s.disk.journal.value.plan)
  {
    ActJournalStays(s, p);
  }

  // An outside edit of a path that a journaled transaction owns, present before the final re-read and
  // outside the window, is never recorded as accepted: for every continuation the live bytes stay, no
  // invocation reports success for that plan, and the control record of the plan is preserved.
  lemma {:induction false} OutsideEditNeverAccepted(s: Sys, es: seq<Event>, p: string, x: FileState)
    requires Shielded(s, p, x) && Undecided(s, p) && Owned(s)
    requires s.disk.journal.Some? && PlanPath(s.disk.journal.value.plan, p)
    requires forall i :: 0 <= i < |es| ==> LeavesAlone(es[i], p, x)
    ensures var f := Run(s, es);
            && At(f.disk.live, p) == x && Undecided(f, p)
            && f.disk.journal.Some? && f.disk.journal.value.plan == s.disk.journal.value.plan
            && !f.disk.journal.value.phase.Committed?
    decreases |es|
  {
    if es != [] {
      var f := Step(s, es[0]);
      StepShields(s, es[0], p, x);
      StepUndecided(s, es[0], p, x);
      StepOwned(s, es[0]);
      JournalStays(s, es[0], p);
      OutsideEditNeverAccepted(f, es[1..], p, x);
    }
  }

  lemma AbortUndecided(d: Disk, proc: Proc, why: Failure, p: string)
    requires Undecided(Sys(d, proc), p)
    ensures Undecided(Abort(d, proc, why), p)
  {
  }

  lemma ReplyUndecided(s: Sys, a: Answer, p: string)
    requires Undecided(s, p)
    ensures Undecided(Step(s, Reply(a)), p)
  {
  }

  lemma ErrorUndecided(s: Sys, applied: bool, p: string, x: FileState)
    requires Shielded(s, p, x) && Undecided(s, p) && !s.proc.Idle?
    ensures Undecided(Step(s, IoError(applied)), p)
  {
    ActUndecided(s, p, x);
    var d := if applied then Act(s).disk else s.disk;
    assert Undecided(Sys(d, s.proc), p);
    AbortUndecided(d, s.proc, FilesystemUnsupported, p);
  }

  lemma StepUndecided(s: Sys, e: Event, p: string, x: FileState)
    requires Shielded(s, p, x) && Undecided(s, p)
    ensures Undecided(Step(s, e), p)
  {
    match e
    case Go => ActUndecided(s, p, x);
    case Reply(a) => ReplyUndecided(s, a, p);
    case IoError(applied) => if !s.proc.Idle? { ErrorUndecided(s, applied, p, x); }
    case _ =>
  }

  // ---- The window is exact ------------------------------------------------------------------------

  // The three operations that move a file onto or away from p without looking at p again.
  predicate MovesBlindly(s: Sys, p: string) {
    match s.proc
    case Forward(plan, _, Move(i)) =>
      i < |plan.Transitions()| && (var t := plan.Transitions()[i]; t.path == p && t.Changes() && t.prior.File?)
    case Forward(plan, _, Place(i)) =>
      i < |plan.Transitions()| && (var t := plan.Transitions()[i];
        t.path == p && t.next.File? && t.stagedPath.Some?
        && At(s.disk.stage, t.stagedPath.value) != At(s.disk.live, p) && At(s.disk.stage, t.stagedPath.value).File?)
    case Settling(j, _, _, Restore(k)) =>
      0 < k <= |j.plan.Transitions()| && j.plan.Transitions()[k - 1].path == p
      && At(s.disk.backup, p).File? && At(s.disk.backup, p) != At(s.disk.live, p)
    case _ => false
  }

  // In every state whatsoever, foreign bytes leave p exactly when such an operation takes effect.
  lemma DisplacedExactly(s: Sys, e: Event, p: string, x: FileState)
    requires At(s.disk.live, p) == x && x.File? && ForeignEverywhere(s, p, x)
    requires e.EditLive? ==> e.path != p
    ensures At(Step(s, e).disk.live, p) != x <==> MovesBlindly(s, p) && (e == Go || e == IoError(true))
  {
    DisplacedByAct(s, p, x);
  }

  lemma DisplacedForward(s: Sys, p: string, x: FileState)
    requires At(s.disk.live, p) == x && x.File? && ForeignEverywhere(s, p, x) && s.proc.Forward?
    ensures At(Act(s).disk.live, p) != x <==> MovesBlindly(s, p)
  {
    if s.proc.at.Move? { assert Act(s) == MoveStep(s.disk, s.proc.plan, s.proc.mine, s.proc.at.index); }
    else if s.proc.at.Place? { assert Act(s) == PlaceStep(s.disk, s.proc.plan, s.proc.mine, s.proc.at.index); }
  }

  lemma DisplacedSettling(s: Sys, p: string, x: FileState)
    requires At(s.disk.live, p) == x && x.File? && ForeignEverywhere(s, p, x) && s.proc.Settling?
    ensures At(Act(s).disk.live, p) != x <==> MovesBlindly(s, p)
  {
    var settlement := s.proc.settlement;
    if settlement.Reverse? {
      assert Act(s) == ReverseStep(s.disk, s.proc.journal, s.proc.holder, s.proc.verdict, settlement.remaining);
    } else if settlement.Restore? {
      assert Act(s) == RestoreStep(s.disk, s.proc.journal, s.proc.holder, s.proc.verdict, settlement.remaining);
    }
  }

  lemma DisplacedByAct(s: Sys, p: string, x: FileState)
    requires At(s.disk.live, p) == x && x.File? && ForeignEverywhere(s, p, x)
    ensures At(Act(s).disk.live, p) != x <==> MovesBlindly(s, p)
  {
    match s.proc
    case Forward(_, _, _) => DisplacedForward(s, p, x);
    case Settling(_, _, _, _) => DisplacedSettling(s, p, x);
    case _ =>
  }
}
