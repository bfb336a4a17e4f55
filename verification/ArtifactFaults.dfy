/**
 One fault in a publication that is otherwise left alone: an I/O error, with or without its effect, or a
 host that refuses. What the call leaves behind, exactly, from the fault to the end of the call.
 */
module ArtifactFaults {
  import opened Wrappers
  import opened ArtifactPlan
  import opened ArtifactProtocol
  import opened ArtifactSafety
  import opened ArtifactNesting
  import opened ArtifactRecovery
  import opened ArtifactTheorems

  // ---- A fault that leaves every backup in place ------------------------------------------------------

  // The end of a publication call after its rollback has begun.
  predicate RolledOut(f: Sys, g: Sys)
    requires f.proc.Settling?
  {
    var plan := f.proc.journal.plan;
    if f.disk.temp.Some? then g == Sys(f.disk, Idle(Failed(ControlPathCollision)))
    else Settled(g, plan, f.proc.verdict, f.disk.lock.Some?)
  }

  lemma RollbackEnds(f: Sys) returns (es: seq<Event>)
    requires Inv(f) && f.proc.Settling? && f.proc.settlement == Write(RollingBack) && Reads(f, f.proc.journal.plan)
    requires f.disk.lock == Some(f.proc.holder) || f.disk.lock.None?
    ensures Undisturbed(es) && CalmRun(f, es) && RolledOut(f, Run(f, es))
  {
    es := FinishIsRun(f, Yes, Yes);
    if f.disk.temp.Some? {
      var g := Unfold(f, Yes, Yes);
    } else {
      SettleCompletes(f, Yes, Yes);
    }
  }

  // Up to the clean-up, and in it while every backup is there: a publication that is rejected or fails, and
  // is left alone afterwards, ends with exactly the prior tree and no control state if and only if the
  // fault did not strike between writing and renaming the journal and the lock is still there.
  lemma PublicationFaultExact(s: Sys, e: Event) returns (es: seq<Event>)
    requires Inv(s) && Calm(s, e) && s.proc.Forward? && Reads(s, s.proc.plan)
    requires (e.IoError? || e.Reply?) && Step(s, e).proc.Settling?
    ensures Undisturbed(es) && CalmRun(Step(s, e), es) && RolledOut(Step(s, e), Run(Step(s, e), es))
    ensures var f, g := Step(s, e), Run(Step(s, e), es);
            && g.proc.Idle? && g.proc.last.Failed?
            && (AllPrior(g.disk, s.proc.plan) && ControlGone(g.disk) <==> f.disk.temp.None? && f.disk.lock.Some?)
  {
    StepKeeps(s, e);
    StepReads(s, e, s.proc.plan);
    FaultHolder(s, e);
    es := RollbackEnds(Step(s, e));
  }

  // A journaled publication of this plan, whatever its phase.
  predicate Underway(d: Disk, plan: Plan, mine: Lock) {
    && (d.lock == Some(mine) || d.lock.None?)
    && (d.journal.Some? ==> d.journal.value.plan == plan && !d.journal.value.phase.RollingBack?)
  }

  predicate Journaled(at: Point) {
    !Early(at)
  }

  lemma ForwardUnder(s: Sys)
    requires Inv(s) && s.proc.Forward? && Journaled(s.proc.at)
    ensures Underway(s.disk, s.proc.plan, s.proc.mine)
    ensures s.proc.at.Seal? ==> s.disk.temp.Some? ==> s.disk.temp.value.plan == s.proc.plan && !s.disk.temp.value.phase.RollingBack?
  {
  }

  lemma ActUnder(s: Sys)
    requires s.proc.Forward? && Underway(s.disk, s.proc.plan, s.proc.mine)
    requires s.proc.at.Seal? ==> s.disk.temp.Some? ==> s.disk.temp.value.plan == s.proc.plan && !s.disk.temp.value.phase.RollingBack?
    ensures Underway(Act(s).disk, s.proc.plan, s.proc.mine)
  {
    if s.proc.at.Move? {
      assert Act(s) == MoveStep(s.disk, s.proc.plan, s.proc.mine, s.proc.at.index);
    } else if s.proc.at.Place? {
      assert Act(s) == PlaceStep(s.disk, s.proc.plan, s.proc.mine, s.proc.at.index);
    }
  }

  predicate RollbackStarts(f: Sys, plan: Plan, mine: Lock) {
    && f.proc.Settling? && f.proc.settlement == Write(RollingBack) && f.proc.verdict.Failed?
    && f.proc.journal.plan == plan && f.disk.journal.Some? && f.proc.holder == mine
    && (f.disk.lock == Some(mine) || f.disk.lock.None?)
  }

  lemma AbortUnder(d: Disk, plan: Plan, mine: Lock, at: Point, why: Failure)
    requires Underway(d, plan, mine) && Abort(d, Forward(plan, mine, at), why).proc.Settling?
    ensures RollbackStarts(Abort(d, Forward(plan, mine, at), why), plan, mine)
  {
  }

  lemma FaultHolder(s: Sys, e: Event)
    requires Inv(s) && s.proc.Forward? && (e.IoError? || e.Reply?) && Step(s, e).proc.Settling?
    ensures RollbackStarts(Step(s, e), s.proc.plan, s.proc.mine)
  {
    var plan, mine, at := s.proc.plan, s.proc.mine, s.proc.at;
    assert Journaled(at);
    ForwardUnder(s);
    if e.Reply? {
      AbortUnder(s.disk, plan, mine, at, if e.answer.No? then IntendedStateRejected else HostError);
    } else {
      ActUnder(s);
      AbortUnder(if e.applied then Act(s).disk else s.disk, plan, mine, at, FilesystemUnsupported);
    }
  }

  // ---- The backward pass on any disk -----------------------------------------------------------------

  // What rollbackTransition accepts for one transition.
  predicate Undoable(d: Disk, t: Transition) {
    if t.Changes() then Restorable(d, t) else At(d.live, t.path) == t.prior
  }

  function Goes(n: nat): seq<Event>
    decreases n
  {
    if n == 0 then [] else [Go] + Goes(n - 1)
  }

  lemma OneGo(s: Sys, n: nat)
    ensures Run(s, Goes(n + 1)) == Run(Act(s), Goes(n))
  {
    assert Goes(n + 1)[0] == Go && Goes(n + 1)[1..] == Goes(n);
  }

  lemma UndoOne(d: Disk, j: Journal, l: Lock, v: Outcome, k: nat) returns (m: nat, f: Sys)
    requires 0 < k <= |j.plan.Transitions()|
    ensures f == Run(Sys(d, Settling(j, l, v, Reverse(k))), Goes(m))
    ensures f.disk.temp == d.temp && f.disk.journal == d.journal && f.disk.lock == d.lock
    ensures var t := j.plan.Transitions()[k - 1];
            && (Undoable(d, t) ==> f.proc == Settling(j, l, v, Reverse(k - 1)) && At(f.disk.live, t.path) == t.prior)
            && (!Undoable(d, t) ==> f.proc == Idle(Failed(RecoveryConflict)) && f.disk == d)
            && forall q :: q != t.path ==> At(f.disk.live, q) == At(d.live, q) && At(f.disk.backup, q) == At(d.backup, q)
  {
    var s := Sys(d, Settling(j, l, v, Reverse(k)));
    var s1 := ReverseStep(d, j, l, v, k);
    assert Act(s) == s1;
    m, f := 1, s1;
    OneGo(s, 0);
    if s1.proc.Settling? && s1.proc.settlement.Restore? {
      m, f := 2, RestoreStep(s1.disk, j, l, v, k);
      OneGo(s, 1);
      OneGo(s1, 0);
    }
  }

  lemma {:induction false} GoesAppend(m: nat, n: nat)
    ensures Goes(m + n) == Goes(m) + Goes(n)
    decreases m
  {
    if m > 0 {
      GoesAppend(m - 1, n);
      assert [Go] + (Goes(m - 1) + Goes(n)) == ([Go] + Goes(m - 1)) + Goes(n);
    } else {
      assert Goes(0) + Goes(n) == Goes(n);
    }
  }

  // On any disk at all, the backward pass over k transitions succeeds if and only if each of them is
  // undoable; then all of them are exactly prior, and otherwise the pass stops with a conflict.
  lemma {:induction false} UnwindExact(d: Disk, j: Journal, l: Lock, v: Outcome, k: nat) returns (n: nat, f: Sys)
    requires Accepted(j.plan) && k <= |j.plan.Transitions()|
    ensures f == Run(Sys(d, Settling(j, l, v, Reverse(k))), Goes(n))
    ensures f.disk.temp == d.temp && f.disk.journal == d.journal && f.disk.lock == d.lock
    ensures (forall i :: 0 <= i < k ==> Undoable(d, j.plan.Transitions()[i])) <==> f.proc == Settling(j, l, v, Reverse(0))
    ensures f.proc == Settling(j, l, v, Reverse(0)) || f.proc == Idle(Failed(RecoveryConflict))
    ensures f.proc.Settling? ==> forall i :: 0 <= i < k ==>
              At(f.disk.live, j.plan.Transitions()[i].path) == j.plan.Transitions()[i].prior
    ensures forall i :: 0 <= i < |j.plan.Transitions()| && (i >= k || !Undoable(d, j.plan.Transitions()[i])) ==>
              At(f.disk.live, j.plan.Transitions()[i].path) == At(d.live, j.plan.Transitions()[i].path)
    decreases k
  {
    var ts := j.plan.Transitions();
    if k == 0 {
      n, f := 0, Sys(d, Settling(j, l, v, Reverse(k)));
    } else {
      var m, s := UndoOne(d, j, l, v, k);
      if !Undoable(d, ts[k - 1]) {
        n, f := m, s;
      } else {
        UndoableElsewhere(d, s.disk, j.plan, k - 1);
        var n', f' := UnwindExact(s.disk, j, l, v, k - 1);
        n, f := m + n', f';
        GoesAppend(m, n');
        RunAppend(Sys(d, Settling(j, l, v, Reverse(k))), Goes(m), Goes(n'));
      }
    }
  }

  lemma UndoableElsewhere(d: Disk, e: Disk, plan: Plan, k: nat)
    requires Accepted(plan) && k < |plan.Transitions()|
    requires forall q :: q != plan.Transitions()[k].path ==> At(e.live, q) == At(d.live, q) && At(e.backup, q) == At(d.backup, q)
    ensures forall i :: 0 <= i < |plan.Transitions()| && i != k ==>
              (Undoable(e, plan.Transitions()[i]) <==> Undoable(d, plan.Transitions()[i]))
              && At(e.live, plan.Transitions()[i].path) == At(d.live, plan.Transitions()[i].path)
  {
    forall i | 0 <= i < |plan.Transitions()| && i != k
      ensures At(e.live, plan.Transitions()[i].path) == At(d.live, plan.Transitions()[i].path)
      ensures At(e.backup, plan.Transitions()[i].path) == At(d.backup, plan.Transitions()[i].path) {
      assert plan.Transitions()[i].path != plan.Transitions()[k].path;
    }
  }

  // ---- A fault in the clean-up ------------------------------------------------------------------------

  // The lock that a fault in the clean-up leaves on disk.
  function LockAfter(s: Sys, applied: bool): Option<Lock>
    requires s.proc.Forward?
  {
    if s.proc.at.SweepJournal? || (s.proc.at.SweepLock? && applied) then None else Some(s.proc.mine)
  }

  // The decision is durable and every public file is at its next state; only backups, lock and journal go.
  predicate Cleaning(s: Sys) {
    Inv(s) && s.proc.Forward? && Sweeps(s.proc.at)
  }

  lemma CleanupFault(s: Sys, applied: bool)
    requires Cleaning(s) && !(s.proc.at.SweepJournal? && applied)
    ensures var f, j := Step(s, IoError(applied)), Journal(s.proc.plan, s.proc.mine.transaction, Committed);
            f == Sys(s.disk.(lock := LockAfter(s, applied)),
                     Settling(j, s.proc.mine, Failed(FilesystemUnsupported), Write(RollingBack)))
            && s.disk.journal == Some(j) && s.disk.temp.None?
  {
    assert s.proc.at.SweepWork? ==> Act(s).disk == s.disk;
  }

  // In a complete tree the restorable transitions are those whose backup is still there.
  predicate BackupsIntact(d: Disk, plan: Plan) {
    forall i :: 0 <= i < |plan.Transitions()| && plan.Transitions()[i].Changes() ==>
      At(d.backup, plan.Transitions()[i].path) == plan.Transitions()[i].prior
  }

  lemma UnchangedUnsaved(d: Disk, plan: Plan, i: nat)
    requires Accepted(plan) && BackupsBelong(d, plan) && i < |plan.Transitions()| && !plan.Transitions()[i].Changes()
    ensures At(d.backup, plan.Transitions()[i].path).Absent?
  {
    var ts := plan.Transitions();
    forall k | 0 <= k < |ts| && ts[k].path == ts[i].path ensures k == i {}
  }

  lemma IntactIffRestorable(d: Disk, plan: Plan)
    requires Accepted(plan) && AllNext(d, plan) && BackupsBelong(d, plan)
    ensures BackupsIntact(d, plan) <==> AllRestorable(d, plan)
    ensures BackupsIntact(d, plan) <==> forall i :: 0 <= i < |plan.Transitions()| ==> Undoable(d, plan.Transitions()[i])
  {
    var ts := plan.Transitions();
    forall i | 0 <= i < |ts|
      ensures Restorable(d, ts[i]) <==> (ts[i].Changes() ==> At(d.backup, ts[i].path) == ts[i].prior)
      ensures Undoable(d, ts[i]) <==> (ts[i].Changes() ==> At(d.backup, ts[i].path) == ts[i].prior) {
      if !ts[i].Changes() { UnchangedUnsaved(d, plan, i); }
    }
  }

  // How the call ends.
  predicate CleanupEnds(s: Sys, applied: bool, g: Sys)
    requires s.proc.Forward?
  {
    var plan := s.proc.plan;
    if s.proc.at.SweepJournal? && applied then
      g.proc == Idle(Failed(FilesystemUnsupported)) && AllNext(g.disk, plan) && ControlGone(g.disk)
    else if BackupsIntact(s.disk, plan) then
      && AllPrior(g.disk, plan) && g.disk.backup == map[] && g.disk.lock.None?
      && (if LockAfter(s, applied).Some? then g.proc == Idle(Failed(FilesystemUnsupported)) && g.disk.journal.None?
          else g.proc == Idle(Failed(OrphanControlState)) && g.disk.journal.Some? && g.disk.journal.value.phase.Committed?)
    else
      && g.proc == Idle(Failed(RecoveryConflict)) && !AllPrior(g.disk, plan)
      && g.disk.journal == Some(Journal(plan, s.proc.mine.transaction, RollingBack)) && g.disk.temp.None?
      && g.disk.lock == LockAfter(s, applied)
  }

  // An I/O error at any operation of the clean-up, with or without its effect, makes the publisher roll back a
  // complete generation, unless the journal itself was just removed. Left alone afterwards, the call restores
  // exactly the prior tree if and only if no needed backup was gone, and its control state is gone if and
  // only if the lock was still there.
  lemma CleanupErrorExact(s: Sys, applied: bool) returns (es: seq<Event>)
    requires Cleaning(s) && Reads(s, s.proc.plan)
    ensures Undisturbed(es) && CleanupEnds(s, applied, Run(Step(s, IoError(applied)), es))
    ensures Calm(s, IoError(applied)) ==> CalmRun(Step(s, IoError(applied)), es)
  {
    if s.proc.at.SweepJournal? && applied {
      es := [];
    } else {
      CleanupFault(s, applied);
      IntactIffRestorable(s.disk, s.proc.plan);
      if BackupsIntact(s.disk, s.proc.plan) {
        es := PublicationFaultExact(s, IoError(applied));
      } else {
        es := CleanupConflicts(s, applied);
      }
    }
  }

  // The rollback of a complete generation, from its first journal write to the backward pass.
  function Unwinding(s: Sys, applied: bool): Sys
    requires s.proc.Forward?
  {
    var j := Journal(s.proc.plan, s.proc.mine.transaction, RollingBack);
    Sys(s.disk.(journal := Some(j), lock := LockAfter(s, applied)),
        Settling(j, s.proc.mine, Failed(FilesystemUnsupported), Reverse(|s.proc.plan.Transitions()|)))
  }

  lemma UnwindingStarts(s: Sys, applied: bool)
    requires Cleaning(s) && !(s.proc.at.SweepJournal? && applied)
    ensures Run(Step(s, IoError(applied)), [Go, Go]) == Unwinding(s, applied)
  {
    CleanupFault(s, applied);
    var f := Step(s, IoError(applied));
    assert [Go, Go][1..] == [Go] && [Go][1..] == [];
    assert Run(f, [Go, Go]) == Run(Act(f), [Go]) == Act(Act(f));
  }

  lemma {:induction false} GoesUndisturbed(n: nat)
    ensures Undisturbed(Goes(n))
    decreases n
  {
    if n > 0 { GoesUndisturbed(n - 1); }
  }

  lemma TwoThenGoes(f: Sys, u: Sys, n: nat) returns (es: seq<Event>)
    requires Run(f, [Go, Go]) == u
    ensures Undisturbed(es) && Run(f, es) == Run(u, Goes(n))
  {
    es := [Go, Go] + Goes(n);
    GoesUndisturbed(n);
    RunAppend(f, [Go, Go], Goes(n));
  }

  lemma UnwindingFiles(s: Sys, applied: bool)
    requires Cleaning(s)
    ensures var u := Unwinding(s, applied);
            && Accepted(s.proc.plan) && AllNext(u.disk, s.proc.plan) && BackupsBelong(u.disk, s.proc.plan)
            && (BackupsIntact(u.disk, s.proc.plan) <==> BackupsIntact(s.disk, s.proc.plan)) && u.disk.temp.None?
  {
    assert Unwinding(s, applied).disk.live == s.disk.live && Unwinding(s, applied).disk.backup == s.disk.backup;
  }

  lemma CleanupConflicts(s: Sys, applied: bool) returns (es: seq<Event>)
    requires Cleaning(s) && !(s.proc.at.SweepJournal? && applied) && !BackupsIntact(s.disk, s.proc.plan)
    ensures Undisturbed(es) && CleanupEnds(s, applied, Run(Step(s, IoError(applied)), es))
  {
    UnwindingStarts(s, applied);
    UnwindingFiles(s, applied);
    var n := UnwindFails(Unwinding(s, applied), s.proc.plan);
    es := TwoThenGoes(Step(s, IoError(applied)), Unwinding(s, applied), n);
  }

  lemma UnwindFails(u: Sys, plan: Plan) returns (n: nat)
    requires u.proc.Settling? && u.proc.journal.plan == plan && u.proc.settlement == Reverse(|plan.Transitions()|)
    requires Accepted(plan) && AllNext(u.disk, plan) && BackupsBelong(u.disk, plan) && !BackupsIntact(u.disk, plan)
    ensures var g := Run(u, Goes(n));
            && g.proc == Idle(Failed(RecoveryConflict)) && !AllPrior(g.disk, plan)
            && g.disk.temp == u.disk.temp && g.disk.journal == u.disk.journal && g.disk.lock == u.disk.lock
  {
    var ts := plan.Transitions();
    IntactIffRestorable(u.disk, plan);
    var g;
    n, g := UnwindExact(u.disk, u.proc.journal, u.proc.holder, u.proc.verdict, |ts|);
    var i :| 0 <= i < |ts| && !Undoable(u.disk, ts[i]);
    assert At(g.disk.live, ts[i].path) == ts[i].next;
  }

  // ---- Any one fault ----------------------------------------------------------------------------------

  // The live tree is still the one that the publication found.
  predicate Outset(p: Proc) {
    p.Opening? || p.Releasing? || (p.Forward? && !Journaled(p.at))
  }

  predicate Fault(x: Sys, e: Event) {
    || (e.IoError? && (x.proc.Opening? || x.proc.Forward? || x.proc.Releasing?))
    || (e.Reply? && !e.answer.Yes? && x.proc.Forward? && x.proc.at.Ask?)
  }

  // After the moves, the temporary journal of the next phase is left on disk: written, and not renamed.
  predicate Torn(x: Sys, e: Event) {
    && e.IoError? && x.proc.Forward?
    && match x.proc.at
       case Draft(phase) => e.applied && (phase.Published? || phase.Committed?)
       case Seal(phase) => !e.applied && (phase.Published? || phase.Committed?)
       case _ => false
  }

  // In the clean-up a needed backup is gone, or the removal of the journal is reported as failed.
  predicate Late(x: Sys, e: Event) {
    && e.IoError? && x.proc.Forward? && Sweeps(x.proc.at)
    && !(BackupsIntact(x.disk, x.proc.plan) && !(x.proc.at.SweepJournal? && e.applied))
  }

  // A temporary journal is only there while it waits to be renamed.
  predicate TempAtSeal(x: Sys) {
    x.proc.Forward? && Journaled(x.proc.at) && x.disk.temp.Some? ==> x.proc.at.Seal?
  }

  // A publication that has seen its prior tree, suffers one fault of any kind at any point from its lock on to
  // the removal of its journal, and is left alone afterwards, ends as failed; it leaves exactly the prior tree
  // if and only if the fault is neither torn nor late.
  lemma OneFaultExact(x: Sys, e: Event, plan: Plan) returns (es: seq<Event>)
    requires Inv(x) && Fault(x, e) && Reads(x, plan) && TempAtSeal(x) && (Outset(x.proc) ==> AllPrior(x.disk, plan))
    ensures Undisturbed(es) && (Calm(x, e) ==> CalmRun(Step(x, e), es))
    ensures var g := Run(Step(x, e), es);
            g.proc.Idle? && g.proc.last.Failed? && (AllPrior(g.disk, plan) <==> !Torn(x, e) && !Late(x, e))
  {
    if Outset(x.proc) {
      es := EarlyFault(x, e, plan);
    } else if Sweeps(x.proc.at) {
      es := CleanupErrorExact(x, e.applied);
      MarkerTells(Run(Step(x, e), es).disk, plan);
    } else {
      es := JournaledFault(x, e);
    }
  }

  lemma MarkerTells(d: Disk, plan: Plan)
    requires Accepted(plan)
    ensures AllNext(d, plan) ==> !AllPrior(d, plan)
  {
    assert plan.Transitions()[|plan.artifacts|] == plan.commitMarker;
  }

  lemma JournaledFault(x: Sys, e: Event) returns (es: seq<Event>)
    requires Inv(x) && Fault(x, e) && x.proc.Forward? && Reads(x, x.proc.plan) && TempAtSeal(x)
    requires Journaled(x.proc.at) && !Sweeps(x.proc.at)
    ensures Undisturbed(es) && CalmRun(Step(x, e), es)
    ensures var g := Run(Step(x, e), es);
            g.proc.Idle? && g.proc.last.Failed? && (AllPrior(g.disk, x.proc.plan) <==> !Torn(x, e))
  {
    FaultSettles(x, e);
    TempAfterFault(x, e);
    es := PublicationFaultExact(x, e);
  }

  lemma FaultSettles(x: Sys, e: Event)
    requires Inv(x) && Fault(x, e) && x.proc.Forward? && Journaled(x.proc.at) && !Sweeps(x.proc.at)
    ensures Step(x, e).proc.Settling? && Step(x, e).proc.journal.plan == x.proc.plan && Step(x, e).proc.verdict.Failed?
  {
    TerminalOnlyAtSeal(x.disk, x.proc.plan, x.proc.mine, x.proc.at);
    assert Step(x, e).proc.Settling?;
    FaultHolder(x, e);
  }

  // A fault leaves a temporary journal exactly at the writing and renaming of one; over the prior tree that is
  // harmless, over the next one it is not.
  lemma TempAfterFault(x: Sys, e: Event)
    requires Inv(x) && Fault(x, e) && x.proc.Forward? && TempAtSeal(x) && Journaled(x.proc.at) && !Sweeps(x.proc.at)
    ensures Step(x, e).disk.temp.Some? ==> (AllPrior(Step(x, e).disk, x.proc.plan) <==> !Torn(x, e))
    ensures Torn(x, e) ==> Step(x, e).disk.temp.Some?
  {
    match x.proc.at
    case Draft(phase) => DraftFault(x, e, phase);
    case Seal(phase) => SealFault(x, e, phase);
    case _ => OtherFault(x, e);
  }

  lemma DraftFault(x: Sys, e: Event, phase: Phase)
    requires Inv(x) && Fault(x, e) && x.proc.Forward? && TempAtSeal(x) && x.proc.at == Draft(phase) && !phase.Prepared?
    ensures Step(x, e).disk.live == x.disk.live && (Step(x, e).disk.temp.Some? <==> e.applied)
    ensures AllPrior(Step(x, e).disk, x.proc.plan) <==> phase.Publishing?
  {
    assert Act(x).disk == x.disk.(temp := Some(Journal(x.proc.plan, x.proc.mine.transaction, phase)));
    TreeAtWrite(x, Step(x, e).disk, phase);
  }

  lemma SealFault(x: Sys, e: Event, phase: Phase)
    requires Inv(x) && Fault(x, e) && x.proc.Forward? && x.proc.at == Seal(phase) && !phase.Prepared?
    ensures Step(x, e).disk.live == x.disk.live && (Step(x, e).disk.temp.Some? <==> !e.applied)
    ensures AllPrior(Step(x, e).disk, x.proc.plan) <==> phase.Publishing?
  {
    assert Act(x).disk == x.disk.(journal := x.disk.temp, temp := None);
    TreeAtWrite(x, Step(x, e).disk, phase);
  }

  lemma TreeAtWrite(x: Sys, d: Disk, phase: Phase)
    requires Inv(x) && x.proc.Forward? && (x.proc.at == Draft(phase) || x.proc.at == Seal(phase)) && !phase.Prepared?
    requires d.live == x.disk.live
    ensures AllPrior(d, x.proc.plan) <==> phase.Publishing?
  {
    var plan := x.proc.plan;
    SameLive(x.disk, d, plan);
    if !phase.Publishing? {
      DoneIsNext(x.disk, plan);
      MarkerTells(x.disk, plan);
    }
  }

  lemma OtherFault(x: Sys, e: Event)
    requires Fault(x, e) && x.proc.Forward? && TempAtSeal(x) && Journaled(x.proc.at) && !Sweeps(x.proc.at)
    requires !x.proc.at.Draft? && !x.proc.at.Seal?
    ensures Step(x, e).disk.temp.None?
  {
    if x.proc.at.Move? {
      assert Act(x) == MoveStep(x.disk, x.proc.plan, x.proc.mine, x.proc.at.index);
    } else if x.proc.at.Place? {
      assert Act(x) == PlaceStep(x.disk, x.proc.plan, x.proc.mine, x.proc.at.index);
    }
  }

  lemma EarlyFault(x: Sys, e: Event, plan: Plan) returns (es: seq<Event>)
    requires Fault(x, e) && Outset(x.proc) && AllPrior(x.disk, plan)
    ensures Undisturbed(es) && CalmRun(Step(x, e), es)
    ensures var g := Run(Step(x, e), es); g.proc.Idle? && g.proc.last.Failed? && AllPrior(g.disk, plan)
  {
    var f := Step(x, e);
    EarlyFaultStep(x, e);
    SameLive(x.disk, f.disk, plan);
    if f.proc.Releasing? {
      es := [Go];
      assert [Go][1..] == [];
      assert Run(f, [Go]) == Act(f) && Act(f).disk.live == f.disk.live;
      SameLive(x.disk, Act(f).disk, plan);
    } else {
      es := [];
    }
  }

  lemma EarlyFaultStep(x: Sys, e: Event)
    requires Fault(x, e) && Outset(x.proc)
    ensures Step(x, e).disk.live == x.disk.live
    ensures Step(x, e).proc.Releasing? || (Step(x, e).proc.Idle? && Step(x, e).proc.last.Failed?)
  {
  }

  lemma SameLive(d: Disk, e: Disk, plan: Plan)
    requires e.live == d.live
    ensures AllPrior(e, plan) == AllPrior(d, plan)
  {
  }

  // ---- An orphan --------------------------------------------------------------------------------------

  // An undecided journal without its lock.
  predicate Orphaned(s: Sys, j: Journal) {
    && s.disk.journal == Some(j) && !j.phase.Committed?
    && (s.disk.lock.Some? ==> s.disk.lock.value.transaction != j.transaction)
    && match s.proc
       case Idle(o) => !o.PublishedPlan? && !o.CommittedPlan? && !o.RolledBack?
       case Opening(_, mine, _, _) => mine.transaction != j.transaction
       case Forward(_, mine, at) => mine.transaction != j.transaction && (at == Recheck || at == Draft(Prepared))
       case Releasing(_, _) => true
       case _ => false
  }

  lemma OrphanStep(s: Sys, e: Event, j: Journal)
    requires Orphaned(s, j) && (e.Publish? ==> e.transaction != j.transaction)
    ensures Orphaned(Step(s, e), j)
  {
  }

  // When the lock is gone and a needed backup too, the call ends in a state that no later call resolves:
  // whatever happens afterwards - any recoveries, publications of other transactions, exits, errors, edits -
  // the rolling-back journal stays and no call publishes, finalises or rolls back.
  lemma {:induction false} OrphanForever(s: Sys, es: seq<Event>, j: Journal)
    requires Orphaned(s, j)
    requires forall i :: 0 <= i < |es| && es[i].Publish? ==> es[i].transaction != j.transaction
    ensures Orphaned(Run(s, es), j)
    decreases |es|
  {
    if es != [] {
      OrphanStep(s, es[0], j);
      OrphanForever(Step(s, es[0]), es[1..], j);
    }
  }

  lemma LostLockOrphans(s: Sys, applied: bool, later: seq<Event>) returns (es: seq<Event>)
    requires Cleaning(s) && Reads(s, s.proc.plan)
    requires LockAfter(s, applied).None? && !(s.proc.at.SweepJournal? && applied)
    requires !BackupsIntact(s.disk, s.proc.plan)
    requires forall i :: 0 <= i < |later| && later[i].Publish? ==> later[i].transaction != s.proc.mine.transaction
    ensures Undisturbed(es)
    ensures var g, j := Run(Step(s, IoError(applied)), es), Journal(s.proc.plan, s.proc.mine.transaction, RollingBack);
            CleanupEnds(s, applied, g) && Orphaned(Run(g, later), j)
  {
    es := CleanupErrorExact(s, applied);
    OrphanForever(Run(Step(s, IoError(applied)), es), later, Journal(s.proc.plan, s.proc.mine.transaction, RollingBack));
  }

  // ---- Such runs exist ----------------------------------------------------------------------------------

  // For every authorised plan that creates the marker and replaces or removes some artifact, one failed lock
  // release after a complete publication - with the effect of the release or without - leaves a mixed tree:
  // the marker gone, that artifact still at its next state, and the call over.
  lemma CleanupErrorMixes(s: Sys, c: Caller, plan: Plan, transaction: nat, a: nat, applied: bool)
    returns (before: seq<Event>, es: seq<Event>)
    requires Fresh(s) && s.proc == Idle(NeverStarted) && Authorised(s.disk, plan)
    requires plan.commitMarker.prior.Absent?
    requires a < |plan.artifacts| && plan.artifacts[a].Changes() && plan.artifacts[a].prior.File?
    ensures CalmRun(s, before) && Undisturbed(es)
    ensures Mixed(Run(Step(Run(s, before), IoError(applied)), es), plan, a)
  {
    var all;
    all, before := PublishSucceeds(s, c, plan, transaction);
    es := MarkerUndone(Run(s, before), a, applied);
  }

  lemma MarkerUndone(m: Sys, a: nat, applied: bool) returns (es: seq<Event>)
    requires Cleaning(m) && m.proc.at == SweepLock && m.proc.plan.commitMarker.prior.Absent?
    requires a < |m.proc.plan.artifacts| && m.proc.plan.artifacts[a].Changes() && m.proc.plan.artifacts[a].prior.File?
    ensures Undisturbed(es)
    ensures Mixed(Run(Step(m, IoError(applied)), es), m.proc.plan, a)
  {
    UnwindingStarts(m, applied);
    UnwindingFiles(m, applied);
    MarkerFirst(m, a, applied);
    var u := Unwinding(m, applied);
    var n := ArtifactStays(Act(u), m.proc.plan, a);
    es := ThreeThenGoes(Step(m, IoError(applied)), u, Act(u), n);
  }

  lemma ThreeThenGoes(f: Sys, u: Sys, u1: Sys, n: nat) returns (es: seq<Event>)
    requires Run(f, [Go, Go]) == u && Act(u) == u1
    ensures Undisturbed(es) && Run(f, es) == Run(u1, Goes(n))
  {
    OneGo(u, n);
    es := TwoThenGoes(f, u, n + 1);
  }

  // The marker is back at its prior state, and this artifact is not.
  predicate Mixed(g: Sys, plan: Plan, a: nat)
    requires a < |plan.artifacts|
  {
    && g.proc == Idle(Failed(RecoveryConflict))
    && At(g.disk.live, plan.commitMarker.path) == plan.commitMarker.prior
    && At(g.disk.live, plan.artifacts[a].path) == plan.artifacts[a].next
    && !AllPrior(g.disk, plan) && !AllNext(g.disk, plan)
  }

  lemma ArtifactStays(u1: Sys, plan: Plan, a: nat) returns (n: nat)
    requires Accepted(plan) && u1.proc.Settling? && u1.proc.journal.plan == plan
    requires u1.proc.settlement == Reverse(|plan.artifacts|)
    requires At(u1.disk.live, plan.commitMarker.path) == plan.commitMarker.prior
    requires a < |plan.artifacts| && plan.artifacts[a].Changes() && !Undoable(u1.disk, plan.artifacts[a])
    requires At(u1.disk.live, plan.artifacts[a].path) == plan.artifacts[a].next
    ensures Mixed(Run(u1, Goes(n)), plan, a)
  {
    var ts := plan.Transitions();
    assert ts[|plan.artifacts|] == plan.commitMarker && ts[a] == plan.artifacts[a];
    var g;
    n, g := UnwindExact(u1.disk, u1.proc.journal, u1.proc.holder, u1.proc.verdict, |plan.artifacts|);
    assert At(g.disk.live, ts[a].path) == ts[a].next;
    assert At(g.disk.live, ts[|plan.artifacts|].path) == plan.commitMarker.prior;
  }

  lemma MarkerFirst(m: Sys, a: nat, applied: bool)
    requires Cleaning(m) && m.proc.at == SweepLock && m.proc.plan.commitMarker.prior.Absent?
    requires a < |m.proc.plan.artifacts| && m.proc.plan.artifacts[a].Changes() && m.proc.plan.artifacts[a].prior.File?
    ensures var u, plan := Unwinding(m, applied), m.proc.plan;
            var u1 := Act(u);
            && u1.proc == Settling(u.proc.journal, u.proc.holder, u.proc.verdict, Reverse(|plan.artifacts|))
            && At(u1.disk.live, plan.commitMarker.path) == plan.commitMarker.prior
            && At(u1.disk.live, plan.artifacts[a].path) == plan.artifacts[a].next
            && !Undoable(u1.disk, plan.artifacts[a])
  {
    var u, plan := Unwinding(m, applied), m.proc.plan;
    var ts := plan.Transitions();
    assert ts[|plan.artifacts|] == plan.commitMarker && ts[a] == plan.artifacts[a];
    assert ts[a].path != ts[|plan.artifacts|].path;
    assert AllNext(m.disk, plan);
    assert Act(u) == ReverseStep(u.disk, u.proc.journal, u.proc.holder, u.proc.verdict, |ts|);
  }
}
