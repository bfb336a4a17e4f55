/**
 What recovery decides, that it always finishes, and exactly when it completes.
 */
module ArtifactRecovery {
  import opened Wrappers
  import opened ArtifactPlan
  import opened ArtifactProtocol
  import opened ArtifactSafety
  import opened ArtifactNesting

  // ---- An undisturbed continuation --------------------------------------------------------------

  predicate Halting(p: Proc) {
    p.Idle? || p.Recovering? || p.Settling?
  }

  // The event that lets a recovering process continue, with the host's two answers fixed.
  ghost function Continue(s: Sys, plan: Answer, intended: Answer): Event {
    if s.proc.Recovering? && s.proc.decision.AskPlan? then Reply(plan)
    else if s.proc.Recovering? && s.proc.decision.AskIntended? then Reply(intended)
    else if Sweeping(s.proc) && s.disk.backup.Keys != {} then
      var q :| q in s.disk.backup.Keys; Sweep(q)
    else Go
  }

  // Steps that a rollback or a clean-up still has to make; a bound for every journal phase.
  function Rank(s: Sys): nat {
    var b := |s.disk.backup|;
    match s.proc
    case Recovering(j, _, decision) =>
      var top := 2 * |j.plan.Transitions()| + b;
      (match decision
       case AskPlan => 14 + top
       case Resume => 13 + top
       case AskIntended => 12 + top
       case ConfirmIntended => 11 + top
       case DropJournal(_) => 1)
    case Settling(j, _, _, settlement) =>
      var n := |j.plan.Transitions()|;
      (match settlement
       case Write(phase) => if phase.Committed? then 6 + b else 10 + 2 * n + b
       case Rename(phase) => if phase.Committed? then 5 + b else 9 + 2 * n + b
       case Reverse(k) => 8 + 2 * k + b
       case Restore(k) => 7 + 2 * k + b
       case CheckPrior => 7 + b
       case CleanTemp => 4 + b
       case CleanWork => 3 + b
       case CleanLock => 2
       case CleanJournal => 1)
    case _ => 0
  }

  lemma RemoveShrinks(m: Tree, p: string)
    ensures |m - {p}| <= |m|
    ensures p in m ==> |m - {p}| < |m|
  {
    assert (m - {p}).Keys == m.Keys - {p};
    assert |m.Keys| == |m| && |(m - {p}).Keys| == |m - {p}|;
    if p in m {
      assert |m.Keys - {p}| == |m.Keys| - 1;
    } else {
      assert m.Keys - {p} == m.Keys;
    }
  }

  predicate Drops(s: Sys, f: Sys) {
    f.proc.Idle? || (f.proc.Settling? && Rank(f) < Rank(s))
  }

  lemma WritesDrop(s: Sys)
    requires s.proc.Settling? && (s.proc.settlement.Write? || s.proc.settlement.Rename?)
    ensures Drops(s, Act(s))
  {
  }

  lemma ReverseDrops(s: Sys)
    requires s.proc.Settling? && (s.proc.settlement.Reverse? || s.proc.settlement.CheckPrior?)
    ensures Drops(s, Act(s))
  {
    if s.proc.settlement.Reverse? {
      assert Act(s) == ReverseStep(s.disk, s.proc.journal, s.proc.holder, s.proc.verdict, s.proc.settlement.remaining);
    }
  }

  lemma CleansDrop(s: Sys)
    requires s.proc.Settling? && (s.proc.settlement.CleanWork? ==> s.disk.backup.Keys == {})
    requires s.proc.settlement.CleanTemp? || s.proc.settlement.CleanWork? || s.proc.settlement.CleanLock? || s.proc.settlement.CleanJournal?
    ensures Drops(s, Act(s))
  {
  }

  lemma ActDrops(s: Sys)
    requires s.proc.Settling? && !s.proc.settlement.Restore?
    requires s.proc.settlement.CleanWork? ==> s.disk.backup.Keys == {}
    ensures Drops(s, Act(s))
  {
    match s.proc.settlement
    case Write(_) => WritesDrop(s);
    case Rename(_) => WritesDrop(s);
    case Reverse(_) => ReverseDrops(s);
    case CheckPrior => ReverseDrops(s);
    case _ => CleansDrop(s);
  }

  lemma RestoreDrops(s: Sys)
    requires s.proc.Settling? && s.proc.settlement.Restore?
    ensures Act(s).proc.Idle? || (Act(s).proc.Settling? && Rank(Act(s)) < Rank(s))
  {
    var ts, k := s.proc.journal.plan.Transitions(), s.proc.settlement.remaining;
    if 0 < k <= |ts| { RemoveShrinks(s.disk.backup, ts[k - 1].path); }
  }

  lemma SettleDrops(s: Sys, e: Event)
    requires s.proc.Settling? && (e == Go || (e.Sweep? && e.path in s.disk.backup.Keys && Sweeping(s.proc)))
    requires e == Go && s.proc.settlement.CleanWork? ==> s.disk.backup.Keys == {}
    ensures Step(s, e).proc.Idle? || (Step(s, e).proc.Settling? && Rank(Step(s, e)) < Rank(s))
  {
    if e.Sweep? { RemoveShrinks(s.disk.backup, e.path); }
    else if s.proc.settlement.Restore? { RestoreDrops(s); }
    else { ActDrops(s); }
  }

  lemma DecideDrops(s: Sys, plan: Answer, intended: Answer)
    requires s.proc.Recovering? && (s.proc.decision.ConfirmIntended? ==> s.proc.owner.Some?)
    ensures var f := Step(s, Continue(s, plan, intended));
            f.proc.Idle? || (Halting(f.proc) && Rank(f) < Rank(s))
  {
  }

  lemma ContinueDecreases(s: Sys, plan: Answer, intended: Answer)
    requires Inv(s) && Halting(s.proc) && !s.proc.Idle?
    ensures Calm(s, Continue(s, plan, intended))
    ensures Inv(Step(s, Continue(s, plan, intended)))
    ensures Halting(Step(s, Continue(s, plan, intended)).proc)
    ensures Step(s, Continue(s, plan, intended)).proc.Idle? || Rank(Step(s, Continue(s, plan, intended))) < Rank(s)
  {
    var e := Continue(s, plan, intended);
    StepKeeps(s, e);
    if s.proc.Settling? { SettleDrops(s, e); } else { DecideDrops(s, plan, intended); }
  }

  ghost function Finish(s: Sys, plan: Answer, intended: Answer): (f: Sys)
    requires Inv(s) && Halting(s.proc)
    ensures Inv(f) && f.proc.Idle?
    decreases if s.proc.Idle? then 0 else 1 + Rank(s)
  {
    if s.proc.Idle? then s
    else
      ContinueDecreases(s, plan, intended);
      Finish(Step(s, Continue(s, plan, intended)), plan, intended)
  }

  lemma Unfold(s: Sys, plan: Answer, intended: Answer) returns (f: Sys)
    requires Inv(s) && Halting(s.proc) && !s.proc.Idle?
    ensures f == Step(s, Continue(s, plan, intended)) && Inv(f) && Halting(f.proc)
    ensures Finish(s, plan, intended) == Finish(f, plan, intended)
  {
    ContinueDecreases(s, plan, intended);
    f := Step(s, Continue(s, plan, intended));
  }

  // Nothing but the process itself and the host's answers.
  predicate Undisturbed(es: seq<Event>) {
    forall e :: e in es ==> e.Go? || e.Sweep? || e.Reply?
  }

  // Finish is one of the machine's own runs, of at most Rank(s) + 1 steps.
  lemma {:induction false} FinishIsRun(s: Sys, plan: Answer, intended: Answer) returns (es: seq<Event>)
    requires Inv(s) && Halting(s.proc)
    ensures CalmRun(s, es) && Run(s, es) == Finish(s, plan, intended) && |es| <= 1 + Rank(s) && Undisturbed(es)
    decreases if s.proc.Idle? then 0 else 1 + Rank(s)
  {
    if s.proc.Idle? {
      es := [];
    } else {
      var f := Unfold(s, plan, intended);
      var e := Continue(s, plan, intended);
      ContinueDecreases(s, plan, intended);
      var rest := FinishIsRun(f, plan, intended);
      es := [e] + rest;
      assert es[0] == e && es[1..] == rest;
    }
  }

  // ---- When a recovery completes ----------------------------------------------------------------

  predicate Complete(o: Outcome) {
    o.CommittedPlan? || o.RolledBack?
  }

  predicate BeforeSeal(settlement: Settlement) {
    settlement.Write? || settlement.Reverse? || settlement.Restore? || settlement.CheckPrior?
  }

  // A rollback or clean-up whose lock is its own or already gone and whose journal can still be rewritten.
  predicate SettleReady(s: Sys) {
    && Inv(s) && s.proc.Settling?
    && (s.proc.settlement.CleanJournal? || s.disk.lock == Some(s.proc.holder) || s.disk.lock.None?)
    && (BeforeSeal(s.proc.settlement) ==> s.disk.temp.None?)
  }

  predicate Locked(s: Sys) {
    s.disk.lock.Some? || (s.proc.Settling? && s.proc.settlement.CleanJournal?)
  }

  // A backward step of a restorable transition does not stop.
  lemma ReverseGoesOn(d: Disk, j: Journal, l: Lock, v: Outcome, k: nat)
    requires k <= |j.plan.Transitions()| && (0 < k ==> Restorable(d, j.plan.Transitions()[k - 1]))
    ensures var f := ReverseStep(d, j, l, v, k);
            && f.proc.Settling? && f.proc.journal == j && f.proc.holder == l && f.proc.verdict == v
            && BeforeSeal(f.proc.settlement) && f.disk.lock == d.lock && f.disk.temp == d.temp
  {
  }

  // A finished settlement leaves the tree that its verdict names, and no control state; without its lock
  // it leaves the terminal journal behind, and says so.
  predicate Settled(f: Sys, plan: Plan, v: Outcome, locked: bool) {
    && VerdictHolds(f.disk, plan, v) && f.disk.backup == map[] && f.disk.lock.None?
    && (if locked then f.proc == Idle(v) && ControlGone(f.disk)
        else && f.proc == Idle(Failed(OrphanControlState))
             && f.disk.journal.Some? && f.disk.journal.value.plan == plan && f.disk.journal.value.phase.Committed?)
  }

  predicate StillSettling(s: Sys, f: Sys) {
    && s.proc.Settling? && SettleReady(f)
    && f.proc.verdict == s.proc.verdict && f.proc.journal.plan == s.proc.journal.plan && Locked(f) == Locked(s)
  }

  lemma WritesReady(s: Sys)
    requires SettleReady(s) && (s.proc.settlement.Write? || s.proc.settlement.Rename?) && Inv(Act(s))
    ensures StillSettling(s, Act(s))
  {
  }

  lemma RestoreGoesOn(d: Disk, j: Journal, l: Lock, v: Outcome, k: nat)
    requires 0 < k <= |j.plan.Transitions()| && At(d.backup, j.plan.Transitions()[k - 1].path).File?
    ensures var f := RestoreStep(d, j, l, v, k);
            && f.proc == Settling(j, l, v, Reverse(k - 1)) && f.disk.lock == d.lock && f.disk.temp == d.temp
  {
  }

  lemma RestoreHasBackup(s: Sys)
    requires Inv(s) && s.proc.Settling? && s.proc.settlement.Restore?
    ensures var j, k := s.proc.journal, s.proc.settlement.remaining;
            0 < k <= |j.plan.Transitions()| && At(s.disk.backup, j.plan.Transitions()[k - 1].path).File?
  {
    assert Lifted(s.disk, s.proc.journal.plan.Transitions()[s.proc.settlement.remaining - 1]);
  }

  lemma StillBackward(s: Sys, f: Sys)
    requires SettleReady(s) && Inv(f) && f.proc.Settling? && BeforeSeal(s.proc.settlement) && BeforeSeal(f.proc.settlement)
    requires f.proc.journal == s.proc.journal && f.proc.holder == s.proc.holder && f.proc.verdict == s.proc.verdict
    requires f.disk.lock == s.disk.lock && f.disk.temp == s.disk.temp
    ensures StillSettling(s, f)
  {
  }

  lemma ReverseRestorable(s: Sys)
    requires Inv(s) && s.proc.Settling? && s.proc.settlement.Reverse?
    ensures var j, k := s.proc.journal, s.proc.settlement.remaining;
            k <= |j.plan.Transitions()| && (0 < k ==> Restorable(s.disk, j.plan.Transitions()[k - 1]))
  {
  }

  lemma ReverseReady(s: Sys)
    requires SettleReady(s) && s.proc.settlement.Reverse? && Inv(Act(s))
    ensures StillSettling(s, Act(s))
  {
    ReverseRestorable(s);
    ReverseGoesOn(s.disk, s.proc.journal, s.proc.holder, s.proc.verdict, s.proc.settlement.remaining);
    StillBackward(s, Act(s));
  }

  lemma RestoreReady(s: Sys)
    requires SettleReady(s) && s.proc.settlement.Restore? && Inv(Act(s))
    ensures StillSettling(s, Act(s))
  {
    RestoreHasBackup(s);
    RestoreGoesOn(s.disk, s.proc.journal, s.proc.holder, s.proc.verdict, s.proc.settlement.remaining);
    StillBackward(s, Act(s));
  }

  lemma CheckReady(s: Sys)
    requires SettleReady(s) && s.proc.settlement.CheckPrior? && Inv(Act(s))
    ensures StillSettling(s, Act(s))
  {
    UntouchedIsPrior(s.disk, s.proc.journal.plan);
  }

  lemma CleansReady(s: Sys)
    requires SettleReady(s) && Inv(Act(s))
    requires s.proc.settlement.CleanTemp? || s.proc.settlement.CleanWork?
    ensures StillSettling(s, Act(s))
  {
  }

  lemma SweepReady(s: Sys, path: string)
    requires SettleReady(s) && Inv(Step(s, Sweep(path)))
    ensures StillSettling(s, Step(s, Sweep(path)))
  {
  }

  lemma UnlockReady(s: Sys)
    requires SettleReady(s) && s.proc.settlement.CleanLock? && Inv(Act(s))
    ensures if Locked(s) then StillSettling(s, Act(s)) else Settled(Act(s), s.proc.journal.plan, s.proc.verdict, false)
  {
  }

  lemma LastReady(s: Sys)
    requires SettleReady(s) && s.proc.settlement.CleanJournal?
    ensures Settled(Act(s), s.proc.journal.plan, s.proc.verdict, true)
  {
    SameFiles(s.disk, Act(s).disk, s.proc.journal.plan, 0);
  }

  lemma ActReady(s: Sys)
    requires SettleReady(s) && Inv(Act(s))
    ensures Settled(Act(s), s.proc.journal.plan, s.proc.verdict, Locked(s)) || StillSettling(s, Act(s))
  {
    match s.proc.settlement
    case Write(_) => WritesReady(s);
    case Rename(_) => WritesReady(s);
    case Reverse(_) => ReverseReady(s);
    case Restore(_) => RestoreReady(s);
    case CheckPrior => CheckReady(s);
    case CleanLock => UnlockReady(s);
    case CleanJournal => LastReady(s);
    case _ => CleansReady(s);
  }

  lemma SettleReadyStep(s: Sys, e: Event)
    requires SettleReady(s) && e == Continue(s, Yes, Yes)
    ensures Settled(Step(s, e), s.proc.journal.plan, s.proc.verdict, Locked(s)) || StillSettling(s, Step(s, e))
  {
    ContinueDecreases(s, Yes, Yes);
    if e.Sweep? { SweepReady(s, e.path); } else { ActReady(s); }
  }

  // From every journal phase, an undisturbed rollback or clean-up of legible paths reaches its verdict:
  // a rejected or failed publication then leaves exactly the prior tree, a finalised one exactly the next,
  // with journal, lock and backups gone; if its lock was already gone, the terminal journal stays.
  lemma {:induction false} SettleCompletes(s: Sys, plan: Answer, intended: Answer)
    requires SettleReady(s) && Reads(s, s.proc.journal.plan)
    ensures var f := Finish(s, plan, intended);
            Settled(f, s.proc.journal.plan, s.proc.verdict, Locked(s)) && Readable(f.disk.live, s.proc.journal.plan)
    decreases Rank(s)
  {
    var e := Continue(s, plan, intended);
    assert e == Continue(s, Yes, Yes);
    ContinueDecreases(s, plan, intended);
    SettleReadyStep(s, e);
    StepReads(s, e, s.proc.journal.plan);
    var f := Step(s, e);
    if !f.proc.Idle? { SettleCompletes(f, plan, intended); }
    assert Finish(s, plan, intended) == Finish(f, plan, intended);
  }

  // A temporary journal left behind blocks every further journal write.
  predicate Blocked(s: Sys) {
    && Inv(s) && s.disk.temp.Some? && s.disk.journal.Some? && !s.disk.journal.value.phase.Committed?
    && ((s.proc.Settling? && BeforeSeal(s.proc.settlement))
        || (s.proc.Recovering? && s.proc.owner.Some?))
  }

  // Why the call stops.
  function Blocking(s: Sys, plan: Answer, intended: Answer): Failure {
    match s.proc
    case Recovering(j, _, AskPlan) =>
      if plan.No? then RecoveryConflict
      else if plan.Throws? || (AllNext(s.disk, j.plan) && intended.Throws?) then HostError
      else ControlPathCollision
    case Recovering(j, _, Resume) => if AllNext(s.disk, j.plan) && intended.Throws? then HostError else ControlPathCollision
    case Recovering(_, _, AskIntended) => if intended.Throws? then HostError else ControlPathCollision
    case _ => ControlPathCollision
  }

  lemma BlockedSettling(s: Sys)
    requires Inv(s) && s.disk.temp.Some? && s.proc.Settling? && BeforeSeal(s.proc.settlement)
    ensures var f := Act(s);
            && f.disk.temp == s.disk.temp && f.disk.lock == s.disk.lock && f.disk.journal == s.disk.journal
            && (if f.proc.Settling? then BeforeSeal(f.proc.settlement) else f.proc == Idle(Failed(ControlPathCollision)))
  {
    var j, l, v := s.proc.journal, s.proc.holder, s.proc.verdict;
    match s.proc.settlement
    case Write(_) =>
    case Reverse(k) =>
      ReverseRestorable(s);
      ReverseGoesOn(s.disk, j, l, v, k);
      ReverseKeepsControl(s.disk, j, l, v, k);
    case Restore(k) =>
      RestoreHasBackup(s);
      RestoreGoesOn(s.disk, j, l, v, k);
    case CheckPrior => UntouchedIsPrior(s.disk, j.plan);
  }

  lemma ReverseKeepsControl(d: Disk, j: Journal, l: Lock, v: Outcome, k: nat)
    ensures ReverseStep(d, j, l, v, k).disk.journal == d.journal
  {
  }

  // What a blocked recovery has before it.
  predicate Undecided(s: Sys) {
    && s.proc.Recovering? && s.proc.owner.Some? && !s.proc.decision.DropJournal?
    && s.disk.lock == s.proc.owner && s.disk.journal == Some(s.proc.saved) && !s.proc.saved.phase.Committed?
  }

  lemma BlockedIsUndecided(s: Sys)
    requires Blocked(s) && s.proc.Recovering?
    ensures Undecided(s)
  {
  }

  lemma BlockedDeciding(s: Sys, plan: Answer, intended: Answer)
    requires Undecided(s)
    ensures var f := Step(s, Continue(s, plan, intended));
            && f.disk == s.disk
            && (|| f.proc == Idle(Failed(Blocking(s, plan, intended)))
                || (f.proc.Settling? && BeforeSeal(f.proc.settlement) && Blocking(s, plan, intended) == ControlPathCollision)
                || (f.proc.Recovering? && f.proc.owner.Some? && Blocking(f, plan, intended) == Blocking(s, plan, intended)))
  {
  }

  lemma BlockedGoesOn(s: Sys, f: Sys)
    requires Blocked(s) && Inv(f) && f.disk.temp == s.disk.temp && f.disk.journal == s.disk.journal
    requires (f.proc.Settling? && BeforeSeal(f.proc.settlement)) || (f.proc.Recovering? && f.proc.owner.Some?)
    ensures Blocked(f)
  {
  }

  predicate HeldUp(s: Sys, f: Sys, plan: Answer, intended: Answer) {
    && f.disk.temp == s.disk.temp && f.disk.lock == s.disk.lock && f.disk.journal == s.disk.journal
    && (if f.proc.Idle? then f.proc == Idle(Failed(Blocking(s, plan, intended)))
        else Blocked(f) && Blocking(f, plan, intended) == Blocking(s, plan, intended))
  }

  lemma BlockedSettlingStep(s: Sys, plan: Answer, intended: Answer)
    requires Blocked(s) && s.proc.Settling? && Inv(Act(s))
    ensures HeldUp(s, Act(s), plan, intended)
  {
    BlockedSettling(s);
    if Act(s).proc.Settling? { BlockedGoesOn(s, Act(s)); }
  }

  lemma BlockedDecidingStep(s: Sys, f: Sys, plan: Answer, intended: Answer)
    requires Blocked(s) && s.proc.Recovering? && f == Step(s, Continue(s, plan, intended)) && Inv(f)
    ensures HeldUp(s, f, plan, intended)
  {
    BlockedIsUndecided(s);
    BlockedDeciding(s, plan, intended);
    if !f.proc.Idle? { BlockedGoesOn(s, f); }
  }

  lemma BlockedStep(s: Sys, plan: Answer, intended: Answer)
    requires Blocked(s)
    ensures HeldUp(s, Step(s, Continue(s, plan, intended)), plan, intended)
  {
    ContinueDecreases(s, plan, intended);
    if s.proc.Settling? {
      BlockedSettlingStep(s, plan, intended);
    } else {
      BlockedDecidingStep(s, Step(s, Continue(s, plan, intended)), plan, intended);
    }
  }

  lemma {:induction false} BlockedFails(s: Sys, plan: Answer, intended: Answer)
    requires Blocked(s)
    ensures var f := Finish(s, plan, intended);
            f.proc.last == Failed(Blocking(s, plan, intended)) && f.disk.temp == s.disk.temp && f.disk.lock == s.disk.lock && f.disk.journal == s.disk.journal
    decreases Rank(s)
  {
    ContinueDecreases(s, plan, intended);
    BlockedStep(s, plan, intended);
    var f := Step(s, Continue(s, plan, intended));
    if !f.proc.Idle? { BlockedFails(f, plan, intended); }
    assert Finish(s, plan, intended) == Finish(f, plan, intended);
  }

  function Decided(d: Disk, j: Journal, plan: Answer, intended: Answer): Outcome {
    if !plan.Yes? then Failed(if plan.No? then RecoveryConflict else HostError)
    else if j.phase.Committed? then if AllNext(d, j.plan) then CommittedPlan(j.plan) else RolledBack(j.plan)
    else if AllNext(d, j.plan) && intended.Throws? then Failed(HostError)
    else if AllNext(d, j.plan) && intended.Yes? then CommittedPlan(j.plan)
    else RolledBack(j.plan)
  }

  // The plan is admitted: what a recovering process finds decides its outcome.
  predicate Deciding(s: Sys) {
    Inv(s) && s.proc.Recovering? && Reads(s, s.proc.saved.plan)
  }

  lemma ReadsOn(s: Sys, plan: Answer, intended: Answer)
    requires Deciding(s)
    ensures Reads(Step(s, Continue(s, plan, intended)), s.proc.saved.plan)
  {
    ContinueDecreases(s, plan, intended);
    StepReads(s, Continue(s, plan, intended), s.proc.saved.plan);
  }

  // A committed journal is cleared up.
  lemma CommittedResumes(s: Sys, intended: Answer)
    requires Deciding(s) && s.proc.decision.Resume? && s.proc.saved.phase.Committed?
    ensures Finish(s, Yes, intended).proc.last == Decided(s.disk, s.proc.saved, Yes, intended)
  {
    var s2 := Unfold(s, Yes, intended);
    if s2.proc.Settling? {
      ReadsOn(s, Yes, intended);
      SettleCompletes(s2, Yes, intended);
    } else {
      var s3 := Unfold(s2, Yes, intended);
    }
  }

  // A recovery is let in by a journal of this project and root, and by a lock of the same transaction, project
  // and host whose writer is dead or is the caller itself; without a lock, only by a committed journal.
  predicate LetIn(d: Disk, c: Caller, root: string) {
    && d.journal.Some? && d.journal.value.plan.transactionRoot == root && d.journal.value.plan.projectIdentity == c.project
    && match d.lock
       case None => d.journal.value.phase.Committed?
       case Some(l) =>
         && l.project == c.project && l.host == c.host && l.transaction == d.journal.value.transaction
         && (l.pid == c.pid || l.pid !in c.alive)
  }

  // What it hears otherwise.
  function Refusal(d: Disk, c: Caller, root: string): Outcome {
    match d.journal
    case None => if d.lock.None? then NothingToRecover else Failed(OrphanControlState)
    case Some(j) =>
      if j.plan.transactionRoot != root || j.plan.projectIdentity != c.project then Failed(MalformedJournal)
      else
        match d.lock
        case None => Failed(OrphanControlState)
        case Some(l) =>
          if l.project == c.project && l.host == c.host && l.transaction == j.transaction then Failed(ActiveWriter)
          else Failed(UntrustedLock)
  }

  // A recovery call gets past its first checks exactly when it is let in, and then works from the journal and the
  // lock that it found; otherwise it is over, with the disk as it was - in particular, with the report of an
  // active writer when the lock fits and its writer is alive and somebody else.
  lemma RecoveryLetIn(s: Sys, c: Caller, root: string)
    requires s.proc.Idle?
    ensures var t := Step(s, Recover(c, root));
            && t.disk == s.disk
            && (t.proc.Recovering? <==> LetIn(s.disk, c, root))
            && (LetIn(s.disk, c, root) ==> t.proc == Recovering(s.disk.journal.value, s.disk.lock, AskPlan))
            && (!LetIn(s.disk, c, root) ==> t.proc == Idle(Refusal(s.disk, c, root)))
  {
  }

  lemma CommittedDecides(d: Disk, c: Caller, root: string, intended: Answer)
    requires CrashOk(d) && LetIn(d, c, root) && d.journal.value.phase.Committed?
    requires Readable(d.live, d.journal.value.plan)
    ensures Finish(Sys(d, StartRecover(d, c, root)), Yes, intended).proc.last == Decided(d, d.journal.value, Yes, intended)
  {
    var s0 := Sys(d, StartRecover(d, c, root));
    var s1 := Unfold(s0, Yes, intended);
    CommittedResumes(s1, intended);
  }

  // From the moment the plan is admitted and the control files are confirmed.
  lemma ResumedDecides(s: Sys, intended: Answer)
    requires Deciding(s) && s.proc.decision.Resume? && s.proc.owner.Some?
    requires !s.proc.saved.phase.Committed? && s.disk.temp.None?
    ensures var f := Finish(s, Yes, intended);
            f.proc.last == Decided(s.disk, s.proc.saved, Yes, intended) && (f.proc.last.Failed? ==> f.disk == s.disk)
  {
    var s2 := Unfold(s, Yes, intended);
    ReadsOn(s, Yes, intended);
    if !AllNext(s.disk, s.proc.saved.plan) {
      SettleCompletes(s2, Yes, intended);
    } else {
      AskedDecides(s2, intended);
    }
  }

  lemma AskedDecides(s: Sys, intended: Answer)
    requires Deciding(s) && s.proc.decision.AskIntended? && s.proc.owner.Some?
    requires !s.proc.saved.phase.Committed? && s.disk.temp.None? && AllNext(s.disk, s.proc.saved.plan)
    ensures var f := Finish(s, Yes, intended);
            f.proc.last == Decided(s.disk, s.proc.saved, Yes, intended) && (f.proc.last.Failed? ==> f.disk == s.disk)
  {
    if intended.No? { RefusedDecides(s); }
    else if intended.Yes? { AdmittedDecides(s); }
    else { HostThrows(s); }
  }

  lemma HostThrows(s: Sys)
    requires Deciding(s) && s.proc.decision.AskIntended?
    ensures Finish(s, Yes, Throws) == Sys(s.disk, Idle(Failed(HostError)))
  {
    var f := Unfold(s, Yes, Throws);
    assert f == Sys(s.disk, Idle(Failed(HostError)));
  }

  lemma AdmittedDecides(s: Sys)
    requires Deciding(s) && s.proc.decision.AskIntended? && s.proc.owner.Some?
    requires !s.proc.saved.phase.Committed? && s.disk.temp.None? && AllNext(s.disk, s.proc.saved.plan)
    ensures Finish(s, Yes, Yes).proc.last == CommittedPlan(s.proc.saved.plan)
  {
    var f := Unfold(s, Yes, Yes);
    ReadsOn(s, Yes, Yes);
    assert f == Sys(s.disk, Recovering(s.proc.saved, s.proc.owner, ConfirmIntended));
    ConfirmedDecides(f, Yes);
  }

  lemma RefusedDecides(s: Sys)
    requires Deciding(s) && s.proc.decision.AskIntended? && s.proc.owner.Some?
    requires !s.proc.saved.phase.Committed? && s.disk.temp.None?
    ensures Finish(s, Yes, No).proc.last == RolledBack(s.proc.saved.plan)
  {
    var s3 := Unfold(s, Yes, No);
    ReadsOn(s, Yes, No);
    SettleCompletes(s3, Yes, No);
  }

  lemma ConfirmedDecides(s: Sys, intended: Answer)
    requires Deciding(s) && s.proc.decision.ConfirmIntended? && s.proc.owner.Some?
    requires !s.proc.saved.phase.Committed? && s.disk.temp.None? && AllNext(s.disk, s.proc.saved.plan)
    ensures Finish(s, Yes, intended).proc.last == CommittedPlan(s.proc.saved.plan)
  {
    var s4 := Unfold(s, Yes, intended);
    ReadsOn(s, Yes, intended);
    SettleCompletes(s4, Yes, intended);
  }

  lemma UncommittedDecides(d: Disk, c: Caller, root: string, intended: Answer)
    requires CrashOk(d) && LetIn(d, c, root) && !d.journal.value.phase.Committed? && d.temp.None?
    requires Readable(d.live, d.journal.value.plan)
    ensures var f := Finish(Sys(d, StartRecover(d, c, root)), Yes, intended);
            f.proc.last == Decided(d, d.journal.value, Yes, intended) && (f.proc.last.Failed? ==> f.disk == d)
  {
    var s1 := Unfold(Sys(d, StartRecover(d, c, root)), Yes, intended);
    ResumedDecides(s1, intended);
  }

  lemma UnadmittedDecides(d: Disk, c: Caller, root: string, plan: Answer, intended: Answer)
    requires CrashOk(d) && LetIn(d, c, root) && !plan.Yes?
    ensures Finish(Sys(d, StartRecover(d, c, root)), plan, intended)
            == Sys(d, Idle(Failed(if plan.No? then RecoveryConflict else HostError)))
  {
    var s1 := Unfold(Sys(d, StartRecover(d, c, root)), plan, intended);
  }

  // An admitted recovery of a crash-safe disk with legible paths finalises or rolls back exactly as
  // promised, unless a temporary journal file was left behind before the terminal phase.
  lemma RecoveryDecides(d: Disk, c: Caller, root: string, plan: Answer, intended: Answer)
    requires CrashOk(d) && LetIn(d, c, root) && Readable(d.live, d.journal.value.plan)
    ensures var j := d.journal.value;
            var f := Finish(Sys(d, StartRecover(d, c, root)), plan, intended);
            && Inv(f)
            && (plan.Yes? && !j.phase.Committed? && d.temp.Some? ==>
                  && f.proc.last == Failed(if AllNext(d, j.plan) && intended.Throws? then HostError else ControlPathCollision)
                  && f.disk.temp == d.temp && f.disk.journal == d.journal && f.disk.lock == d.lock)
            && (!(plan.Yes? && !j.phase.Committed? && d.temp.Some?) ==> f.proc.last == Decided(d, j, plan, intended))
            && (f.proc.last.Failed? && d.temp.None? ==> f.disk == d)
            && (!plan.Yes? ==> f.disk == d)
  {
    if !plan.Yes? {
      UnadmittedDecides(d, c, root, plan, intended);
    } else if d.journal.value.phase.Committed? {
      CommittedDecides(d, c, root, intended);
    } else if d.temp.None? {
      UncommittedDecides(d, c, root, intended);
    } else {
      BlockedFails(Sys(d, StartRecover(d, c, root)), plan, intended);
    }
  }

  // The exact condition for an admitted recovery of legible paths to complete.
  lemma RecoveryCompletesIff(d: Disk, c: Caller, root: string, plan: Answer, intended: Answer)
    requires CrashOk(d) && LetIn(d, c, root) && Readable(d.live, d.journal.value.plan)
    ensures var j := d.journal.value;
            Complete(Finish(Sys(d, StartRecover(d, c, root)), plan, intended).proc.last) <==>
            plan.Yes? && (j.phase.Committed? || (d.temp.None? && !(AllNext(d, j.plan) && intended.Throws?)))
  {
    RecoveryDecides(d, c, root, plan, intended);
  }

  // A second recovery after a completed one does nothing.
  lemma RecoveryIsIdempotent(d: Disk, c: Caller, root: string, plan: Answer, intended: Answer, c2: Caller, root2: string)
    requires CrashOk(d) && LetIn(d, c, root)
    requires Complete(Finish(Sys(d, StartRecover(d, c, root)), plan, intended).proc.last)
    ensures var f := Finish(Sys(d, StartRecover(d, c, root)), plan, intended);
            StartRecover(f.disk, c2, root2) == Idle(NothingToRecover) && Step(f, Recover(c2, root2)).disk == f.disk
  {
    var f := Finish(Sys(d, StartRecover(d, c, root)), plan, intended);
    assert OutcomeOk(f.disk, f.proc.last);
  }
}
