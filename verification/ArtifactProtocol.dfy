/**
 The artifact transaction as a step machine. One step is one durable file-system operation, one
 check, or one host answer of the publisher and of recovery; a process exit or an I/O error is
 possible before every step, and outside editors may change live or staged files at any moment.
 */
module ArtifactProtocol {
  import opened Wrappers
  import opened ArtifactPlan

  datatype Phase = Prepared | Publishing | Published | RollingBack | Committed

  datatype Journal = Journal(plan: Plan, transaction: nat, phase: Phase)

  datatype Lock = Lock(project: string, host: string, pid: nat, transaction: nat)

  // Everything that survives a process: public files, private stage and backups, control files.
  datatype Disk = Disk(
    live: Tree, stage: Tree, backup: Tree,
    temp: Option<Journal>, journal: Option<Journal>, lock: Option<Lock>)

  datatype Failure =
    | InvalidPlan | UnexpectedStagedState | UndeclaredStagedEntry | UnexpectedLiveState
    | ActiveWriter | UntrustedLock | MalformedJournal | OrphanControlState | RecoveryConflict
    | FilesystemUnsupported | ControlPathCollision | IntendedStateRejected | HostError

  datatype Outcome =
    | NeverStarted
    | Unchanged
    | PublishedPlan(plan: Plan)
    | CommittedPlan(plan: Plan)
    | RolledBack(plan: Plan)
    | NothingToRecover
    | Crashed
    | Failed(failure: Failure)

  // Control points of publishArtifacts after the lock is held.
  datatype Point =
    | Recheck
    | Draft(phase: Phase)   // about to write the journal's temporary file
    | Seal(phase: Phase)    // about to rename it over the journal
    | Move(index: nat)      // about to back up the index-th transition
    | Place(index: nat)     // about to publish its staged file
    | Ask                   // waiting for admitIntended
    | Confirm               // about to re-read the live files
    | SweepTemp | SweepWork | SweepLock | SweepJournal

  // Control points of recoverArtifacts before it starts to change anything.
  datatype Decision = AskPlan | Resume | AskIntended | ConfirmIntended | DropJournal(committed: bool)

  // Control points of rollbackTransaction, of recovery's finalisation and of cleanupTerminal.
  datatype Settlement =
    | Write(phase: Phase)
    | Rename(phase: Phase)
    | Reverse(remaining: nat)   // about to undo transition remaining - 1
    | Restore(remaining: nat)   // its next file is gone; about to move the backup home
    | CheckPrior
    | CleanTemp | CleanWork | CleanLock | CleanJournal

  datatype Proc =
    | Idle(last: Outcome)
    | Opening(plan: Plan, mine: Lock, alive: set<nat>, reclaimed: bool)
    | Forward(plan: Plan, mine: Lock, at: Point)
    | Releasing(mine: Lock, why: Failure)
    | Recovering(saved: Journal, owner: Option<Lock>, decision: Decision)
    | Settling(journal: Journal, holder: Lock, verdict: Outcome, settlement: Settlement)

  datatype Sys = Sys(disk: Disk, proc: Proc)

  // Who starts an invocation: project identity, host, own pid, and the pids alive on this host.
  datatype Caller = Caller(project: string, host: string, pid: nat, alive: set<nat>)

  datatype Answer = Yes | No | Throws

  datatype Event =
    | Publish(caller: Caller, plan: Plan, transaction: nat)
    | Recover(caller: Caller, transactionRoot: string)
    | Go                                   // the running process performs its next operation
    | Sweep(path: string)                  // recursive removal deletes one more backup file
    | Reply(answer: Answer)                // the host callback returns
    | Exit                                 // the running process stops
    | IoError(applied: bool)               // the next operation reports an error, with or without effect
    | EditLive(path: string, state: FileState)
    | EditStage(path: string, state: FileState)

  // ---- Whole-tree checks -------------------------------------------------------------------

  predicate AllPrior(d: Disk, plan: Plan) {
    forall i :: 0 <= i < |plan.Transitions()| ==>
      At(d.live, plan.Transitions()[i].path) == plan.Transitions()[i].prior
  }

  predicate AllNext(d: Disk, plan: Plan) {
    forall i :: 0 <= i < |plan.Transitions()| ==>
      At(d.live, plan.Transitions()[i].path) == plan.Transitions()[i].next
  }

  predicate StagedStatesOk(d: Disk, plan: Plan) {
    forall i :: 0 <= i < |plan.Transitions()| ==>
      (var t := plan.Transitions()[i]; t.stagedPath.Some? ==> At(d.stage, t.stagedPath.value) == t.next)
  }

  predicate DeclaredStage(plan: Plan, path: string) {
    exists i :: 0 <= i < |plan.Transitions()| && plan.Transitions()[i].stagedPath == Some(path)
  }

  predicate NoUndeclaredStage(d: Disk, plan: Plan) {
    forall q :: q in d.stage.Keys && Under(plan.stageRoot, q) ==> DeclaredStage(plan, q)
  }

  // The part of plan acceptance that the protocol relies on.
  predicate Accepted(plan: Plan) {
    var ts := plan.Transitions();
    && (forall i, j :: 0 <= i < j < |ts| ==> ts[i].path != ts[j].path)
    && (forall i, j :: 0 <= i < j < |ts| && ts[i].stagedPath.Some? ==> ts[i].stagedPath != ts[j].stagedPath)
    && (forall i :: 0 <= i < |ts| ==> (ts[i].stagedPath.Some? <==> ts[i].Changes() && ts[i].next.File?))
    && plan.commitMarker.Changes()
  }

  // ---- Starting an invocation ---------------------------------------------------------------

  function StartPublish(d: Disk, c: Caller, plan: Plan, transaction: nat): Proc {
    if AllPrior(d, plan) then
      if !StagedStatesOk(d, plan) then Idle(Failed(UnexpectedStagedState))
      else if !NoUndeclaredStage(d, plan) then Idle(Failed(UndeclaredStagedEntry))
      else Opening(plan, Lock(plan.projectIdentity, c.host, c.pid, transaction), c.alive, false)
    else if AllNext(d, plan) then Idle(Unchanged)
    else Idle(Failed(UnexpectedLiveState))
  }

  function StartRecover(d: Disk, c: Caller, root: string): Proc {
    if d.journal.None? then
      if d.lock.None? then Idle(NothingToRecover) else Idle(Failed(OrphanControlState))
    else
      var j := d.journal.value;
      if j.plan.transactionRoot != root || j.plan.projectIdentity != c.project then Idle(Failed(MalformedJournal))
      else if d.lock.None? then
        if j.phase.Committed? then Recovering(j, None, AskPlan) else Idle(Failed(OrphanControlState))
      else
        var l := d.lock.value;
        if l.project != c.project || l.transaction != j.transaction || l.host != c.host then
          Idle(Failed(UntrustedLock))
        else if l.pid != c.pid && l.pid in c.alive then Idle(Failed(ActiveWriter))
        else Recovering(j, Some(l), AskPlan)
  }

  // ---- What an error does -------------------------------------------------------------------

  function BeginRollback(j: Journal): Settlement {
    if j.phase.RollingBack? then Reverse(|j.plan.Transitions()|) else Write(RollingBack)
  }

  // Before persistJournal returns an error only releases the lock; afterwards it rolls back from
  // the journal found on disk. Errors in any other routine end that invocation.
  function Abort(d: Disk, p: Proc, why: Failure): Sys {
    match p
    case Forward(plan, mine, at) =>
      if at == Recheck || at == Draft(Prepared) || at == Seal(Prepared) then Sys(d, Releasing(mine, why))
      else if d.journal.None? then Sys(d, Idle(Failed(why)))
      else Sys(d, Settling(d.journal.value, mine, Failed(why), BeginRollback(d.journal.value)))
    case _ => Sys(d, Idle(Failed(why)))
  }

  // ---- One operation of the publisher -------------------------------------------------------

  function Claim(d: Disk, plan: Plan, mine: Lock, alive: set<nat>, reclaimed: bool): Sys {
    if d.lock.None? then Sys(d.(lock := Some(mine)), Forward(plan, mine, Recheck))
    else
      var l := d.lock.value;
      if l.project != plan.projectIdentity || l.host != mine.host then Sys(d, Idle(Failed(UntrustedLock)))
      else if d.journal.Some? then Sys(d, Idle(Failed(OrphanControlState)))
      else if l.pid in alive then Sys(d, Idle(Failed(ActiveWriter)))
      else if reclaimed then Sys(d, Idle(Failed(UntrustedLock)))
      else Sys(d.(lock := None), Opening(plan, mine, alive, true))
  }

  function AfterSeal(phase: Phase): Point {
    match phase
    case Prepared => Draft(Publishing)
    case Publishing => Move(0)
    case Published => Ask
    case Committed => SweepTemp
    case RollingBack => Recheck
  }

  function MoveStep(d: Disk, plan: Plan, mine: Lock, i: nat): Sys {
    var ts := plan.Transitions();
    if i >= |ts| then Sys(d, Forward(plan, mine, Draft(Published)))
    else if !ts[i].Changes() then Sys(d, Forward(plan, mine, Move(i + 1)))
    else if ts[i].prior.Absent? then Sys(d, Forward(plan, mine, Place(i)))
    else if At(d.live, ts[i].path).Absent? then
      Abort(d, Forward(plan, mine, Move(i)), FilesystemUnsupported)
    else
      Sys(d.(backup := Put(d.backup, ts[i].path, At(d.live, ts[i].path)), live := Put(d.live, ts[i].path, Absent)),
          Forward(plan, mine, Place(i)))
  }

  function PlaceStep(d: Disk, plan: Plan, mine: Lock, i: nat): Sys {
    var ts := plan.Transitions();
    if i >= |ts| || ts[i].next.Absent? || ts[i].stagedPath.None? then Sys(d, Forward(plan, mine, Move(i + 1)))
    else
      var staged := ts[i].stagedPath.value;
      if At(d.stage, staged).Absent? then Abort(d, Forward(plan, mine, Place(i)), FilesystemUnsupported)
      else
        Sys(d.(live := Put(d.live, ts[i].path, At(d.stage, staged)), stage := Put(d.stage, staged, Absent)),
            Forward(plan, mine, Move(i + 1)))
  }

  function ForwardStep(d: Disk, plan: Plan, mine: Lock, at: Point): Sys {
    var here := Forward(plan, mine, at);
    match at
    case Recheck =>
      if !StagedStatesOk(d, plan) then Abort(d, here, UnexpectedStagedState)
      else if !NoUndeclaredStage(d, plan) then Abort(d, here, UndeclaredStagedEntry)
      else if !AllPrior(d, plan) then Abort(d, here, UnexpectedLiveState)
      else Sys(d, Forward(plan, mine, Draft(Prepared)))
    case Draft(phase) =>
      if phase.Prepared? && d.journal.Some? then Abort(d, here, OrphanControlState)
      else if d.temp.Some? then Abort(d, here, ControlPathCollision)
      else Sys(d.(temp := Some(Journal(plan, mine.transaction, phase))), Forward(plan, mine, Seal(phase)))
    case Seal(phase) =>
      if d.temp.None? then Abort(d, here, FilesystemUnsupported)
      else Sys(d.(journal := d.temp, temp := None), Forward(plan, mine, AfterSeal(phase)))
    case Move(i) => MoveStep(d, plan, mine, i)
    case Place(i) => PlaceStep(d, plan, mine, i)
    case Ask => Sys(d, here)
    case Confirm =>
      if AllNext(d, plan) then Sys(d, Forward(plan, mine, Draft(Committed)))
      else Abort(d, here, UnexpectedLiveState)
    case SweepTemp => Sys(d.(temp := None), Forward(plan, mine, SweepWork))
    case SweepWork =>
      if d.backup.Keys == {} then Sys(d, Forward(plan, mine, SweepLock)) else Sys(d, here)
    case SweepLock =>
      if d.lock.None? then Sys(d, Forward(plan, mine, SweepJournal))
      else if d.lock != Some(mine) then Abort(d, here, UntrustedLock)
      else Sys(d.(lock := None), Forward(plan, mine, SweepJournal))
    case SweepJournal => Sys(d.(journal := None), Idle(PublishedPlan(plan)))
  }

  // lock.release() of the pre-journal error path.
  function ReleaseStep(d: Disk, mine: Lock, why: Failure): Sys {
    if d.lock.None? then Sys(d, Idle(Failed(why)))
    else if d.lock != Some(mine) then Sys(d, Idle(Failed(UntrustedLock)))
    else Sys(d.(lock := None), Idle(Failed(why)))
  }

  // ---- One operation of recovery ------------------------------------------------------------

  function RecoverStep(d: Disk, j: Journal, owner: Option<Lock>, decision: Decision): Sys {
    var here := Recovering(j, owner, decision);
    match decision
    case AskPlan => Sys(d, here)
    case AskIntended => Sys(d, here)
    case Resume =>
      if owner.None? then
        if AllPrior(d, j.plan) || AllNext(d, j.plan) then Sys(d, Recovering(j, None, DropJournal(AllNext(d, j.plan))))
        else Sys(d, Idle(Failed(RecoveryConflict)))
      else if d.lock.None? || d.journal.None? then Sys(d, Idle(Failed(OrphanControlState)))
      else if d.lock != owner || d.journal != Some(j) then Sys(d, Idle(Failed(RecoveryConflict)))
      else if j.phase.Committed? then
        if AllPrior(d, j.plan) || AllNext(d, j.plan) then
          Sys(d, Settling(j, owner.value, if AllNext(d, j.plan) then CommittedPlan(j.plan) else RolledBack(j.plan), CleanTemp))
        else Sys(d, Idle(Failed(RecoveryConflict)))
      else if AllNext(d, j.plan) then Sys(d, Recovering(j, owner, AskIntended))
      else Sys(d, Settling(j, owner.value, RolledBack(j.plan), BeginRollback(j)))
    case ConfirmIntended =>
      if owner.None? then Sys(d, here)
      else if AllNext(d, j.plan) then Sys(d, Settling(j, owner.value, CommittedPlan(j.plan), Write(Committed)))
      else Sys(d, Settling(j, owner.value, RolledBack(j.plan), BeginRollback(j)))
    case DropJournal(committed) =>
      if d.journal.None? then Sys(d, Idle(Failed(OrphanControlState)))
      else if d.journal != Some(j) then Sys(d, Idle(Failed(RecoveryConflict)))
      else Sys(d.(journal := None), Idle(if committed then CommittedPlan(j.plan) else RolledBack(j.plan)))
  }

  // rollbackTransition up to and including the removal of the next file.
  function ReverseStep(d: Disk, j: Journal, l: Lock, v: Outcome, remaining: nat): Sys {
    var ts := j.plan.Transitions();
    if remaining == 0 || remaining > |ts| then Sys(d, Settling(j, l, v, CheckPrior))
    else
      var t := ts[remaining - 1];
      var live := At(d.live, t.path);
      var backup := At(d.backup, t.path);
      var done := Settling(j, l, v, Reverse(remaining - 1));
      var conflict := Sys(d, Idle(Failed(RecoveryConflict)));
      if !t.Changes() then
        if live == t.prior then Sys(d, done) else conflict
      else if t.prior.Absent? then
        if backup.File? then conflict
        else if live == t.next then Sys(d.(live := Put(d.live, t.path, Absent)), done)
        else if live.Absent? then Sys(d, done)
        else conflict
      else if live == t.prior && backup.Absent? then Sys(d, done)
      else if backup != t.prior then conflict
      else if live == t.next && live.File? then
        Sys(d.(live := Put(d.live, t.path, Absent)), Settling(j, l, v, Restore(remaining)))
      else if live.Absent? then Sys(d, Settling(j, l, v, Restore(remaining)))
      else conflict
  }

  function RestoreStep(d: Disk, j: Journal, l: Lock, v: Outcome, remaining: nat): Sys {
    var ts := j.plan.Transitions();
    if remaining == 0 || remaining > |ts| || At(d.backup, ts[remaining - 1].path).Absent? then
      Sys(d, Idle(Failed(FilesystemUnsupported)))
    else
      var path := ts[remaining - 1].path;
      Sys(d.(live := Put(d.live, path, At(d.backup, path)), backup := Put(d.backup, path, Absent)),
          Settling(j, l, v, Reverse(remaining - 1)))
  }

  function SettleStep(d: Disk, j: Journal, l: Lock, v: Outcome, s: Settlement): Sys {
    match s
    case Write(phase) =>
      if d.temp.Some? then Sys(d, Idle(Failed(ControlPathCollision)))
      else Sys(d.(temp := Some(j.(phase := phase))), Settling(j, l, v, Rename(phase)))
    case Rename(phase) =>
      if d.temp.None? then Sys(d, Idle(Failed(FilesystemUnsupported)))
      else
        Sys(d.(journal := d.temp, temp := None),
            Settling(j.(phase := phase), l, v, if phase.Committed? then CleanTemp else Reverse(|j.plan.Transitions()|)))
    case Reverse(remaining) => ReverseStep(d, j, l, v, remaining)
    case Restore(remaining) => RestoreStep(d, j, l, v, remaining)
    case CheckPrior =>
      if AllPrior(d, j.plan) then Sys(d, Settling(j, l, v, Write(Committed)))
      else Sys(d, Idle(Failed(RecoveryConflict)))
    case CleanTemp => Sys(d.(temp := None), Settling(j, l, v, CleanWork))
    case CleanWork =>
      if d.backup.Keys == {} then Sys(d, Settling(j, l, v, CleanLock)) else Sys(d, Settling(j, l, v, s))
    case CleanLock =>
      if d.lock.None? then Sys(d, Idle(Failed(OrphanControlState)))
      else if d.lock != Some(l) then Sys(d, Idle(Failed(RecoveryConflict)))
      else Sys(d.(lock := None), Settling(j, l, v, CleanJournal))
    case CleanJournal =>
      if d.journal.None? then Sys(d, Idle(Failed(OrphanControlState)))
      else if d.journal != Some(j) then Sys(d, Idle(Failed(RecoveryConflict)))
      else Sys(d.(journal := None), Idle(v))
  }

  // ---- The machine --------------------------------------------------------------------------

  function Act(s: Sys): Sys {
    match s.proc
    case Idle(_) => s
    case Opening(plan, mine, alive, reclaimed) => Claim(s.disk, plan, mine, alive, reclaimed)
    case Forward(plan, mine, at) => ForwardStep(s.disk, plan, mine, at)
    case Releasing(mine, why) => ReleaseStep(s.disk, mine, why)
    case Recovering(j, owner, decision) => RecoverStep(s.disk, j, owner, decision)
    case Settling(j, l, v, settlement) => SettleStep(s.disk, j, l, v, settlement)
  }

  function Answered(s: Sys, a: Answer): Sys {
    match s.proc
    case Forward(plan, mine, Ask) =>
      if a.Yes? then s.(proc := Forward(plan, mine, Confirm))
      else Abort(s.disk, s.proc, if a.No? then IntendedStateRejected else HostError)
    case Recovering(j, owner, AskPlan) =>
      if a.Yes? then s.(proc := Recovering(j, owner, Resume))
      else s.(proc := Idle(Failed(if a.No? then RecoveryConflict else HostError)))
    case Recovering(j, owner, AskIntended) =>
      if a.Yes? then s.(proc := Recovering(j, owner, ConfirmIntended))
      else if a.No? && owner.Some? then s.(proc := Settling(j, owner.value, RolledBack(j.plan), BeginRollback(j)))
      else s.(proc := Idle(Failed(HostError)))
    case _ => s
  }

  predicate Sweeping(p: Proc) {
    (p.Forward? && p.at.SweepWork?) || (p.Settling? && p.settlement.CleanWork?)
  }

  function Step(s: Sys, e: Event): Sys {
    match e
    case Publish(c, plan, transaction) =>
      if !s.proc.Idle? then s
      else if !Accepted(plan) then s.(proc := Idle(Failed(InvalidPlan)))
      else s.(proc := StartPublish(s.disk, c, plan, transaction))
    case Recover(c, root) =>
      if s.proc.Idle? then s.(proc := StartRecover(s.disk, c, root)) else s
    case Go => Act(s)
    case Sweep(path) =>
      if Sweeping(s.proc) then s.(disk := s.disk.(backup := s.disk.backup - {path})) else s
    case Reply(a) => Answered(s, a)
    case Exit => if s.proc.Idle? then s else s.(proc := Idle(Crashed))
    case IoError(applied) =>
      if s.proc.Idle? then s
      else Abort(if applied then Act(s).disk else s.disk, s.proc, FilesystemUnsupported)
    case EditLive(path, state) => s.(disk := s.disk.(live := Put(s.disk.live, path, state)))
    case EditStage(path, state) => s.(disk := s.disk.(stage := Put(s.disk.stage, path, state)))
  }

  function Run(s: Sys, es: seq<Event>): Sys
    decreases |es|
  {
    if es == [] then s else Run(Step(s, es[0]), es[1..])
  }

  lemma {:induction false} RunAppend(s: Sys, es: seq<Event>, fs: seq<Event>)
    ensures Run(s, es + fs) == Run(Run(s, es), fs)
    decreases |es|
  {
    if es == [] {
      assert es + fs == fs;
    } else {
      assert (es + fs)[0] == es[0] && (es + fs)[1..] == es[1..] + fs;
      RunAppend(Step(s, es[0]), es[1..], fs);
    }
  }

  // A project before its first transaction: any public and staged files, no control state.
  predicate Fresh(s: Sys) {
    s.proc.Idle? && s.disk.backup == map[] && s.disk.temp.None? && s.disk.journal.None? && s.disk.lock.None?
  }
}
