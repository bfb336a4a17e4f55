/**
 The promises of the artifact transaction over whole runs, the limits of those promises, and the exact
 conditions under which they hold.
 */
module ArtifactTheorems {
  import opened Wrappers
  import opened ArtifactPlan
  import opened ArtifactProtocol
  import opened ArtifactSafety
  import opened ArtifactNesting
  import opened ArtifactRecovery
  import opened ArtifactOutside

  // ---- Crash atomicity ----------------------------------------------------------------------------

  // A transition's recorded prior bytes are still live or still in the private backup.
  predicate PriorKept(d: Disk, t: Transition) {
    At(d.live, t.path) == t.prior || At(d.backup, t.path) == t.prior
  }

  // Every calm run of a fresh project - any publications and recoveries, a process exit before any step,
  // any host answers, I/O errors with or without effect - ends in a state in which the journal tells
  // the truth, no needed backup is gone, and a finished invocation left one exact generation.
  lemma CrashAtomicity(s: Sys, es: seq<Event>)
    requires Fresh(s) && s.proc == Idle(NeverStarted) && CalmRun(s, es)
    ensures var f := Run(s, es);
      && (f.disk.journal.None? ==> f.disk.backup == map[])
      && (f.disk.journal.Some? && !f.disk.journal.value.phase.Committed? ==>
            var ts := f.disk.journal.value.plan.Transitions();
            forall i :: 0 <= i < |ts| ==> PriorKept(f.disk, ts[i]))
      && (f.disk.journal.Some? && f.disk.journal.value.phase.Committed? ==>
            AllPrior(f.disk, f.disk.journal.value.plan) || AllNext(f.disk, f.disk.journal.value.plan))
      && (f.proc.Idle? ==> OutcomeOk(f.disk, f.proc.last))
  {
    RunKeeps(s, es);
    var f := Run(s, es);
    if f.disk.journal.Some? && !f.disk.journal.value.phase.Committed? {
      var ts := f.disk.journal.value.plan.Transitions();
      forall i | 0 <= i < |ts| ensures PriorKept(f.disk, ts[i]) {
        assert Restorable(f.disk, ts[i]);
      }
    }
  }

  // The commit marker is a truthful witness in every state of every calm run, forward and backward.
  lemma MarkerIsTruthful(s: Sys, es: seq<Event>)
    requires Fresh(s) && s.proc == Idle(NeverStarted) && CalmRun(s, es)
    ensures var d := Run(s, es).disk;
      d.journal.Some? && At(d.live, d.journal.value.plan.commitMarker.path) == d.journal.value.plan.commitMarker.next ==>
        AllNext(d, d.journal.value.plan)
  {
    RunKeeps(s, es);
    var d := Run(s, es).disk;
    if d.journal.Some? && d.journal.value.phase.Committed? && AllPrior(d, d.journal.value.plan) {
      var plan := d.journal.value.plan;
      assert plan.Transitions()[|plan.artifacts|] == plan.commitMarker;
    }
  }

  // ---- The lock -------------------------------------------------------------------------------------

  // The running invocation holds this lock and has come to its release.
  predicate Releases(p: Proc, l: Lock) {
    || (p.Forward? && p.mine == l && p.at.SweepLock?)
    || (p.Releasing? && p.mine == l)
    || (p.Settling? && p.holder == l && p.settlement.CleanLock?)
  }

  // A publication finds this lock of a writer of the same project and host that is dead, and no journal.
  predicate Reclaims(s: Sys, l: Lock) {
    && s.proc.Opening? && !s.proc.reclaimed && s.disk.journal.None?
    && l.project == s.proc.plan.projectIdentity && l.host == s.proc.mine.host && l.pid !in s.proc.alive
  }

  predicate Performs(e: Event) { e.Go? || (e.IoError? && e.applied) }

  // A lock on disk disappears or changes in exactly two ways: its holder releases it, or a publication
  // reclaims it.
  lemma LockAfterStep(s: Sys, e: Event, l: Lock)
    requires s.disk.lock == Some(l)
    ensures Step(s, e).disk.lock != Some(l) <==> Performs(e) && (Releases(s.proc, l) || Reclaims(s, l))
  {
    if Performs(e) { LockAfterAct(s, l); }
  }

  lemma LockAfterAct(s: Sys, l: Lock)
    requires s.disk.lock == Some(l)
    ensures Act(s).disk.lock != Some(l) <==> Releases(s.proc, l) || Reclaims(s, l)
  {
    if s.proc.Forward? {
      if s.proc.at.Move? { assert Act(s) == MoveStep(s.disk, s.proc.plan, s.proc.mine, s.proc.at.index); }
      else if s.proc.at.Place? { assert Act(s) == PlaceStep(s.disk, s.proc.plan, s.proc.mine, s.proc.at.index); }
    }
  }

  // ---- Exits at the named checkpoints ---------------------------------------------------------------

  // Between writing the journal's temporary file and renaming it; no checkpoint is named there.
  predicate InGap(p: Proc) {
    (p.Forward? && p.at.Seal?) || (p.Settling? && p.settlement.Rename?)
  }

  predicate Writes(p: Proc) {
    (p.Forward? && p.at.Draft?) || (p.Settling? && p.settlement.Write?)
  }

  predicate AtCheckpoint(s: Sys, e: Event) {
    && (e.Exit? || e.IoError? ==> !InGap(s.proc))
    && (e.IoError? && e.applied ==> !Writes(s.proc))
  }

  predicate CheckpointRun(s: Sys, es: seq<Event>)
    decreases |es|
  {
    es == [] || (AtCheckpoint(s, es[0]) && CheckpointRun(Step(s, es[0]), es[1..]))
  }

  predicate TempTidy(s: Sys) {
    s.disk.temp.Some? ==> InGap(s.proc)
  }

  lemma ForwardTempTidy(s: Sys)
    requires TempTidy(s) && s.proc.Forward?
    ensures TempTidy(Act(s))
    ensures !InGap(s.proc) && !Writes(s.proc) ==> Act(s).disk.temp.None?
  {
    if s.proc.at.Move? { assert Act(s) == MoveStep(s.disk, s.proc.plan, s.proc.mine, s.proc.at.index); }
    else if s.proc.at.Place? { assert Act(s) == PlaceStep(s.disk, s.proc.plan, s.proc.mine, s.proc.at.index); }
  }

  lemma SettleTempTidy(s: Sys)
    requires TempTidy(s) && s.proc.Settling?
    ensures TempTidy(Act(s))
    ensures !InGap(s.proc) && !Writes(s.proc) ==> Act(s).disk.temp.None?
  {
  }

  lemma StepTempTidy(s: Sys, e: Event)
    requires TempTidy(s) && AtCheckpoint(s, e)
    ensures TempTidy(Step(s, e))
  {
    if e == Go || e.IoError? {
      if s.proc.Forward? { ForwardTempTidy(s); }
      else if s.proc.Settling? { SettleTempTidy(s); }
    }
  }

  lemma {:induction false} RunTempTidy(s: Sys, es: seq<Event>)
    requires TempTidy(s) && CheckpointRun(s, es)
    ensures TempTidy(Run(s, es))
    decreases |es|
  {
    if es != [] {
      StepTempTidy(s, es[0]);
      RunTempTidy(Step(s, es[0]), es[1..]);
    }
  }

  // If processes stop only at checkpoints and live paths are legible, every admitted recovery completes: it
  // finalises exactly when the tree is the complete intended one and the host admits it, and restores
  // prior otherwise.
  lemma CheckpointExitsRecover(s: Sys, es: seq<Event>, c: Caller, root: string, intended: Answer)
    requires Fresh(s) && s.proc == Idle(NeverStarted) && CalmRun(s, es) && CheckpointRun(s, es) && InspectedRun(s, es)
    requires Run(s, es).proc.Idle? && LetIn(Run(s, es).disk, c, root)
    requires intended.Yes? || intended.No?
    ensures CrashOk(Run(s, es).disk)
    ensures var d := Run(s, es).disk;
            var j := d.journal.value;
            var f := Finish(Sys(d, StartRecover(d, c, root)), Yes, intended);
            && (f.proc.last == CommittedPlan(j.plan) || f.proc.last == RolledBack(j.plan))
            && OutcomeOk(f.disk, f.proc.last)
            && (!j.phase.Committed? ==> (f.proc.last == CommittedPlan(j.plan) <==> AllNext(d, j.plan) && intended.Yes?))
  {
    RunLegible(s, es);
    RunTempTidy(s, es);
    TidyRecovers(Run(s, es).disk, c, root, intended);
  }

  lemma TidyRecovers(d: Disk, c: Caller, root: string, intended: Answer)
    requires CrashOk(d) && LetIn(d, c, root) && Readable(d.live, d.journal.value.plan)
    requires d.temp.None? && (intended.Yes? || intended.No?)
    ensures var j := d.journal.value;
            var f := Finish(Sys(d, StartRecover(d, c, root)), Yes, intended);
            && (f.proc.last == CommittedPlan(j.plan) || f.proc.last == RolledBack(j.plan))
            && OutcomeOk(f.disk, f.proc.last)
            && (!j.phase.Committed? ==> (f.proc.last == CommittedPlan(j.plan) <==> AllNext(d, j.plan) && intended.Yes?))
  {
    RecoveryDecides(d, c, root, Yes, intended);
  }

  // ---- A publication that nobody disturbs ----------------------------------------------------------

  ghost function Proceed(s: Sys): Event {
    if s.proc.Forward? && s.proc.at.Ask? then Reply(Yes)
    else if Sweeping(s.proc) && s.disk.backup.Keys != {} then var q :| q in s.disk.backup.Keys; Sweep(q)
    else Go
  }

  predicate ForwardReady(s: Sys) {
    && Inv(s) && s.proc.Forward? && s.proc.at != Recheck && !s.proc.at.SweepJournal?
    && (s.proc.at == Draft(Prepared) ==> s.disk.journal.None?)
    && (s.disk.temp.Some? ==> s.proc.at.Seal?)
  }

  function ForwardRank(plan: Plan, at: Point): nat {
    var n := |plan.Transitions()|;
    match at
    case Recheck => 2 * n + 40
    case Draft(phase) =>
      (match phase
       case Prepared => 2 * n + 35
       case Publishing => 2 * n + 33
       case Published => 20
       case _ => 16)
    case Seal(phase) =>
      (match phase
       case Prepared => 2 * n + 34
       case Publishing => 2 * n + 32
       case Published => 19
       case _ => 15)
    case Move(i) => if i <= n then 2 * (n - i) + 22 else 22
    case Place(i) => if i < n then 2 * (n - i) + 21 else 23
    case Ask => 18
    case Confirm => 17
    case SweepTemp => 14
    case SweepWork => 13
    case SweepLock => 12
    case SweepJournal => 11
  }

  predicate Advances(s: Sys, f: Sys) {
    && s.proc.Forward? && f.proc.Forward? && f.proc.plan == s.proc.plan
    && f.proc.at != Recheck && !f.proc.at.SweepJournal?
    && (f.proc.at == Draft(Prepared) ==> f.disk.journal.None?)
    && (f.disk.temp.Some? ==> f.proc.at.Seal?)
    && (ForwardRank(s.proc.plan, f.proc.at) < ForwardRank(s.proc.plan, s.proc.at)
        || (f.proc.at == s.proc.at && |f.disk.backup| < |s.disk.backup|))
  }

  lemma MoveAdvances(s: Sys)
    requires ForwardReady(s) && s.proc.at.Move?
    ensures Advances(s, Act(s))
  {
    var at, plan := s.proc.at, s.proc.plan;
    assert Act(s) == MoveStep(s.disk, plan, s.proc.mine, at.index);
    if at.index < |plan.Transitions()| { assert Untouched(s.disk, plan.Transitions()[at.index]); }
  }

  lemma PlaceAdvances(s: Sys)
    requires ForwardReady(s) && s.proc.at.Place?
    ensures Advances(s, Act(s))
  {
    assert Act(s) == PlaceStep(s.disk, s.proc.plan, s.proc.mine, s.proc.at.index);
  }

  lemma DraftAdvances(s: Sys)
    requires ForwardReady(s) && s.proc.at.Draft?
    ensures Advances(s, Act(s))
  {
    var plan, mine, phase := s.proc.plan, s.proc.mine, s.proc.at.phase;
    assert Act(s) == Sys(s.disk.(temp := Some(Journal(plan, mine.transaction, phase))), Forward(plan, mine, Seal(phase)));
  }

  lemma SealAdvances(s: Sys)
    requires ForwardReady(s) && s.proc.at.Seal?
    ensures Advances(s, Act(s))
  {
    var plan, mine, phase := s.proc.plan, s.proc.mine, s.proc.at.phase;
    assert Act(s) == Sys(s.disk.(journal := s.disk.temp, temp := None), Forward(plan, mine, AfterSeal(phase)));
  }

  lemma ConfirmAdvances(s: Sys)
    requires ForwardReady(s) && s.proc.at.Confirm?
    ensures Advances(s, Act(s))
  {
    DoneIsNext(s.disk, s.proc.plan);
    assert Act(s).proc == Forward(s.proc.plan, s.proc.mine, Draft(Committed));
  }

  lemma SweepsOne(s: Sys, path: string)
    requires ForwardReady(s) && s.proc.at.SweepWork? && path in s.disk.backup.Keys
    ensures Advances(s, Step(s, Sweep(path)))
  {
    RemoveShrinks(s.disk.backup, path);
    assert Step(s, Sweep(path)) == Sys(s.disk.(backup := s.disk.backup - {path}), s.proc);
  }

  lemma SweptAll(s: Sys)
    requires ForwardReady(s) && s.proc.at.SweepWork? && s.disk.backup.Keys == {}
    ensures Advances(s, Act(s))
  {
    assert Act(s) == Sys(s.disk, Forward(s.proc.plan, s.proc.mine, SweepLock));
  }

  lemma SweepAdvances(s: Sys)
    requires ForwardReady(s) && s.proc.at.SweepWork?
    ensures Advances(s, Step(s, Proceed(s)))
  {
    if s.disk.backup.Keys != {} { SweepsOne(s, Proceed(s).path); } else { SweptAll(s); }
  }

  lemma AskAdvances(s: Sys)
    requires ForwardReady(s) && s.proc.at.Ask?
    ensures Advances(s, Step(s, Proceed(s)))
  {
    assert Step(s, Proceed(s)) == s.(proc := Forward(s.proc.plan, s.proc.mine, Confirm));
  }

  lemma TempAdvances(s: Sys)
    requires ForwardReady(s) && s.proc.at.SweepTemp?
    ensures Advances(s, Step(s, Proceed(s)))
  {
    assert Step(s, Proceed(s)) == Sys(s.disk.(temp := None), Forward(s.proc.plan, s.proc.mine, SweepWork));
  }

  lemma GoAdvances(s: Sys)
    requires ForwardReady(s) && !s.proc.at.SweepLock? && !s.proc.at.SweepWork? && !s.proc.at.Ask? && !s.proc.at.SweepTemp?
    ensures Advances(s, Act(s))
  {
    match s.proc.at
    case Move(_) => MoveAdvances(s);
    case Place(_) => PlaceAdvances(s);
    case Draft(_) => DraftAdvances(s);
    case Seal(_) => SealAdvances(s);
    case Confirm => ConfirmAdvances(s);
  }

  lemma ProceedIsGo(s: Sys)
    requires s.proc.Forward? && !s.proc.at.SweepWork? && !s.proc.at.Ask?
    ensures Step(s, Proceed(s)) == Act(s)
  {
  }

  lemma ProceedAdvances(s: Sys)
    requires ForwardReady(s) && !s.proc.at.SweepLock?
    ensures Advances(s, Step(s, Proceed(s)))
  {
    match s.proc.at
    case SweepWork => SweepAdvances(s);
    case Ask => AskAdvances(s);
    case SweepTemp => TempAdvances(s);
    case _ =>
      ProceedIsGo(s);
      GoAdvances(s);
  }

  lemma ProceedReady(s: Sys)
    requires ForwardReady(s) && !s.proc.at.SweepLock?
    ensures Calm(s, Proceed(s)) && ForwardReady(Step(s, Proceed(s))) && Advances(s, Step(s, Proceed(s)))
  {
    StepKeeps(s, Proceed(s));
    ProceedAdvances(s);
  }

  // It passes every control point and reaches the release of its lock with all backups removed.
  lemma {:induction false} PublishReaches(s: Sys) returns (es: seq<Event>)
    requires ForwardReady(s)
    ensures CalmRun(s, es) && ForwardReady(Run(s, es))
    ensures Run(s, es).proc.at == SweepLock && Run(s, es).proc.plan == s.proc.plan
    ensures Undisturbed(es)
    decreases ForwardRank(s.proc.plan, s.proc.at), |s.disk.backup|
  {
    if s.proc.at.SweepLock? {
      es := [];
    } else {
      ProceedReady(s);
      var e := Proceed(s);
      var rest := PublishReaches(Step(s, e));
      es := [e] + rest;
      assert es[0] == e && es[1..] == rest;
    }
  }

  // The staged tree and the live tree the host authorised, and no live path inside another one.
  predicate Authorised(d: Disk, plan: Plan) {
    && Accepted(plan) && AllPrior(d, plan) && StagedStatesOk(d, plan) && NoUndeclaredStage(d, plan)
    && Readable(d.live, plan)
  }

  lemma {:induction false} UndisturbedInspected(s: Sys, es: seq<Event>)
    requires Undisturbed(es)
    ensures InspectedRun(s, es)
    decreases |es|
  {
    if es != [] {
      assert es[0] in es && forall e :: e in es[1..] ==> e in es;
      UndisturbedInspected(Step(s, es[0]), es[1..]);
    }
  }

  lemma {:induction false} CalmAppend(s: Sys, es: seq<Event>, fs: seq<Event>)
    requires CalmRun(s, es) && CalmRun(Run(s, es), fs)
    ensures CalmRun(s, es + fs)
    decreases |es|
  {
    if es == [] {
      assert es + fs == fs;
    } else {
      assert (es + fs)[0] == es[0] && (es + fs)[1..] == es[1..] + fs;
      CalmAppend(Step(s, es[0]), es[1..], fs);
    }
  }

  // The first three steps of a publication: lock and second check.
  lemma PublishStarts(s: Sys, c: Caller, plan: Plan, transaction: nat) returns (s3: Sys)
    requires Fresh(s) && s.proc == Idle(NeverStarted) && Authorised(s.disk, plan)
    ensures CalmRun(s, [Publish(c, plan, transaction), Go, Go]) && s3 == Run(s, [Publish(c, plan, transaction), Go, Go])
    ensures ForwardReady(s3) && s3.proc.plan == plan && s3.proc.at == Draft(Prepared)
    ensures s3.proc.mine.transaction == transaction && s3.disk.temp.None?
    ensures s3.disk.lock == Some(Lock(plan.projectIdentity, c.host, c.pid, transaction))
  {
    var s1 := Step(s, Publish(c, plan, transaction));
    var s2 := Step(s1, Go);
    s3 := Step(s2, Go);
    StepKeeps(s, Publish(c, plan, transaction));
    StepKeeps(s1, Go);
    StepKeeps(s2, Go);
    assert s2.disk.live == s.disk.live && s2.disk.stage == s.disk.stage;
    assert AllPrior(s2.disk, plan) && StagedStatesOk(s2.disk, plan) && NoUndeclaredStage(s2.disk, plan);
    ThreeSteps(s, Publish(c, plan, transaction), Go, Go);
  }

  lemma ThreeSteps(s: Sys, a: Event, b: Event, c: Event)
    ensures Run(s, [a, b, c]) == Step(Step(Step(s, a), b), c)
    ensures Calm(s, a) && Calm(Step(s, a), b) && Calm(Step(Step(s, a), b), c) ==> CalmRun(s, [a, b, c])
  {
    var s1, s2 := Step(s, a), Step(Step(s, a), b);
    OneMore(s2, c, []);
    OneMore(s1, b, [c]);
    OneMore(s, a, [b, c]);
    assert [c] + [] == [c] && [b] + [c] == [b, c] && [a] + [b, c] == [a, b, c];
  }

  lemma OneMore(s: Sys, e: Event, rest: seq<Event>)
    ensures Run(s, [e] + rest) == Run(Step(s, e), rest)
    ensures CalmRun(s, [e] + rest) <==> Calm(s, e) && CalmRun(Step(s, e), rest)
  {
    assert ([e] + rest)[0] == e && ([e] + rest)[1..] == rest;
  }

  // Its last two: the lock, then the journal.
  lemma PublishEnds(f: Sys)
    requires ForwardReady(f) && f.proc.at == SweepLock
    ensures CalmRun(f, [Go, Go])
    ensures var g := Run(f, [Go, Go]);
            g.proc == Idle(PublishedPlan(f.proc.plan)) && AllNext(g.disk, f.proc.plan) && ControlGone(g.disk)
  {
    var g := Step(f, Go);
    StepKeeps(f, Go);
    StepKeeps(g, Go);
    assert [Go, Go][1..] == [Go] && [Go][1..] == [];
    assert Run(f, [Go, Go]) == Run(g, [Go]) == Step(g, Go);
    assert CalmRun(g, [Go]);
  }

  // Every authorised plan can be published from a fresh project, and every path that has to be read on the
  // way is legible; just before the lock is released the live tree is complete and the work directory empty.
  lemma PublishSucceeds(s: Sys, c: Caller, plan: Plan, transaction: nat) returns (es: seq<Event>, before: seq<Event>)
    requires Fresh(s) && s.proc == Idle(NeverStarted) && Authorised(s.disk, plan)
    ensures CalmRun(s, before) && ForwardReady(Run(s, before)) && Run(s, before).proc.at == SweepLock
    ensures Run(s, before).proc.plan == plan
    ensures es == before + [Go, Go] && CalmRun(s, es) && InspectedRun(s, es)
    ensures Run(s, es).proc == Idle(PublishedPlan(plan)) && AllNext(Run(s, es).disk, plan) && ControlGone(Run(s, es).disk)
  {
    var start := [Publish(c, plan, transaction), Go, Go];
    var s3 := PublishStarts(s, c, plan, transaction);
    var rest := PublishReaches(s3);
    before := start + rest;
    CalmAppend(s, start, rest);
    RunAppend(s, start, rest);
    es := before + [Go, Go];
    PublishEnds(Run(s, before));
    CalmAppend(s, before, [Go, Go]);
    RunAppend(s, before, [Go, Go]);
    assert es[1..] == [Go, Go] + rest + [Go, Go];
    UndisturbedInspected(Step(s, es[0]), es[1..]);
  }
}
