/**
 What a session reports. From the log alone a listener learns the phase, the newest revision and the build in
 progress; every build has one end; and failures, overtaken candidates and the end of the session are
 reported exactly when they happen.
 */
module SessionReports {
  import opened Wrappers
  import opened DevelopmentSession
  import DirtyLoop

  // ---- Reading the log --------------------------------------------------------------------------------

  // A build as the log tells it, with the candidate that it has generated.
  datatype Told = Told(revision: nat, tree: Option<Tree>)

  datatype View = View(phase: Phase, newest: nat, build: Option<Told>, ended: bool)

  function ReadPhaseOf(v: View, f: Failure): bool {
    v.phase == Blocked(f) || (v.phase.Degraded? && v.phase.failure == f)
  }

  // One record; None when it does not fit what was reported before.
  function Read(v: View, b: Body): Option<View> {
    if v.ended then None
    else
      match b
      case StateChanged(p) => Some(v.(phase := p))
      case InputsChanged(r) => if r == v.newest + 1 then Some(v.(newest := r)) else None
      case BuildStarted(r) =>
        if v.build.None? && v.phase.Building? && v.phase.revision == r then Some(v.(build := Some(Told(r, None)))) else None
      case CandidateGenerated(r, tree) =>
        if v.build == Some(Told(r, None)) then Some(v.(build := Some(Told(r, Some(tree))))) else None
      case CandidateSuperseded(r, n) =>
        if v.build.Some? && v.build.value.revision == r < n == v.newest then Some(v.(build := None)) else None
      case Failed(f) =>
        if !ReadPhaseOf(v, f) then None
        else if f.phase.Watch? then Some(v)
        else if v.build.Some? && f.revision == Some(v.build.value.revision)
                && (v.build.value.tree.Some? <==> f.phase.Validate? || f.phase.Publish?) then Some(v.(build := None))
        else None
      case GenerationAccepted(g) =>
        if v.phase == Ready(g) && v.build == Some(Told(g.revision, Some(g.tree))) then Some(v.(build := None)) else None
      case SessionClosed => if v.phase.Closed? then Some(v.(ended := true)) else None
  }

  function ReadLog(v: View, log: seq<Record>): Option<View>
    decreases |log|
  {
    if log == [] then Some(v)
    else
      var u := ReadLog(v, log[..|log| - 1]);
      if u.None? then None else Read(u.value, log[|log| - 1].body)
  }

  function TreeOf(stage: Stage): Option<Tree> {
    match stage
    case Compiling => None
    case Validating(tree) => Some(tree)
    case Admitted(tree) => Some(tree)
    case Publishing(tree) => Some(tree)
  }

  function ToldOf(build: Option<Build>): Option<Told> {
    if build.None? then None else Some(Told(build.value.cause.revision, TreeOf(build.value.stage)))
  }

  // A listener that joins before startup; a generation taken over from disk counts as a candidate.
  function AtStart(existing: Option<Generation>): View {
    View(Opening, (if existing.Some? then existing.value.revision else 0) + 1,
         if existing.Some? then Some(Told(existing.value.revision, Some(existing.value.tree))) else None, false)
  }

  ghost predicate Fits(v: View, s: Session) {
    && v.phase == s.phase && v.newest == s.newestRevision && v.ended == s.phase.Closed?
    && (!s.core.closing || s.core.build.Some? ==> v.build == ToldOf(s.core.build))
    && (s.core.closing ==> s.pending.None?)
    && (s.phase.Closed? ==> s.core.closing && s.core.build.None?)
  }

  ghost predicate Tells(v0: View, s: Session) {
    Inv(s) && ReadLog(v0, s.trail.log).Some? && Fits(ReadLog(v0, s.trail.log).value, s)
  }

  lemma ReadEmit(v0: View, t: Trail, b: Body)
    requires ReadLog(v0, t.log).Some?
    ensures ReadLog(v0, Append(t, b).log) == Read(ReadLog(v0, t.log).value, b)
  {
    assert Append(t, b).log[..|t.log|] == t.log;
  }

  // The records that a step adds, in order.
  function AppendAll(t: Trail, bs: seq<Body>): Trail
    decreases |bs|
  {
    if bs == [] then t else AppendAll(Append(t, bs[0]), bs[1..])
  }

  function ReadAll(v: View, bs: seq<Body>): Option<View>
    decreases |bs|
  {
    if bs == [] then Some(v)
    else
      var u := Read(v, bs[0]);
      if u.None? then None else ReadAll(u.value, bs[1..])
  }

  lemma {:induction false} ReadAppended(v0: View, t: Trail, bs: seq<Body>)
    requires ReadLog(v0, t.log).Some?
    requires ReadAll(ReadLog(v0, t.log).value, bs).Some?
    ensures ReadLog(v0, AppendAll(t, bs).log) == ReadAll(ReadLog(v0, t.log).value, bs)
    decreases |bs|
  {
    if bs != [] {
      ReadEmit(v0, t, bs[0]);
      ReadAppended(v0, Append(t, bs[0]), bs[1..]);
    }
  }

  lemma OneBody(t: Trail, a: Body)
    ensures AppendAll(t, [a]) == Append(t, a)
    ensures forall v: View :: ReadAll(v, [a]) == Read(v, a)
  {
    assert [a][1..] == [];
    assert AppendAll(Append(t, a), []) == Append(t, a);
    forall v: View ensures ReadAll(v, [a]) == Read(v, a) {
      if Read(v, a).Some? { assert ReadAll(Read(v, a).value, []) == Some(Read(v, a).value); }
    }
  }

  lemma TwoBodies(t: Trail, a: Body, b: Body)
    ensures AppendAll(t, [a, b]) == Append(Append(t, a), b)
    ensures forall v: View :: Read(v, a).Some? ==> ReadAll(v, [a, b]) == Read(Read(v, a).value, b)
  {
    assert [a, b][1..] == [b];
    OneBody(Append(t, a), b);
  }

  // ---- What each event reports --------------------------------------------------------------------------

  // A throw, with the phase it is reported in.
  function Throws(s: Session, e: Event): Option<FailurePhase>
    requires s.core.build.Some?
  {
    var b := s.core.build.value;
    match e
    case StepThrows(late) => if b.stage.Publishing? then None else Some(ThrownIn(b, late))
    case BeginPublish => if b.stage.Admitted? && !DiskAsRecorded(s.core) then Some(Publish) else None
    case EndPublish(outcome) => if b.stage.Publishing? && outcome.Threw? then Some(Publish) else None
    case _ => None
  }

  // A refusal by the host's preparation or by its validator.
  function Rejects(s: Session, e: Event): Option<FailurePhase>
    requires s.core.build.Some?
  {
    var b := s.core.build.value;
    if e.PreparationRejected? && b.stage.Compiling? then Some(Compile)
    else if e == ValidatorAnswers(false) && b.stage.Validating? then Some(Validate)
    else None
  }

  // The build would go on, but for a newer change.
  predicate Overtakes(s: Session, e: Event)
    requires s.core.build.Some?
  {
    var b := s.core.build.value;
    || (e == ValidatorAnswers(true) && b.stage.Validating?)
    || (e == BeginPublish && b.stage.Admitted?)
    || Throws(s, e).Some?
  }

  function FailureOf(s: Session, phase: FailurePhase): Failure
    requires s.core.build.Some?
  {
    Failure(phase, Some(s.core.build.value.cause.revision), true, s.Accepted())
  }

  function PhaseAfter(s: Session, f: Failure): Phase {
    if s.Accepted().None? then Blocked(f) else Degraded(s.Accepted().value, f)
  }

  predicate Overtaken(s: Session)
    requires s.core.build.Some?
  {
    s.core.build.value.cause.revision < s.core.newestRebuildRevision
  }

  lemma FailReports(s: Session, phase: FailurePhase, revision: Option<nat>, recoverable: bool)
    requires !s.core.closing
    ensures var f := Failure(phase, revision, recoverable, s.Accepted());
            var t := Fail(s, phase, revision, recoverable);
            t == s.(phase := PhaseAfter(s, f), trail := AppendAll(s.trail, [StateChanged(PhaseAfter(s, f)), Failed(f)]))
  {
    var f := Failure(phase, revision, recoverable, s.Accepted());
    TwoBodies(s.trail, StateChanged(PhaseAfter(s, f)), Failed(f));
  }

  lemma SupersedeReports(s: Session, revision: nat)
    ensures var t := Supersede(s, revision);
            && t.trail == AppendAll(s.trail, [CandidateSuperseded(revision, s.newestRevision)])
            && t.phase == s.phase && t.core == s.core.(build := None)
            && t.newestRevision == s.newestRevision && t.pending == s.pending
  {
    OneBody(s.trail, CandidateSuperseded(revision, s.newestRevision));
  }

  // How a build that is not closed down ends other than by an acceptance.
  lemma FailedEnd(s: Session, e: Event, phase: FailurePhase)
    requires s.core.build.Some? && !s.core.closing
    requires Rejects(s, e) == Some(phase) || (Throws(s, e) == Some(phase) && !Overtaken(s))
    ensures var f, t := FailureOf(s, phase), Step(s, e);
            && t.trail == AppendAll(s.trail, [StateChanged(PhaseAfter(s, f)), Failed(f)])
            && t.phase == PhaseAfter(s, f) && t.core.build.None? && t.core.ledger == s.core.ledger
            && t.newestRevision == s.newestRevision && t.pending == s.pending && !t.core.closing
  {
    FailReports(s, phase, Some(s.core.build.value.cause.revision), true);
    if e.EndPublish? {
      FailReports(s.(core := s.core.(disk := e.outcome.disk)), phase, Some(s.core.build.value.cause.revision), true);
    }
  }

  lemma OvertakenEnd(s: Session, e: Event)
    requires s.core.build.Some? && !s.core.closing && Overtakes(s, e) && Overtaken(s)
    ensures var t := Step(s, e);
            && t.trail == AppendAll(s.trail, [CandidateSuperseded(s.core.build.value.cause.revision, s.newestRevision)])
            && t.phase == s.phase && t.core.build.None? && t.core.ledger == s.core.ledger
            && t.newestRevision == s.newestRevision && t.pending == s.pending && !t.core.closing
  {
    SupersedeReports(s, s.core.build.value.cause.revision);
    if e.EndPublish? {
      SupersedeReports(s.(core := s.core.(disk := e.outcome.disk)), s.core.build.value.cause.revision);
    }
  }

  lemma FailedTells(v0: View, s: Session, e: Event, phase: FailurePhase)
    requires Tells(v0, s) && s.core.build.Some? && !s.core.closing
    requires Rejects(s, e) == Some(phase) || (Throws(s, e) == Some(phase) && !Overtaken(s))
    ensures Tells(v0, Step(s, e))
  {
    var f := FailureOf(s, phase);
    StepKeeps(s, e);
    FailedEnd(s, e, phase);
    TwoBodies(s.trail, StateChanged(PhaseAfter(s, f)), Failed(f));
    ReadAppended(v0, s.trail, [StateChanged(PhaseAfter(s, f)), Failed(f)]);
  }

  lemma OvertakenTells(v0: View, s: Session, e: Event)
    requires Tells(v0, s) && s.core.build.Some? && !s.core.closing && Overtakes(s, e) && Overtaken(s)
    ensures Tells(v0, Step(s, e))
  {
    var b := CandidateSuperseded(s.core.build.value.cause.revision, s.newestRevision);
    StepKeeps(s, e);
    OvertakenEnd(s, e);
    OneBody(s.trail, b);
    ReadAppended(v0, s.trail, [b]);
  }

  lemma ObserveTells(v0: View, s: Session, path: string, impact: Impact)
    requires Tells(v0, s)
    ensures Tells(v0, OnObserve(s, path, impact))
  {
    ObserveKeeps(s, path, impact);
    if !s.core.closing { ReadEmit(v0, s.trail, InputsChanged(s.newestRevision + 1)); }
  }

  lemma ReplannedTells(v0: View, s: Session, path: string)
    requires Tells(v0, s) && s.core.build.Some? && s.core.build.value.stage.Compiling? && !s.core.closing
    ensures Tells(v0, Step(s, Replanned(path)))
  {
    var t := OnObserve(s, path, Impact(true, true, true));
    StepKeeps(s, Replanned(path));
    ObserveTells(v0, s, path, Impact(true, true, true));
    SupersedeReports(t, s.core.build.value.cause.revision);
    var b := CandidateSuperseded(s.core.build.value.cause.revision, t.newestRevision);
    OneBody(t.trail, b);
    ReadAppended(v0, t.trail, [b]);
  }

  lemma StartReports(s: Session)
    requires s.core.build.None? && s.pending.Some? && s.pending.value.rebuild && !s.core.closing
    ensures var c, t := s.pending.value, OnStartBuild(s);
            && t.trail == AppendAll(s.trail, [StateChanged(Building(c.revision, s.Accepted())), BuildStarted(c.revision)])
            && t.phase == Building(c.revision, s.Accepted()) && t.pending.None?
            && t.core == s.core.(build := Some(Build(c, Compiling))) && t.newestRevision == s.newestRevision
  {
    TwoBodies(s.trail, StateChanged(Building(s.pending.value.revision, s.Accepted())), BuildStarted(s.pending.value.revision));
  }

  lemma StartTells(v0: View, s: Session)
    requires Tells(v0, s)
    ensures Tells(v0, OnStartBuild(s))
  {
    StartKeeps(s);
    if s.core.build.None? && s.pending.Some? && s.pending.value.rebuild && !s.core.closing {
      var c := s.pending.value;
      StartReports(s);
      TwoBodies(s.trail, StateChanged(Building(c.revision, s.Accepted())), BuildStarted(c.revision));
      ReadAppended(v0, s.trail, [StateChanged(Building(c.revision, s.Accepted())), BuildStarted(c.revision)]);
    }
  }

  lemma WatchTells(v0: View, s: Session)
    requires Tells(v0, s)
    ensures Tells(v0, Step(s, ObserveEscape))
  {
    StepKeeps(s, ObserveEscape);
    if !s.core.closing {
      var f := Failure(Watch, Newest(s), false, s.Accepted());
      FailReports(s, Watch, Newest(s), false);
      TwoBodies(s.trail, StateChanged(PhaseAfter(s, f)), Failed(f));
      ReadAppended(v0, s.trail, [StateChanged(PhaseAfter(s, f)), Failed(f)]);
    }
  }

  lemma GenerateTells(v0: View, s: Session, tree: Tree)
    requires Tells(v0, s) && s.core.build.Some? && s.core.build.value.stage.Compiling? && !s.core.closing
    ensures Tells(v0, Step(s, Generate(tree)))
  {
    StepKeeps(s, Generate(tree));
    ReadEmit(v0, s.trail, CandidateGenerated(s.core.build.value.cause.revision, tree));
  }

  lemma PublishedTells(v0: View, s: Session)
    requires Tells(v0, s) && s.core.build.Some? && s.core.build.value.stage.Publishing?
    ensures Tells(v0, Step(s, EndPublish(Published)))
  {
    var g := NextGeneration(s.core);
    StepKeeps(s, EndPublish(Published));
    PublishedReports(s);
    if s.core.closing {
      OneBody(s.trail, StateChanged(Ready(g)));
      ReadAppended(v0, s.trail, [StateChanged(Ready(g))]);
    } else {
      TwoBodies(s.trail, StateChanged(Ready(g)), GenerationAccepted(g));
      ReadAppended(v0, s.trail, [StateChanged(Ready(g)), GenerationAccepted(g)]);
    }
  }

  lemma PublishedReports(s: Session)
    requires s.core.build.Some? && s.core.build.value.stage.Publishing?
    ensures var g, t := NextGeneration(s.core), Step(s, EndPublish(Published));
            && t.trail == AppendAll(s.trail, if s.core.closing then [StateChanged(Ready(g))]
                                             else [StateChanged(Ready(g)), GenerationAccepted(g)])
            && t.phase == Ready(g) && t.core == Accept(s.core)
            && t.newestRevision == s.newestRevision && t.pending == s.pending
  {
    OneBody(s.trail, StateChanged(Ready(NextGeneration(s.core))));
    TwoBodies(s.trail, StateChanged(Ready(NextGeneration(s.core))), GenerationAccepted(NextGeneration(s.core)));
  }

  lemma CloseTells(v0: View, s: Session)
    requires Tells(v0, s)
    ensures Tells(v0, OnClose(s)) && Tells(v0, OnFinishClose(s))
  {
    CloseKeeps(s);
    if !s.core.closing { ReadEmit(v0, s.trail, StateChanged(Closing(s.Accepted()))); }
    if s.core.closing && s.core.build.None? && !s.phase.Closed? {
      TwoBodies(s.trail, StateChanged(Closed(s.Accepted())), SessionClosed);
      ReadAppended(v0, s.trail, [StateChanged(Closed(s.Accepted())), SessionClosed]);
    }
  }

  lemma ClosingBuildTells(v0: View, s: Session, e: Event)
    requires Tells(v0, s) && s.core.build.Some? && s.core.closing
    requires s.core.build.value.stage.Publishing? ==> e != EndPublish(Published)
    ensures Tells(v0, OnBuildStep(s, e)) && OnBuildStep(s, e).trail == s.trail
  {
    BuildStepKeeps(s, e);
  }

  // A step that neither ends the build nor generates its candidate.
  lemma QuietTells(v0: View, s: Session, e: Event)
    requires Tells(v0, s) && s.core.build.Some? && !s.core.closing
    requires Rejects(s, e).None? && (Overtakes(s, e) ==> !Overtaken(s)) && Throws(s, e).None?
    requires s.core.build.value.stage.Compiling? ==> !e.Generate? && !e.Replanned?
    requires s.core.build.value.stage.Publishing? ==> e != EndPublish(Published)
    ensures Tells(v0, OnBuildStep(s, e)) && OnBuildStep(s, e).trail == s.trail
  {
    BuildStepKeeps(s, e);
  }

  lemma BuildTells(v0: View, s: Session, e: Event)
    requires Tells(v0, s) && s.core.build.Some?
    requires InBuild(e)
    ensures Tells(v0, Step(s, e))
  {
    var stage := s.core.build.value.stage;
    if stage.Publishing? && e == EndPublish(Published) { PublishedTells(v0, s); }
    else if s.core.closing { ClosingBuildTells(v0, s, e); }
    else if Overtakes(s, e) && Overtaken(s) { OvertakenTells(v0, s, e); }
    else if Throws(s, e).Some? { FailedTells(v0, s, e, Throws(s, e).value); }
    else if Rejects(s, e).Some? { FailedTells(v0, s, e, Rejects(s, e).value); }
    else if stage.Compiling? && e.Generate? { GenerateTells(v0, s, e.tree); }
    else if stage.Compiling? && e.Replanned? { ReplannedTells(v0, s, e.path); }
    else { QuietTells(v0, s, e); }
  }

  lemma StepTells(v0: View, s: Session, e: Event)
    requires Tells(v0, s)
    ensures Tells(v0, Step(s, e))
  {
    match e
    case Observe(path, impact) => ObserveTells(v0, s, path, impact);
    case ObserveEscape => WatchTells(v0, s);
    case StartBuild => StartTells(v0, s);
    case Close => CloseTells(v0, s);
    case FinishClose => CloseTells(v0, s);
    case EditPublic(_) => StepKeeps(s, e);
    case _ => if s.core.build.Some? { BuildTells(v0, s, e); }
  }

  lemma {:induction false} RunTells(v0: View, s: Session, es: seq<Event>)
    requires Tells(v0, s)
    ensures Tells(v0, Run(s, es))
    decreases |es|
  {
    if es != [] {
      StepTells(v0, s, es[0]);
      RunTells(v0, Step(s, es[0]), es[1..]);
    }
  }

  lemma OpenedTells(existing: Option<Generation>, recorded: Option<Tree>)
    requires existing.Some? ==> recorded == Some(existing.value.tree)
    ensures Tells(AtStart(existing), Opened(existing, recorded))
  {
    OpenedIsGood(existing, recorded);
    if existing.Some? {
      var g, t := existing.value, Trail(0, []);
      assert ReadLog(AtStart(existing), t.log) == Some(AtStart(existing));
      TwoBodies(t, StateChanged(Ready(g)), GenerationAccepted(g));
      ReadAppended(AtStart(existing), t, [StateChanged(Ready(g)), GenerationAccepted(g)]);
    }
  }

  // Over every run, the log reads without contradiction: inputs are numbered one by one; a build starts only
  // when none is told of, generates at most one candidate, and has one end - overtaken by a newer revision,
  // failed in a phase before or after its candidate as the case may be, or accepted with the very candidate
  // that it generated; every failure and every acceptance is the phase reported just before; nothing
  // follows the end of the session. And what the log tells is the
  // truth about the phase, the newest revision and, until the session closes, the build in progress.
  lemma LogTellsAll(existing: Option<Generation>, recorded: Option<Tree>, es: seq<Event>)
    requires existing.Some? ==> recorded == Some(existing.value.tree)
    ensures var s := Run(Opened(existing, recorded), es);
            var v := ReadLog(AtStart(existing), s.trail.log);
            && v.Some? && v.value.phase == s.phase && v.value.newest == s.newestRevision
            && (v.value.ended <==> s.phase.Closed?)
            && (!s.core.closing ==> v.value.build == ToldOf(s.core.build))
  {
    OpenedTells(existing, recorded);
    RunTells(AtStart(existing), Opened(existing, recorded), es);
  }

  // ---- Which change overtook a build ----------------------------------------------------------------------

  // A change that needs a rebuild is observed, by a watcher or by the build itself.
  predicate Rebuilds(s: Session, e: Event) {
    && !s.core.closing
    && ((e.Observe? && e.impact.rebuild)
        || (e.Replanned? && s.core.build.Some? && s.core.build.value.stage.Compiling?))
  }

  // Some event of the run was such a change, of a revision above r.
  ghost predicate SeenAbove(s: Session, es: seq<Event>, r: nat) {
    exists k :: 0 <= k < |es| && Rebuilds(Run(s, es[..k]), es[k]) && Step(Run(s, es[..k]), es[k]).newestRevision > r
  }

  lemma RebuildStep(s: Session, e: Event)
    ensures Step(s, e).core.newestRebuildRevision
            == if Rebuilds(s, e) then Step(s, e).newestRevision else s.core.newestRebuildRevision
  {
  }

  lemma {:induction false} RebuildSeen(s: Session, es: seq<Event>, r: nat)
    requires Inv(s)
    ensures Run(s, es).core.newestRebuildRevision > r <==> s.core.newestRebuildRevision > r || SeenAbove(s, es, r)
    decreases |es|
  {
    if es != [] {
      var n := |es| - 1;
      var init, e := es[..n], es[n];
      assert es == init + [e];
      RunSnoc(s, init, e);
      RebuildSeen(s, init, r);
      RunKeeps(s, init);
      RebuildStep(Run(s, init), e);
      StepKeeps(Run(s, init), e);
      SeenSnoc(s, init, e, r);
    }
  }

  lemma SeenSnoc(s: Session, es: seq<Event>, e: Event, r: nat)
    ensures SeenAbove(s, es + [e], r)
            <==> SeenAbove(s, es, r) || (Rebuilds(Run(s, es), e) && Step(Run(s, es), e).newestRevision > r)
  {
    var all := es + [e];
    assert all[..|es|] == es && all[|es|] == e;
    forall k | 0 <= k < |es| ensures all[..k] == es[..k] && all[k] == es[k] {}
    if SeenAbove(s, all, r) {
      var k :| 0 <= k < |all| && Rebuilds(Run(s, all[..k]), all[k]) && Step(Run(s, all[..k]), all[k]).newestRevision > r;
      if k < |es| { assert Rebuilds(Run(s, es[..k]), es[k]); }
    }
    if SeenAbove(s, es, r) {
      var k :| 0 <= k < |es| && Rebuilds(Run(s, es[..k]), es[k]) && Step(Run(s, es[..k]), es[k]).newestRevision > r;
      assert Rebuilds(Run(s, all[..k]), all[k]);
    }
  }

  // Revisions of builds are not below the one at startup.
  lemma {:induction false} LateRevisions(s: Session, es: seq<Event>, first: nat)
    requires Inv(s) && (s.core.build.Some? ==> first <= s.core.build.value.cause.revision)
    requires (s.pending.Some? ==> first <= s.pending.value.revision) && first <= s.newestRevision
    ensures var t := Run(s, es); t.core.build.Some? ==> first <= t.core.build.value.cause.revision
    decreases |es|
  {
    if es != [] {
      StepKeeps(s, es[0]);
      LateStep(s, es[0], first);
      LateRevisions(Step(s, es[0]), es[1..], first);
    }
  }

  lemma LateStep(s: Session, e: Event, first: nat)
    requires Inv(s) && (s.core.build.Some? ==> first <= s.core.build.value.cause.revision)
    requires (s.pending.Some? ==> first <= s.pending.value.revision) && first <= s.newestRevision
    ensures var t := Step(s, e);
            && (t.core.build.Some? ==> first <= t.core.build.value.cause.revision)
            && (t.pending.Some? ==> first <= t.pending.value.revision) && first <= t.newestRevision
  {
  }

  // A build in progress is overtaken exactly when a change that needs a rebuild, of a revision above its own,
  // has been observed since startup.
  lemma OvertakenIff(existing: Option<Generation>, recorded: Option<Tree>, es: seq<Event>)
    requires existing.Some? ==> recorded == Some(existing.value.tree)
    requires Run(Opened(existing, recorded), es).core.build.Some?
    ensures var s := Run(Opened(existing, recorded), es);
            Overtaken(s) <==> SeenAbove(Opened(existing, recorded), es, s.core.build.value.cause.revision)
  {
    var s0 := Opened(existing, recorded);
    OpenedIsGood(existing, recorded);
    LateRevisions(s0, es, s0.newestRevision);
    RebuildSeen(s0, es, Run(s0, es).core.build.value.cause.revision);
  }

  // ---- How builds end --------------------------------------------------------------------------------------

  // In every state that a run reaches while the session is not closing: a build that throws, or whose
  // candidate or preparation is rejected, reports exactly that failure, with its phase, its revision and the
  // retained generation, and leaves the session blocked without an accepted generation and degraded with
  // one - unless a newer change overtook it, in which case a throw, like every attempt to go on, reports it
  // as superseded instead and leaves the phase alone. A rejection is reported either way.
  lemma BuildEndsAs(existing: Option<Generation>, recorded: Option<Tree>, es: seq<Event>, e: Event)
    requires existing.Some? ==> recorded == Some(existing.value.tree)
    requires var s := Run(Opened(existing, recorded), es); s.core.build.Some? && !s.core.closing
    ensures var s0 := Opened(existing, recorded);
            var s := Run(s0, es);
            var r := s.core.build.value.cause.revision;
            var t := Step(s, e);
            var phase := if Rejects(s, e).Some? then Rejects(s, e) else Throws(s, e);
            if Overtakes(s, e) && SeenAbove(s0, es, r) then
              && t.trail == AppendAll(s.trail, [CandidateSuperseded(r, s.newestRevision)])
              && t.phase == s.phase && t.core.build.None?
            else phase.Some? ==>
              var f := Failure(phase.value, Some(r), true, s.Accepted());
              && t.trail == AppendAll(s.trail, [StateChanged(PhaseAfter(s, f)), Failed(f)])
              && t.phase == (if s.Accepted().None? then Blocked(f) else Degraded(s.Accepted().value, f))
              && t.core.build.None? && (phase.value.Inventory? ==> s.core.build.value.cause.reinventory)
  {
    var s := Run(Opened(existing, recorded), es);
    OvertakenIff(existing, recorded, es);
    var phase := if Rejects(s, e).Some? then Rejects(s, e) else Throws(s, e);
    if Overtakes(s, e) && Overtaken(s) { OvertakenEnd(s, e); }
    else if phase.Some? { FailedEnd(s, e, phase.value); }
  }

  // These are the records of build failures and of overtaken candidates in a log.
  predicate Ends(b: Body) { b.CandidateSuperseded? || (b.Failed? && !b.failure.phase.Watch?) }

  lemma {:induction false} AppendedBodies(t: Trail, bs: seq<Body>)
    ensures var u := AppendAll(t, bs);
            && |u.log| == |t.log| + |bs| && u.log[..|t.log|] == t.log
            && forall i :: 0 <= i < |bs| ==> u.log[|t.log| + i].body == bs[i]
    decreases |bs|
  {
    if bs != [] {
      AppendedBodies(Append(t, bs[0]), bs[1..]);
      assert Append(t, bs[0]).log[..|t.log|] == t.log;
    }
  }

  // What a step that is no such end reports.
  function Others(s: Session, e: Event): seq<Body> {
    if e.Observe? then if s.core.closing then [] else [InputsChanged(s.newestRevision + 1)]
    else if e.ObserveEscape? then
      if s.core.closing then []
      else
        var f := Failure(Watch, Newest(s), false, s.Accepted());
        [StateChanged(PhaseAfter(s, f)), Failed(f)]
    else if e.StartBuild? then
      if s.core.build.None? && s.pending.Some? && s.pending.value.rebuild && !s.core.closing then
        [StateChanged(Building(s.pending.value.revision, s.Accepted())), BuildStarted(s.pending.value.revision)]
      else []
    else if e.Close? then if s.core.closing then [] else [StateChanged(Closing(s.Accepted()))]
    else if e.FinishClose? then
      if s.core.closing && s.core.build.None? && !s.phase.Closed? then [StateChanged(Closed(s.Accepted())), SessionClosed] else []
    else if e.EditPublic? || s.core.build.None? then []
    else
      var b := s.core.build.value;
      if e.Generate? && b.stage.Compiling? && !s.core.closing then [CandidateGenerated(b.cause.revision, e.tree)]
      else if e == EndPublish(Published) && b.stage.Publishing? then
        var g := NextGeneration(s.core);
        if s.core.closing then [StateChanged(Ready(g))] else [StateChanged(Ready(g)), GenerationAccepted(g)]
      else []
  }

  predicate EndsBuild(s: Session, e: Event) {
    && s.core.build.Some? && !s.core.closing
    && (Rejects(s, e).Some? || Throws(s, e).Some? || (Overtakes(s, e) && Overtaken(s))
        || (e.Replanned? && s.core.build.value.stage.Compiling?))
  }

  lemma OthersReport(s: Session, e: Event)
    requires !EndsBuild(s, e)
    ensures Step(s, e).trail == AppendAll(s.trail, Others(s, e))
  {
    var bs := Others(s, e);
    if |bs| == 1 { OneBody(s.trail, bs[0]); assert bs == [bs[0]]; }
    if |bs| == 2 { TwoBodies(s.trail, bs[0], bs[1]); assert bs == [bs[0], bs[1]]; }
  }

  // Such a record is added only by a step that ends a build in one of these ways.
  lemma EndsOnlyThen(s: Session, e: Event, i: nat)
    requires |s.trail.log| <= i < |Step(s, e).trail.log|
    ensures Ends(Step(s, e).trail.log[i].body) ==> EndsBuild(s, e)
  {
    if !EndsBuild(s, e) {
      OthersReport(s, e);
      AppendedBodies(s.trail, Others(s, e));
      assert Step(s, e).trail.log[|s.trail.log| + (i - |s.trail.log|)].body == Others(s, e)[i - |s.trail.log|];
    }
  }

  lemma SupersededRecord(s: Session, e: Event, i: nat)
    requires Inv(s) && |s.trail.log| <= i < |Step(s, e).trail.log| && EndsBuild(s, e)
    ensures Step(s, e).trail.log[i].body.CandidateSuperseded? ==>
              && Step(s, e).trail.log[i].body.revision == s.core.build.value.cause.revision
              && (Overtaken(s) || (Rebuilds(s, e) && Step(s, e).newestRevision > s.core.build.value.cause.revision))
  {
    if e.Replanned? {
      ReplannedReports(s, e.path, i);
    } else if Overtakes(s, e) && Overtaken(s) {
      OvertakenEnd(s, e);
      AppendedBodies(s.trail, [CandidateSuperseded(s.core.build.value.cause.revision, s.newestRevision)]);
    } else {
      FailedRecord(s, e, if Rejects(s, e).Some? then Rejects(s, e).value else Throws(s, e).value, i);
    }
  }

  lemma FailedRecord(s: Session, e: Event, phase: FailurePhase, i: nat)
    requires s.core.build.Some? && !s.core.closing && |s.trail.log| <= i < |Step(s, e).trail.log|
    requires Rejects(s, e) == Some(phase) || (Throws(s, e) == Some(phase) && !Overtaken(s))
    ensures !Step(s, e).trail.log[i].body.CandidateSuperseded?
  {
    var f := FailureOf(s, phase);
    var bs := [StateChanged(PhaseAfter(s, f)), Failed(f)];
    FailedEnd(s, e, phase);
    AppendedBodies(s.trail, bs);
    var k := i - |s.trail.log|;
    assert Step(s, e).trail.log[|s.trail.log| + k].body == bs[k];
  }

  // So a candidate is reported as superseded only if a change that needs a rebuild, of a revision above its own,
  // was observed before, or by that very step; over every run.
  lemma SupersededWasOvertaken(existing: Option<Generation>, recorded: Option<Tree>, es: seq<Event>, e: Event, i: nat)
    requires existing.Some? ==> recorded == Some(existing.value.tree)
    requires var s := Run(Opened(existing, recorded), es);
             |s.trail.log| <= i < |Step(s, e).trail.log| && Step(s, e).trail.log[i].body.CandidateSuperseded?
    ensures var s := Run(Opened(existing, recorded), es);
            && s.core.build.Some? && Step(s, e).trail.log[i].body.revision == s.core.build.value.cause.revision
            && SeenAbove(Opened(existing, recorded), es + [e], s.core.build.value.cause.revision)
  {
    var s0 := Opened(existing, recorded);
    var s := Run(s0, es);
    OpenedIsGood(existing, recorded);
    RunKeeps(s0, es);
    EndsOnlyThen(s, e, i);
    SupersededRecord(s, e, i);
    OvertakenIff(existing, recorded, es);
    SeenSnoc(s0, es, e, s.core.build.value.cause.revision);
  }

  lemma ReplannedReports(s: Session, path: string, i: nat)
    requires Inv(s) && s.core.build.Some? && s.core.build.value.stage.Compiling? && !s.core.closing
    requires |s.trail.log| <= i < |Step(s, Replanned(path)).trail.log|
    ensures var t := Step(s, Replanned(path));
            && t.newestRevision > s.core.build.value.cause.revision
            && (t.trail.log[i].body.CandidateSuperseded? ==>
                  t.trail.log[i].body.revision == s.core.build.value.cause.revision)
  {
  }

  // ---- The phase ----------------------------------------------------------------------------------------------

  ghost predicate PhaseOk(s: Session) {
    var accepted := s.Accepted();
    match s.phase
    case Opening => accepted.None? && !s.core.closing
    case Building(r, retained) => retained == accepted && !s.core.closing
    case Ready(g) => accepted == Some(g)
    case Blocked(f) => accepted.None? && f.retained.None? && !s.core.closing
    case Degraded(g, f) => accepted == Some(g) && f.retained == Some(g) && !s.core.closing
    case Closing(retained) => retained == accepted && s.core.closing
    case Closed(retained) => retained == accepted && s.core.closing && s.core.build.None? && s.pending.None?
  }

  lemma PhaseStep(s: Session, e: Event)
    requires PhaseOk(s) && (s.core.closing ==> s.pending.None?)
    ensures PhaseOk(Step(s, e)) && (Step(s, e).core.closing ==> Step(s, e).pending.None?)
  {
    if InBuild(e) {
      if s.core.build.Some? { PhaseBuildStep(s, e); }
    } else {
      PhaseOtherStep(s, e);
    }
  }

  predicate InBuild(e: Event) {
    e.Replanned? || e.StepThrows? || e.PreparationRejected? || e.Generate? || e.ValidatorAnswers? || e.BeginPublish?
    || e.EndPublish?
  }

  lemma PhaseBuildStep(s: Session, e: Event)
    requires PhaseOk(s) && (s.core.closing ==> s.pending.None?) && s.core.build.Some?
    ensures PhaseOk(OnBuildStep(s, e)) && (OnBuildStep(s, e).core.closing ==> OnBuildStep(s, e).pending.None?)
  {
  }

  lemma PhaseOtherStep(s: Session, e: Event)
    requires PhaseOk(s) && (s.core.closing ==> s.pending.None?) && !InBuild(e)
    ensures PhaseOk(Step(s, e)) && (Step(s, e).core.closing ==> Step(s, e).pending.None?)
  {
  }

  lemma {:induction false} PhaseRun(s: Session, es: seq<Event>)
    requires PhaseOk(s) && (s.core.closing ==> s.pending.None?)
    ensures PhaseOk(Run(s, es))
    decreases |es|
  {
    if es != [] {
      PhaseStep(s, es[0]);
      PhaseRun(Step(s, es[0]), es[1..]);
    }
  }

  // Over every run the phase is true to the accepted generation: blocked means none, degraded and ready name the
  // very one, and every phase that retains one retains that. A closing session is closing or closed, or
  // ready again because a publication ended well in the meantime.
  lemma PhaseIsTrue(existing: Option<Generation>, recorded: Option<Tree>, es: seq<Event>)
    requires existing.Some? ==> recorded == Some(existing.value.tree)
    ensures PhaseOk(Run(Opened(existing, recorded), es))
  {
    PhaseRun(Opened(existing, recorded), es);
  }

  // ---- Closing --------------------------------------------------------------------------------------------------

  // What is reported from the moment of close on: the phase, then a publication that ends well, then the end.
  function Remainder(s: Session, es: seq<Event>): seq<Body>
    decreases |es|
  {
    if es == [] then []
    else
      var rest := Remainder(Step(s, es[0]), es[1..]);
      if es[0] == EndPublish(Published) && s.core.build.Some? && s.core.build.value.stage.Publishing? then
        [StateChanged(Ready(NextGeneration(s.core)))] + rest
      else if es[0].FinishClose? && s.core.build.None? && !s.phase.Closed? then
        [StateChanged(Closed(s.Accepted())), SessionClosed] + rest
      else rest
  }

  lemma ClosingStep(s: Session, e: Event)
    requires s.core.closing && s.pending.None?
    ensures var t := Step(s, e);
            && t.core.closing && t.pending.None? && (s.core.build.None? ==> t.core.build.None?)
            && (s.phase.Closed? && s.core.build.None? ==> t.phase == s.phase)
            && (if e == EndPublish(Published) && s.core.build.Some? && s.core.build.value.stage.Publishing? then
                  t.trail == AppendAll(s.trail, [StateChanged(Ready(NextGeneration(s.core)))]) && t.core.build.None?
                else if e.FinishClose? && s.core.build.None? && !s.phase.Closed? then
                  t.trail == AppendAll(s.trail, [StateChanged(Closed(s.Accepted())), SessionClosed]) && t.phase.Closed?
                else t.trail == s.trail)
  {
    if s.core.build.Some? && s.core.build.value.stage.Publishing? {
      OneBody(s.trail, StateChanged(Ready(NextGeneration(s.core))));
    }
    TwoBodies(s.trail, StateChanged(Closed(s.Accepted())), SessionClosed);
  }

  lemma {:induction false} AppendSplit(t: Trail, a: seq<Body>, b: seq<Body>)
    ensures AppendAll(t, a + b) == AppendAll(AppendAll(t, a), b)
    decreases |a|
  {
    if a == [] {
      assert a + b == b;
    } else {
      assert (a + b)[0] == a[0] && (a + b)[1..] == a[1..] + b;
      AppendSplit(Append(t, a[0]), a[1..], b);
    }
  }

  lemma {:induction false} ClosingRun(s: Session, es: seq<Event>)
    requires s.core.closing && s.pending.None?
    ensures Run(s, es).core.closing && Run(s, es).trail == AppendAll(s.trail, Remainder(s, es))
    decreases |es|
  {
    if es != [] {
      ClosingStep(s, es[0]);
      ClosingRun(Step(s, es[0]), es[1..]);
      var rest := Remainder(Step(s, es[0]), es[1..]);
      if es[0] == EndPublish(Published) && s.core.build.Some? && s.core.build.value.stage.Publishing? {
        AppendSplit(s.trail, [StateChanged(Ready(NextGeneration(s.core)))], rest);
      } else if es[0].FinishClose? && s.core.build.None? && !s.phase.Closed? {
        AppendSplit(s.trail, [StateChanged(Closed(s.Accepted())), SessionClosed], rest);
      }
    }
  }

  lemma {:induction false} RemainderClosed(s: Session, es: seq<Event>)
    requires s.core.closing && s.pending.None? && s.core.build.None? && s.phase.Closed?
    ensures Remainder(s, es) == []
    decreases |es|
  {
    if es != [] {
      ClosingStep(s, es[0]);
      RemainderClosed(Step(s, es[0]), es[1..]);
    }
  }

  lemma {:induction false} RemainderUnbuilt(s: Session, es: seq<Event>)
    requires s.core.closing && s.pending.None? && s.core.build.None? && !s.phase.Closed?
    ensures Remainder(s, es) == if FinishClose in es then [StateChanged(Closed(s.Accepted())), SessionClosed] else []
    decreases |es|
  {
    if es != [] {
      ClosingStep(s, es[0]);
      assert FinishClose in es <==> es[0] == FinishClose || FinishClose in es[1..];
      var t := Step(s, es[0]);
      if es[0].FinishClose? {
        RemainderClosed(t, es[1..]);
        assert [StateChanged(Closed(s.Accepted())), SessionClosed] + [] == [StateChanged(Closed(s.Accepted())), SessionClosed];
      } else {
        UnbuiltStays(s, es[0]);
        RemainderUnbuilt(t, es[1..]);
      }
    }
  }

  lemma UnbuiltStays(s: Session, e: Event)
    requires s.core.closing && s.pending.None? && s.core.build.None? && !s.phase.Closed? && !e.FinishClose?
    ensures !Step(s, e).phase.Closed? && Step(s, e).Accepted() == s.Accepted()
  {
  }

  // After close, over every continuation, at most these records follow: the phase "ready" if the build in
  // progress is published, then the end of the session; and nothing after it.
  ghost predicate LastWords(bs: seq<Body>) {
    exists ready: seq<Body>, end: seq<Body> ::
      && bs == ready + end
      && (ready == [] || (exists g: Generation :: ready == [StateChanged(Ready(g))]))
      && (end == [] || (exists r: Option<Generation> :: end == [StateChanged(Closed(r)), SessionClosed]))
  }

  lemma {:induction false} RemainderShape(s: Session, es: seq<Event>)
    requires s.core.closing && s.pending.None? && (s.phase.Closed? ==> s.core.build.None?)
    ensures LastWords(Remainder(s, es))
    decreases |es|
  {
    if es == [] {
      assert Remainder(s, es) == [] + [];
    } else if s.core.build.None? {
      if s.phase.Closed? { RemainderClosed(s, es); } else { RemainderUnbuilt(s, es); }
      assert Remainder(s, es) == [] + Remainder(s, es);
    } else {
      ClosingStep(s, es[0]);
      BuiltNotClosed(s, es[0]);
      var t := Step(s, es[0]);
      if es[0] == EndPublish(Published) && s.core.build.value.stage.Publishing? {
        RemainderUnbuilt(t, es[1..]);
        assert Remainder(s, es) == [StateChanged(Ready(NextGeneration(s.core)))] + Remainder(t, es[1..]);
      } else {
        RemainderShape(t, es[1..]);
      }
    }
  }

  lemma BuiltNotClosed(s: Session, e: Event)
    requires s.core.closing && s.core.build.Some? && !s.phase.Closed?
    ensures !Step(s, e).phase.Closed?
  {
  }

  lemma ClosingLog(existing: Option<Generation>, recorded: Option<Tree>, before: seq<Event>, after: seq<Event>)
    requires existing.Some? ==> recorded == Some(existing.value.tree)
    requires !Run(Opened(existing, recorded), before).core.closing
    ensures var s := Run(Opened(existing, recorded), before);
            var t := Run(Step(s, Close), after);
            exists bs: seq<Body> ::
              LastWords(bs) && t.trail == AppendAll(Append(s.trail, StateChanged(Closing(s.Accepted()))), bs)
  {
    var s := Run(Opened(existing, recorded), before);
    ClosingRun(Step(s, Close), after);
    RemainderShape(Step(s, Close), after);
  }

  // ---- Causes ---------------------------------------------------------------------------------------------------

  // The cause that an event adds.
  function CauseOf(s: Session, e: Event): seq<Cause> {
    if s.core.closing then []
    else if e.Observe? then
      [Cause(s.newestRevision + 1, {e.path}, e.impact.reinventory, e.impact.restartCompiler, e.impact.rebuild)]
    else if e.Replanned? && s.core.build.Some? && s.core.build.value.stage.Compiling? then
      [Cause(s.newestRevision + 1, {e.path}, true, true, true)]
    else []
  }

  // A build takes what has gathered, if that asks for a rebuild; close drops it.
  predicate Takes(s: Session, e: Event) {
    (e.StartBuild? && s.core.build.None?) || (e.Close? && !s.core.closing)
  }

  // The causes observed since the last one of these.
  function Gathered(s: Session, es: seq<Event>, so: seq<Cause>): seq<Cause>
    decreases |es|
  {
    if es == [] then so
    else Gathered(Step(s, es[0]), es[1..], if Takes(s, es[0]) then [] else so + CauseOf(s, es[0]))
  }

  ghost predicate Holds(s: Session, so: seq<Cause>) {
    s.pending == if so == [] then None else Some(DirtyLoop.Fold(MergeCause, so))
  }

  lemma CauseStep(s: Session, e: Event, so: seq<Cause>)
    requires Holds(s, so) && (s.core.closing ==> s.pending.None?)
    ensures Holds(Step(s, e), if Takes(s, e) then [] else so + CauseOf(s, e))
    ensures Step(s, e).core.closing ==> Step(s, e).pending.None?
  {
    var c := CauseOf(s, e);
    if c != [] {
      assert c == [c[0]] && (so + c)[..|so|] == so;
    } else {
      assert so + c == so;
    }
  }

  lemma {:induction false} CauseRun(s: Session, es: seq<Event>, so: seq<Cause>)
    requires Holds(s, so) && (s.core.closing ==> s.pending.None?)
    ensures Holds(Run(s, es), Gathered(s, es, so))
    decreases |es|
  {
    if es != [] {
      CauseStep(s, es[0], so);
      CauseRun(Step(s, es[0]), es[1..], if Takes(s, es[0]) then [] else so + CauseOf(s, es[0]));
    }
  }

  // What a merged cause stands for: the newest of the revisions, all paths, and every demand that any of them makes.
  ghost predicate Stands(m: Cause, cs: seq<Cause>) {
    && (forall c :: c in cs ==> c.revision <= m.revision) && (exists c :: c in cs && c.revision == m.revision)
    && (forall p :: p in m.paths <==> exists c :: c in cs && p in c.paths)
    && (m.reinventory <==> exists c :: c in cs && c.reinventory)
    && (m.restartCompiler <==> exists c :: c in cs && c.restartCompiler)
    && (m.rebuild <==> exists c :: c in cs && c.rebuild)
  }

  lemma {:induction false} FoldStands(cs: seq<Cause>)
    requires cs != []
    ensures Stands(DirtyLoop.Fold(MergeCause, cs), cs)
    decreases |cs|
  {
    var n := |cs| - 1;
    if n == 0 {
      assert cs == [cs[0]];
      assert cs[0] in cs;
    } else {
      FoldStands(cs[..n]);
      assert cs == cs[..n] + [cs[n]];
      StandsSnoc(DirtyLoop.Fold(MergeCause, cs[..n]), cs[..n], cs[n]);
    }
  }

  lemma StandsSnoc(m: Cause, cs: seq<Cause>, c: Cause)
    requires Stands(m, cs)
    ensures Stands(MergeCause(m, c), cs + [c])
  {
    var all, u := cs + [c], MergeCause(m, c);
    assert forall x :: x in all <==> x in cs || x == c;
    var newest :| newest in cs && newest.revision == m.revision;
    assert newest in all && c in all;
    forall p ensures p in u.paths <==> exists x :: x in all && p in x.paths {
      if p in m.paths {
        var x :| x in cs && p in x.paths;
        assert x in all;
      }
    }
  }

  // Every build is started with all the causes observed since the last start, merged, and with nothing else; it
  // is started exactly when they ask for a rebuild.
  lemma BuildTakesAll(existing: Option<Generation>, recorded: Option<Tree>, es: seq<Event>)
    requires existing.Some? ==> recorded == Some(existing.value.tree)
    requires var s := Run(Opened(existing, recorded), es); s.core.build.None? && !s.core.closing
    ensures var s0 := Opened(existing, recorded);
            var s := Run(s0, es);
            var all := Gathered(s0, es, [Cause(s0.newestRevision, {}, false, false, true)]);
            && (Step(s, StartBuild).core.build.Some? <==> all != [] && DirtyLoop.Fold(MergeCause, all).rebuild)
            && (Step(s, StartBuild).core.build.Some? ==>
                  && Step(s, StartBuild).core.build.value.cause == DirtyLoop.Fold(MergeCause, all)
                  && Stands(Step(s, StartBuild).core.build.value.cause, all))
            && Step(s, StartBuild).pending.None?
  {
    var s0 := Opened(existing, recorded);
    var first := [Cause(s0.newestRevision, {}, false, false, true)];
    CauseRun(s0, es, first);
    if Gathered(s0, es, first) != [] { FoldStands(Gathered(s0, es, first)); }
  }

  // ---- Revisions -------------------------------------------------------------------------------------------------

  function Observed(s: Session, es: seq<Event>): nat
    decreases |es|
  {
    if es == [] then 0 else |CauseOf(s, es[0])| + Observed(Step(s, es[0]), es[1..])
  }

  lemma RevisionStep(s: Session, e: Event)
    ensures Step(s, e).newestRevision == s.newestRevision + |CauseOf(s, e)|
  {
  }

  // Over every run, the newest revision counts the changes observed before close.
  lemma {:induction false} RevisionCounts(s: Session, es: seq<Event>)
    ensures Run(s, es).newestRevision == s.newestRevision + Observed(s, es)
    decreases |es|
  {
    if es != [] {
      RevisionStep(s, es[0]);
      RevisionCounts(Step(s, es[0]), es[1..]);
    }
  }
}
