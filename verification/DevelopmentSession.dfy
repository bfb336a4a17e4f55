/**
 The admitted-generation session: revisions are observed, builds run one at a time over the dirty loop,
 and only an admitted, not superseded candidate replaces the public tree.
 */
module DevelopmentSession {
  import opened Wrappers
  import DirtyLoop

  type Tree = nat   // a complete generated tree, by its digest

  datatype Impact = Impact(reinventory: bool, restartCompiler: bool, rebuild: bool)

  datatype Cause = Cause(revision: nat, paths: set<string>, reinventory: bool, restartCompiler: bool, rebuild: bool)

  datatype Generation = Generation(number: nat, revision: nat, tree: Tree)

  datatype FailurePhase = Watch | Inventory | Compile | Validate | Publish

  datatype Failure = Failure(phase: FailurePhase, revision: Option<nat>, recoverable: bool, retained: Option<Generation>)

  datatype Phase =
    | Opening
    | Building(revision: nat, retained: Option<Generation>)
    | Ready(accepted: Generation)
    | Blocked(failure: Failure)
    | Degraded(accepted: Generation, failure: Failure)
    | Closing(retained: Option<Generation>)
    | Closed(retained: Option<Generation>)

  datatype Body =
    | StateChanged(phase: Phase)
    | InputsChanged(revision: nat)
    | BuildStarted(revision: nat)
    | CandidateGenerated(revision: nat, tree: Tree)
    | CandidateSuperseded(revision: nat, newestRevision: nat)
    | GenerationAccepted(accepted: Generation)
    | Failed(failure: Failure)
    | SessionClosed

  datatype Record = Record(sequence: nat, body: Body)

  datatype Stage = Compiling | Validating(tree: Tree) | Admitted(tree: Tree) | Publishing(tree: Tree)

  datatype Build = Build(cause: Cause, stage: Stage)

  // The events reported so far.
  datatype Trail = Trail(lastSequence: nat, log: seq<Record>)

  // recorded is the session's own memory of the marker it last saw or wrote; history lists the accepted
  // generations, the last of them being accepted.
  datatype Ledger = Ledger(accepted: Option<Generation>, recorded: Option<Tree>, history: seq<Generation>)

  datatype Disk = Disk(public: Option<Tree>, marker: Option<Tree>)

  // What decides the outcome of a build.
  datatype Core = Core(
    ledger: Ledger, disk: Disk, build: Option<Build>, closing: bool, newestRebuildRevision: nat)

  datatype Session = Session(
    core: Core, phase: Phase, trail: Trail, newestRevision: nat, pending: Option<Cause>)
  {
    function Accepted(): Option<Generation> { core.ledger.accepted }
  }

  datatype Outcome = Published | Threw(disk: Disk)

  datatype Event =
    | Observe(path: string, impact: Impact)
    | ObserveEscape
    | StartBuild
    | Replanned(path: string)            // the resolved invocation changed under the build
    | StepThrows(late: bool)             // late: the inputs have been inventoried anew, where the cause asks for it
    | PreparationRejected
    | Generate(tree: Tree)
    | ValidatorAnswers(ok: bool)
    | BeginPublish
    | EndPublish(outcome: Outcome)
    | Close
    | FinishClose
    | EditPublic(disk: Disk)

  // ---- Causes -----------------------------------------------------------------------------------

  function Later(a: nat, b: nat): nat { if a < b then b else a }

  function MergeCause(left: Cause, right: Cause): Cause {
    Cause(Later(left.revision, right.revision), left.paths + right.paths, left.reinventory || right.reinventory,
          left.restartCompiler || right.restartCompiler, left.rebuild || right.rebuild)
  }

  // The merge rule meets the demand of the dirty loop.
  lemma MergeIsAssociative()
    ensures DirtyLoop.Associative(MergeCause)
  {
    forall a: Cause, b: Cause, c: Cause
      ensures MergeCause(MergeCause(a, b), c) == MergeCause(a, MergeCause(b, c)) {
      assert (a.paths + b.paths) + c.paths == a.paths + (b.paths + c.paths);
    }
  }

  // ---- Events and state -------------------------------------------------------------------------

  function Append(t: Trail, body: Body): Trail {
    Trail(t.lastSequence + 1, t.log + [Record(t.lastSequence + 1, body)])
  }

  function Emit(s: Session, body: Body): Session { s.(trail := Append(s.trail, body)) }

  function SetPhase(s: Session, phase: Phase): Session { Emit(s.(phase := phase), StateChanged(phase)) }

  function Fail(s: Session, phase: FailurePhase, revision: Option<nat>, recoverable: bool): Session {
    if s.core.closing then s
    else
      var failure := Failure(phase, revision, recoverable, s.Accepted());
      Emit(SetPhase(s, if s.Accepted().None? then Blocked(failure) else Degraded(s.Accepted().value, failure)),
           Failed(failure))
  }

  function Newest(s: Session): Option<nat> {
    if s.newestRevision == 0 then None else Some(s.newestRevision)
  }

  function Merged(pending: Option<Cause>, cause: Cause): Cause {
    if pending.Some? then MergeCause(pending.value, cause) else cause
  }

  function OnObserve(s: Session, path: string, impact: Impact): Session {
    if s.core.closing then s
    else
      var revision := s.newestRevision + 1;
      Session(if impact.rebuild then s.core.(newestRebuildRevision := revision) else s.core,
              s.phase, Append(s.trail, InputsChanged(revision)), revision,
              Some(Merged(s.pending,
                          Cause(revision, {path}, impact.reinventory, impact.restartCompiler, impact.rebuild))))
  }

  function SetBuild(s: Session, build: Option<Build>): Session { s.(core := s.core.(build := build)) }

  function EndBuild(s: Session): Session { SetBuild(s, None) }

  function Supersede(s: Session, revision: nat): Session {
    EndBuild(Emit(s, CandidateSuperseded(revision, s.newestRevision)))
  }

  function OnStartBuild(s: Session): Session {
    if s.core.build.Some? || s.pending.None? then s
    else
      var cause := s.pending.value;
      var t := s.(pending := None);
      if s.core.closing || !cause.rebuild then t
      else
        Emit(SetPhase(SetBuild(t, Some(Build(cause, Compiling))), Building(cause.revision, s.Accepted())),
             BuildStarted(cause.revision))
  }

  // The catch handler of a build.
  function OnThrow(s: Session, phase: FailurePhase): Session
    requires s.core.build.Some?
  {
    var revision := s.core.build.value.cause.revision;
    if s.core.closing then EndBuild(s)
    else if revision < s.core.newestRebuildRevision then Supersede(s, revision)
    else EndBuild(Fail(s, phase, Some(revision), true))
  }

  // The phase that a build names when it throws.
  function ThrownIn(b: Build, late: bool): FailurePhase {
    match b.stage
    case Compiling => if b.cause.reinventory && !late then Inventory else Compile
    case Validating(_) => Validate
    case Admitted(_) => Publish
    case Publishing(_) => Publish
  }

  predicate DiskAsRecorded(c: Core) {
    c.disk == Disk(c.ledger.recorded, c.ledger.recorded)
  }

  function Advance(s: Session, stage: Stage): Session
    requires s.core.build.Some?
  {
    SetBuild(s, Some(Build(s.core.build.value.cause, stage)))
  }

  function OnReplanned(s: Session, path: string): Session
    requires s.core.build.Some?
  {
    if !s.core.build.value.stage.Compiling? then s
    else if s.core.closing then EndBuild(s)
    else Supersede(OnObserve(s, path, Impact(true, true, true)), s.core.build.value.cause.revision)
  }

  function OnPreparationRejected(s: Session): Session
    requires s.core.build.Some?
  {
    if !s.core.build.value.stage.Compiling? then s
    else EndBuild(Fail(s, Compile, Some(s.core.build.value.cause.revision), true))
  }

  function OnGenerate(s: Session, tree: Tree): Session
    requires s.core.build.Some?
  {
    if !s.core.build.value.stage.Compiling? then s
    else if s.core.closing then EndBuild(s)
    else Advance(Emit(s, CandidateGenerated(s.core.build.value.cause.revision, tree)), Validating(tree))
  }

  function OnValidated(s: Session, ok: bool): Session
    requires s.core.build.Some?
  {
    var b := s.core.build.value;
    if !b.stage.Validating? then s
    else if s.core.closing then EndBuild(s)
    else if !ok then EndBuild(Fail(s, Validate, Some(b.cause.revision), true))
    else if b.cause.revision < s.core.newestRebuildRevision then Supersede(s, b.cause.revision)
    else Advance(s, Admitted(b.stage.tree))
  }

  function OnBeginPublish(s: Session): Session
    requires s.core.build.Some?
  {
    var b := s.core.build.value;
    if !b.stage.Admitted? then s
    else if s.core.closing then EndBuild(s)
    else if b.cause.revision < s.core.newestRebuildRevision then Supersede(s, b.cause.revision)
    else if !DiskAsRecorded(s.core) then OnThrow(s, Publish)
    else Advance(s, Publishing(b.stage.tree))
  }

  function NextGeneration(c: Core): Generation
    requires c.build.Some? && c.build.value.stage.Publishing?
  {
    Generation((if c.ledger.accepted.Some? then c.ledger.accepted.value.number else 0) + 1,
               c.build.value.cause.revision, c.build.value.stage.tree)
  }

  function Accept(c: Core): Core
    requires c.build.Some? && c.build.value.stage.Publishing?
  {
    var g := NextGeneration(c);
    Core(Ledger(Some(g), Some(g.tree), c.ledger.history + [g]), Disk(Some(g.tree), Some(g.tree)),
         None, c.closing, c.newestRebuildRevision)
  }

  function OnEndPublish(s: Session, outcome: Outcome): Session
    requires s.core.build.Some?
  {
    if !s.core.build.value.stage.Publishing? then s
    else
      match outcome
      case Threw(disk) => OnThrow(s.(core := s.core.(disk := disk)), Publish)
      case Published =>
        var g := NextGeneration(s.core);
        var t := SetPhase(s.(core := Accept(s.core)), Ready(g));
        if s.core.closing then t else Emit(t, GenerationAccepted(g))
  }

  function OnBuildStep(s: Session, e: Event): Session
    requires s.core.build.Some?
  {
    match e
    case Replanned(path) => OnReplanned(s, path)
    case StepThrows(late) =>
      if s.core.build.value.stage.Publishing? then s else OnThrow(s, ThrownIn(s.core.build.value, late))
    case PreparationRejected => OnPreparationRejected(s)
    case Generate(tree) => OnGenerate(s, tree)
    case ValidatorAnswers(ok) => OnValidated(s, ok)
    case BeginPublish => OnBeginPublish(s)
    case EndPublish(outcome) => OnEndPublish(s, outcome)
    case _ => s
  }

  function OnClose(s: Session): Session {
    if s.core.closing then s
    else SetPhase(s.(core := s.core.(closing := true), pending := None), Closing(s.Accepted()))
  }

  function OnFinishClose(s: Session): Session {
    if !s.core.closing || s.core.build.Some? || s.phase.Closed? then s
    else Emit(SetPhase(s, Closed(s.Accepted())), SessionClosed)
  }

  function Step(s: Session, e: Event): Session {
    match e
    case Observe(path, impact) => OnObserve(s, path, impact)
    case ObserveEscape => Fail(s, Watch, Newest(s), false)
    case StartBuild => OnStartBuild(s)
    case Close => OnClose(s)
    case FinishClose => OnFinishClose(s)
    case EditPublic(disk) => s.(core := s.core.(disk := disk))
    case _ => if s.core.build.Some? then OnBuildStep(s, e) else s
  }

  function Run(s: Session, es: seq<Event>): Session
    decreases |es|
  {
    if es == [] then s else Run(Step(s, es[0]), es[1..])
  }

  // The session once its startup has finished: existing is a generation taken over from disk, recorded
  // what the marker on disk says.
  function Opened(existing: Option<Generation>, recorded: Option<Tree>): Session
    requires existing.Some? ==> recorded == Some(existing.value.tree)
  {
    var revision := (if existing.Some? then existing.value.revision else 0) + 1;
    var ledger := Ledger(existing, recorded, if existing.Some? then [existing.value] else []);
    var s := Session(Core(ledger, Disk(recorded, recorded), None, false, revision), Opening, Trail(0, []), revision,
                     Some(Cause(revision, {}, false, false, true)));
    if existing.None? then s else Emit(SetPhase(s, Ready(existing.value)), GenerationAccepted(existing.value))
  }

  // ---- Invariants -------------------------------------------------------------------------------

  ghost predicate Numbered(t: Trail) {
    t.lastSequence == |t.log| && forall i :: 0 <= i < |t.log| ==> t.log[i].sequence == i + 1
  }

  ghost predicate Rising(history: seq<Generation>) {
    forall i, j :: 0 <= i < j < |history| ==>
      history[i].number < history[j].number && history[i].revision < history[j].revision
  }

  ghost predicate LedgerOk(l: Ledger) {
    && Rising(l.history)
    && l.accepted == (if l.history == [] then None else Some(l.history[|l.history| - 1]))
    && (l.accepted.Some? ==> l.recorded == Some(l.accepted.value.tree))
  }

  function RevisionOf(accepted: Option<Generation>): int { if accepted.Some? then accepted.value.revision else -1 }

  function BuildRevision(c: Core): int
  {
    if c.build.Some? then c.build.value.cause.revision else RevisionOf(c.ledger.accepted)
  }

  // Revisions only move forward: accepted before building before pending before newest.
  ghost predicate RevisionsOk(s: Session) {
    && s.core.newestRebuildRevision <= s.newestRevision
    && RevisionOf(s.Accepted()) <= BuildRevision(s.core) <= s.newestRevision
    && (s.core.build.Some? ==> RevisionOf(s.Accepted()) < BuildRevision(s.core))
    && (s.pending.Some? ==> BuildRevision(s.core) < s.pending.value.revision <= s.newestRevision)
  }

  ghost predicate Inv(s: Session) {
    Numbered(s.trail) && LedgerOk(s.core.ledger) && RevisionsOk(s)
  }

  // Nothing reported is taken back, and counters do not go down.
  ghost predicate Extends(s: Session, t: Session) {
    && s.trail.log <= t.trail.log && s.core.ledger.history <= t.core.ledger.history
    && s.newestRevision <= t.newestRevision && s.core.newestRebuildRevision <= t.core.newestRebuildRevision
  }

  lemma AppendNumbered(t: Trail, body: Body)
    requires Numbered(t)
    ensures Numbered(Append(t, body)) && t.log <= Append(t, body).log
  {
  }

  lemma EmitKeeps(s: Session, body: Body)
    requires Inv(s)
    ensures Inv(Emit(s, body)) && Extends(s, Emit(s, body))
  {
    AppendNumbered(s.trail, body);
  }

  lemma SetPhaseKeeps(s: Session, phase: Phase)
    requires Inv(s)
    ensures Inv(SetPhase(s, phase)) && Extends(s, SetPhase(s, phase))
  {
    EmitKeeps(s.(phase := phase), StateChanged(phase));
  }

  lemma FailKeeps(s: Session, phase: FailurePhase, revision: Option<nat>, recoverable: bool)
    requires Inv(s)
    ensures Inv(Fail(s, phase, revision, recoverable)) && Extends(s, Fail(s, phase, revision, recoverable))
    ensures Fail(s, phase, revision, recoverable).core == s.core
  {
    if !s.core.closing {
      var failure := Failure(phase, revision, recoverable, s.Accepted());
      var next := if s.Accepted().None? then Blocked(failure) else Degraded(s.Accepted().value, failure);
      SetPhaseKeeps(s, next);
      EmitKeeps(SetPhase(s, next), Failed(failure));
    }
  }

  lemma EndKeeps(s: Session)
    requires Inv(s)
    ensures Inv(EndBuild(s)) && Extends(s, EndBuild(s))
  {
  }

  lemma ObserveKeeps(s: Session, path: string, impact: Impact)
    requires Inv(s)
    ensures Inv(OnObserve(s, path, impact)) && Extends(s, OnObserve(s, path, impact))
  {
    if !s.core.closing { AppendNumbered(s.trail, InputsChanged(s.newestRevision + 1)); }
  }

  lemma SupersedeKeeps(s: Session, revision: nat)
    requires Inv(s)
    ensures Inv(Supersede(s, revision)) && Extends(s, Supersede(s, revision))
  {
    EmitKeeps(s, CandidateSuperseded(revision, s.newestRevision));
    EndKeeps(Emit(s, CandidateSuperseded(revision, s.newestRevision)));
  }

  lemma StartKeeps(s: Session)
    requires Inv(s)
    ensures Inv(OnStartBuild(s)) && Extends(s, OnStartBuild(s))
  {
    if s.core.build.None? && s.pending.Some? && !s.core.closing && s.pending.value.rebuild {
      var cause := s.pending.value;
      var t := SetBuild(s.(pending := None), Some(Build(cause, Compiling)));
      SetPhaseKeeps(t, Building(cause.revision, s.Accepted()));
      EmitKeeps(SetPhase(t, Building(cause.revision, s.Accepted())), BuildStarted(cause.revision));
    }
  }

  lemma ThrowKeeps(s: Session, phase: FailurePhase)
    requires Inv(s) && s.core.build.Some?
    ensures Inv(OnThrow(s, phase)) && Extends(s, OnThrow(s, phase))
  {
    var revision := s.core.build.value.cause.revision;
    if s.core.closing {
      EndKeeps(s);
    } else if revision < s.core.newestRebuildRevision {
      SupersedeKeeps(s, revision);
    } else {
      FailKeeps(s, phase, Some(revision), true);
      EndKeeps(Fail(s, phase, Some(revision), true));
    }
  }

  lemma LedgerGrows(l: Ledger, g: Generation)
    requires LedgerOk(l) && (l.accepted.Some? ==> l.accepted.value.number < g.number && l.accepted.value.revision < g.revision)
    ensures LedgerOk(Ledger(Some(g), Some(g.tree), l.history + [g]))
  {
    var history, n := l.history + [g], |l.history|;
    forall i, j | 0 <= i < j < |history|
      ensures history[i].number < history[j].number && history[i].revision < history[j].revision {
      if j == n && i < n - 1 { assert l.history[i].number < l.history[n - 1].number; }
    }
  }

  lemma PublishKeeps(s: Session, outcome: Outcome)
    requires Inv(s) && s.core.build.Some?
    ensures Inv(OnEndPublish(s, outcome)) && Extends(s, OnEndPublish(s, outcome))
  {
    if s.core.build.value.stage.Publishing? {
      match outcome
      case Threw(disk) => ThrowKeeps(s.(core := s.core.(disk := disk)), Publish);
      case Published =>
        var g := NextGeneration(s.core);
        var t := s.(core := Accept(s.core));
        LedgerGrows(s.core.ledger, g);
        SetPhaseKeeps(t, Ready(g));
        EmitKeeps(SetPhase(t, Ready(g)), GenerationAccepted(g));
    }
  }

  lemma GenerateKeeps(s: Session, tree: Tree)
    requires Inv(s) && s.core.build.Some?
    ensures Inv(OnGenerate(s, tree)) && Extends(s, OnGenerate(s, tree))
  {
    EmitKeeps(s, CandidateGenerated(s.core.build.value.cause.revision, tree));
  }

  lemma ReplannedKeeps(s: Session, path: string)
    requires Inv(s) && s.core.build.Some?
    ensures Inv(OnReplanned(s, path)) && Extends(s, OnReplanned(s, path))
  {
    ObserveKeeps(s, path, Impact(true, true, true));
    SupersedeKeeps(OnObserve(s, path, Impact(true, true, true)), s.core.build.value.cause.revision);
  }

  lemma ValidatedKeeps(s: Session, ok: bool)
    requires Inv(s) && s.core.build.Some?
    ensures Inv(OnValidated(s, ok)) && Extends(s, OnValidated(s, ok))
  {
    var revision := s.core.build.value.cause.revision;
    FailKeeps(s, Validate, Some(revision), true);
    EndKeeps(Fail(s, Validate, Some(revision), true));
    SupersedeKeeps(s, revision);
  }

  lemma BeginKeeps(s: Session)
    requires Inv(s) && s.core.build.Some?
    ensures Inv(OnBeginPublish(s)) && Extends(s, OnBeginPublish(s))
  {
    SupersedeKeeps(s, s.core.build.value.cause.revision);
    ThrowKeeps(s, Publish);
  }

  lemma RejectedKeeps(s: Session)
    requires Inv(s) && s.core.build.Some?
    ensures Inv(OnPreparationRejected(s)) && Extends(s, OnPreparationRejected(s))
  {
    var revision := s.core.build.value.cause.revision;
    FailKeeps(s, Compile, Some(revision), true);
    EndKeeps(Fail(s, Compile, Some(revision), true));
  }

  lemma BuildStepKeeps(s: Session, e: Event)
    requires Inv(s) && s.core.build.Some?
    ensures Inv(OnBuildStep(s, e)) && Extends(s, OnBuildStep(s, e))
  {
    match e
    case Replanned(path) => ReplannedKeeps(s, path);
    case StepThrows(late) => ThrowKeeps(s, ThrownIn(s.core.build.value, late));
    case PreparationRejected => RejectedKeeps(s);
    case Generate(tree) => GenerateKeeps(s, tree);
    case ValidatorAnswers(ok) => ValidatedKeeps(s, ok);
    case BeginPublish => BeginKeeps(s);
    case EndPublish(outcome) => PublishKeeps(s, outcome);
    case _ =>
  }

  lemma CloseKeeps(s: Session)
    requires Inv(s)
    ensures Inv(OnClose(s)) && Extends(s, OnClose(s))
    ensures Inv(OnFinishClose(s)) && Extends(s, OnFinishClose(s))
  {
    SetPhaseKeeps(s.(core := s.core.(closing := true), pending := None), Closing(s.Accepted()));
    SetPhaseKeeps(s, Closed(s.Accepted()));
    EmitKeeps(SetPhase(s, Closed(s.Accepted())), SessionClosed);
  }

  lemma StepKeeps(s: Session, e: Event)
    requires Inv(s)
    ensures Inv(Step(s, e)) && Extends(s, Step(s, e))
  {
    match e
    case Observe(path, impact) => ObserveKeeps(s, path, impact);
    case ObserveEscape => FailKeeps(s, Watch, Newest(s), false);
    case StartBuild => StartKeeps(s);
    case Close => CloseKeeps(s);
    case FinishClose => CloseKeeps(s);
    case EditPublic(disk) =>
    case _ => if s.core.build.Some? { BuildStepKeeps(s, e); }
  }

  lemma {:induction false} RunKeeps(s: Session, es: seq<Event>)
    requires Inv(s)
    ensures Inv(Run(s, es)) && Extends(s, Run(s, es))
    decreases |es|
  {
    if es != [] {
      StepKeeps(s, es[0]);
      RunKeeps(Step(s, es[0]), es[1..]);
    }
  }

  lemma OpenedIsGood(existing: Option<Generation>, recorded: Option<Tree>)
    requires existing.Some? ==> recorded == Some(existing.value.tree)
    ensures Inv(Opened(existing, recorded)) && DiskAsRecorded(Opened(existing, recorded).core)
  {
  }

  // ---- Counters and last-good safety --------------------------------------------------------------

  // Over every run, events are numbered 1, 2, 3, ... and accepted generations rise in number and revision.
  lemma SequenceAndHistory(existing: Option<Generation>, recorded: Option<Tree>, es: seq<Event>)
    requires existing.Some? ==> recorded == Some(existing.value.tree)
    ensures var s := Run(Opened(existing, recorded), es);
            && (forall i :: 0 <= i < |s.trail.log| ==> s.trail.log[i].sequence == i + 1)
            && Rising(s.core.ledger.history)
            && LedgerOk(s.core.ledger)
  {
    OpenedIsGood(existing, recorded);
    RunKeeps(Opened(existing, recorded), es);
  }

  // ---- How a generation comes to be accepted ------------------------------------------------------

  // The accepted generation changes only when a publication ends well; then it is that candidate.
  lemma GenerationChange(s: Session, e: Event)
    requires Step(s, e).core.ledger != s.core.ledger
    ensures e == EndPublish(Published) && s.core.build.Some? && s.core.build.value.stage.Publishing?
    ensures Step(s, e).core == Accept(s.core)
  {
  }

  // A candidate is admitted only by the validator's approval of that very tree, and published only when
  // nothing newer supersedes it, on top of the tree that the session recorded.
  lemma StageMoves(s: Session, e: Event)
    requires Step(s, e).core.build.Some? && Step(s, e).core.build != s.core.build
    ensures var b := Step(s, e).core.build.value;
            match b.stage
            case Admitted(tree) => e == ValidatorAnswers(true) && s.core.build == Some(Build(b.cause, Validating(tree)))
            case Publishing(tree) => e == BeginPublish && s.core.build == Some(Build(b.cause, Admitted(tree))) && MayBegin(s.core)
            case _ => true
  {
  }

  predicate MayBegin(c: Core) {
    c.build.Some? && !c.closing && c.newestRebuildRevision <= c.build.value.cause.revision && DiskAsRecorded(c)
  }

  // The moments in a run at which one candidate was approved, began to be published, and was published.
  datatype Story = Story(cause: Cause, approved: nat, begun: nat, ended: nat)

  ghost predicate ApprovedAt(s: Session, es: seq<Event>, r: Story, tree: Tree) {
    && r.approved < |es| && es[r.approved] == ValidatorAnswers(true)
    && Run(s, es[..r.approved]).core.build == Some(Build(r.cause, Validating(tree)))
  }

  ghost predicate BegunAt(s: Session, es: seq<Event>, r: Story, tree: Tree) {
    && ApprovedAt(s, es, r, tree) && r.approved < r.begun < |es| && es[r.begun] == BeginPublish
    && Run(s, es[..r.begun]).core.build == Some(Build(r.cause, Admitted(tree))) && MayBegin(Run(s, es[..r.begun]).core)
  }

  // The n-th generation of the ledger is the candidate of this story.
  ghost predicate EndedAt(s: Session, es: seq<Event>, r: Story, n: nat, g: Generation) {
    && BegunAt(s, es, r, g.tree) && r.begun < r.ended < |es| && es[r.ended] == EndPublish(Published)
    && Run(s, es[..r.ended]).core.build == Some(Build(r.cause, Publishing(g.tree)))
    && |Run(s, es[..r.ended]).core.ledger.history| == n && r.cause.revision == g.revision
  }

  ghost predicate Earned(s: Session, es: seq<Event>, n: nat, g: Generation) {
    exists r: Story :: EndedAt(s, es, r, n, g)
  }

  // Where the build in progress stands.
  ghost predicate BuildEarned(s: Session, es: seq<Event>) {
    var c := Run(s, es).core;
    c.build.Some? ==>
      match c.build.value.stage
      case Admitted(tree) => exists r: Story :: r.cause == c.build.value.cause && ApprovedAt(s, es, r, tree)
      case Publishing(tree) => exists r: Story :: r.cause == c.build.value.cause && BegunAt(s, es, r, tree)
      case _ => true
  }

  ghost predicate LedgerEarned(s: Session, es: seq<Event>) {
    var history := Run(s, es).core.ledger.history;
    && |s.core.ledger.history| <= |history|
    && forall n :: |s.core.ledger.history| <= n < |history| ==> Earned(s, es, n, history[n])
  }

  lemma {:induction false} RunSnoc(s: Session, es: seq<Event>, e: Event)
    ensures Run(s, es + [e]) == Step(Run(s, es), e)
    decreases |es|
  {
    if es == [] {
      assert [] + [e] == [e] && [e][1..] == [];
      assert Run(s, [e]) == Run(Step(s, e), []);
    } else {
      assert (es + [e])[0] == es[0] && (es + [e])[1..] == es[1..] + [e];
      RunSnoc(Step(s, es[0]), es[1..], e);
    }
  }

  lemma StoryGoesOn(s: Session, es: seq<Event>, e: Event, r: Story, tree: Tree)
    ensures ApprovedAt(s, es, r, tree) ==> ApprovedAt(s, es + [e], r, tree)
    ensures BegunAt(s, es, r, tree) ==> BegunAt(s, es + [e], r, tree)
    ensures forall n: nat, g: Generation :: g.tree == tree && EndedAt(s, es, r, n, g) ==> EndedAt(s, es + [e], r, n, g)
  {
    assert forall i :: 0 <= i < |es| ==> (es + [e])[..i] == es[..i] && (es + [e])[i] == es[i];
  }

  lemma BuildEarnedOn(s: Session, es: seq<Event>, e: Event)
    requires BuildEarned(s, es)
    ensures BuildEarned(s, es + [e])
  {
    RunSnoc(s, es, e);
    var here, next := Run(s, es), Step(Run(s, es), e);
    assert (es + [e])[..|es|] == es;
    if next.core.build.Some? {
      var b := next.core.build.value;
      if b.stage.Admitted? || b.stage.Publishing? {
        if next.core.build != here.core.build {
          StageMoves(here, e);
          StageEarned(s, es, e, b);
        } else if b.stage.Admitted? {
          var r: Story :| r.cause == b.cause && ApprovedAt(s, es, r, b.stage.tree);
          StoryGoesOn(s, es, e, r, b.stage.tree);
        } else {
          var r: Story :| r.cause == b.cause && BegunAt(s, es, r, b.stage.tree);
          StoryGoesOn(s, es, e, r, b.stage.tree);
        }
      }
    }
  }

  lemma StageEarned(s: Session, es: seq<Event>, e: Event, b: Build)
    requires BuildEarned(s, es) && (es + [e])[..|es|] == es
    requires b.stage.Admitted? ==>
               e == ValidatorAnswers(true) && Run(s, es).core.build == Some(Build(b.cause, Validating(b.stage.tree)))
    requires b.stage.Publishing? ==>
               e == BeginPublish && Run(s, es).core.build == Some(Build(b.cause, Admitted(b.stage.tree))) && MayBegin(Run(s, es).core)
    ensures b.stage.Admitted? ==> exists r: Story :: r.cause == b.cause && ApprovedAt(s, es + [e], r, b.stage.tree)
    ensures b.stage.Publishing? ==> exists r: Story :: r.cause == b.cause && BegunAt(s, es + [e], r, b.stage.tree)
  {
    if b.stage.Admitted? {
      assert ApprovedAt(s, es + [e], Story(b.cause, |es|, 0, 0), b.stage.tree);
    } else if b.stage.Publishing? {
      var r: Story :| r.cause == b.cause && ApprovedAt(s, es, r, b.stage.tree);
      StoryGoesOn(s, es, e, r, b.stage.tree);
      var r' := Story(b.cause, r.approved, |es|, 0);
      assert ApprovedAt(s, es + [e], r', b.stage.tree);
      assert BegunAt(s, es + [e], r', b.stage.tree);
    }
  }

  lemma LedgerEarnedOn(s: Session, es: seq<Event>, e: Event)
    requires BuildEarned(s, es) && LedgerEarned(s, es)
    ensures LedgerEarned(s, es + [e])
  {
    RunSnoc(s, es, e);
    var here, next := Run(s, es), Step(Run(s, es), e);
    var was, now := here.core.ledger.history, next.core.ledger.history;
    if next.core.ledger != here.core.ledger {
      GenerationChange(here, e);
      NewestEarned(s, es, e);
    }
    forall n | |s.core.ledger.history| <= n < |now| ensures Earned(s, es + [e], n, now[n]) {
      if n < |was| {
        assert now[n] == was[n] && Earned(s, es, n, was[n]);
        EarnedGoesOn(s, es, e, n, was[n]);
      }
    }
  }

  lemma EarnedGoesOn(s: Session, es: seq<Event>, e: Event, n: nat, g: Generation)
    requires Earned(s, es, n, g)
    ensures Earned(s, es + [e], n, g)
  {
    var r: Story :| EndedAt(s, es, r, n, g);
    StoryGoesOn(s, es, e, r, g.tree);
    assert EndedAt(s, es + [e], r, n, g);
  }

  lemma NewestEarned(s: Session, es: seq<Event>, e: Event)
    requires BuildEarned(s, es) && e == EndPublish(Published)
    requires Run(s, es).core.build.Some? && Run(s, es).core.build.value.stage.Publishing?
    ensures var c := Run(s, es).core;
            Earned(s, es + [e], |c.ledger.history|, NextGeneration(c))
  {
    var c := Run(s, es).core;
    var b := c.build.value;
    var r: Story :| r.cause == b.cause && BegunAt(s, es, r, b.stage.tree);
    StoryGoesOn(s, es, e, r, b.stage.tree);
    assert (es + [e])[..|es|] == es;
    var r' := r.(ended := |es|);
    assert ApprovedAt(s, es + [e], r', b.stage.tree) && BegunAt(s, es + [e], r', b.stage.tree);
    assert EndedAt(s, es + [e], r', |c.ledger.history|, NextGeneration(c));
  }

  lemma {:induction false} EarnedThroughout(s: Session, es: seq<Event>)
    requires s.core.build.None?
    ensures BuildEarned(s, es) && LedgerEarned(s, es)
    decreases |es|
  {
    if es != [] {
      var init, e := es[..|es| - 1], es[|es| - 1];
      assert es == init + [e];
      EarnedThroughout(s, init);
      BuildEarnedOn(s, init, e);
      LedgerEarnedOn(s, init, e);
    }
  }

  // Over every run: each generation accepted since the start has its own story - its very tree was approved by
  // the validator, later began to be published while no rebuild had overtaken it and the public tree was the
  // recorded one, and later was published, once: the ledger then had exactly the generations before it.
  lemma GenerationsAreEarned(existing: Option<Generation>, recorded: Option<Tree>, es: seq<Event>, n: nat)
    requires existing.Some? ==> recorded == Some(existing.value.tree)
    requires var s := Opened(existing, recorded);
             |s.core.ledger.history| <= n < |Run(s, es).core.ledger.history|
    ensures var s := Opened(existing, recorded);
            Earned(s, es, n, Run(s, es).core.ledger.history[n])
  {
    EarnedThroughout(Opened(existing, recorded), es);
  }

  // Between publications the session changes neither its public tree nor its memory of it.
  lemma QuietStep(s: Session, e: Event)
    requires !e.EndPublish? && !e.EditPublic?
    ensures Step(s, e).core.disk == s.core.disk && Step(s, e).core.ledger == s.core.ledger
  {
  }

  lemma PublishedGrows(s: Session, outcome: Outcome)
    requires s.core.build.Some? && s.core.build.value.stage.Publishing?
    ensures var t := Step(s, EndPublish(outcome));
            if outcome.Published? then |t.core.ledger.history| == |s.core.ledger.history| + 1
            else t.core.ledger == s.core.ledger && t.core.disk == outcome.disk
  {
  }

  // Something else changed the public tree or its marker, and no publication is under way.
  ghost predicate ForeignTree(c: Core) {
    !DiskAsRecorded(c) && (c.build.Some? ==> !c.build.value.stage.Publishing?)
  }

  lemma ForeignStep(s: Session, e: Event)
    requires ForeignTree(s.core) && !e.EditPublic?
    ensures ForeignTree(Step(s, e).core)
    ensures Step(s, e).core.ledger == s.core.ledger && Step(s, e).core.disk == s.core.disk
  {
  }

  // From then on, over every run - further changes, builds, validations, publication attempts, close - no
  // publication begins, the foreign tree stays, and so does the last accepted generation, until somebody
  // edits the public tree again.
  lemma {:induction false} ForeignTreeBlocksPublication(s: Session, es: seq<Event>)
    requires ForeignTree(s.core) && forall e :: e in es ==> !e.EditPublic?
    ensures ForeignTree(Run(s, es).core)
    ensures Run(s, es).core.ledger == s.core.ledger && Run(s, es).core.disk == s.core.disk
    decreases |es|
  {
    if es != [] {
      assert es[0] in es && forall e :: e in es[1..] ==> e in es;
      ForeignStep(s, es[0]);
      ForeignTreeBlocksPublication(Step(s, es[0]), es[1..]);
    }
  }

  // ---- Informational and superseding changes --------------------------------------------------------

  // An informational change advances the revision and reports it, and leaves the build alone.
  lemma InformationalChange(s: Session, path: string, impact: Impact)
    requires !impact.rebuild && !s.core.closing
    ensures var t := Step(s, Observe(path, impact));
            && t.newestRevision == s.newestRevision + 1 && t.core == s.core
            && t.trail.log == s.trail.log + [Record(s.trail.lastSequence + 1, InputsChanged(t.newestRevision))]
  {
  }

  predicate WithinBuild(e: Event) {
    e.StepThrows? || e.PreparationRejected? || e.Generate? || e.ValidatorAnswers? || e.BeginPublish?
    || e.EndPublish? || e.Close? || e.EditPublic?
  }

  // What a build does to the core depends on the core alone.
  lemma SameStep(s: Session, t: Session, e: Event)
    requires s.core == t.core && WithinBuild(e)
    ensures Step(s, e).core == Step(t, e).core
  {
  }

  lemma {:induction false} SameOutcome(s: Session, t: Session, es: seq<Event>)
    requires s.core == t.core && forall e :: e in es ==> WithinBuild(e)
    ensures Run(s, es).core == Run(t, es).core
    decreases |es|
  {
    if es != [] {
      assert es[0] in es && forall e :: e in es[1..] ==> e in es;
      SameStep(s, t, es[0]);
      SameOutcome(Step(s, es[0]), Step(t, es[0]), es[1..]);
    }
  }

  // A build in progress ends the same way, with the same accepted generation and the same public tree,
  // whether or not an informational change was observed meanwhile.
  lemma InformationalKeepsBuild(s: Session, path: string, impact: Impact, es: seq<Event>)
    requires !impact.rebuild && forall e :: e in es ==> WithinBuild(e)
    ensures Run(Step(s, Observe(path, impact)), es).core == Run(s, es).core
  {
    if !s.core.closing { InformationalChange(s, path, impact); }
    SameOutcome(s, Step(s, Observe(path, impact)), es);
  }

  // The build of this cause, if it is still there, can no longer publish.
  ghost predicate Doomed(c: Core, cause: Cause) {
    c.build.None?
    || (c.build.value.cause == cause && !c.build.value.stage.Publishing? && cause.revision < c.newestRebuildRevision)
  }

  lemma DoomedStep(s: Session, cause: Cause, e: Event)
    requires Inv(s) && Doomed(s.core, cause) && !e.StartBuild?
    ensures Doomed(Step(s, e).core, cause) && Step(s, e).core.ledger == s.core.ledger
  {
  }

  lemma {:induction false} DoomedRun(s: Session, cause: Cause, es: seq<Event>)
    requires Inv(s) && Doomed(s.core, cause) && forall e :: e in es ==> !e.StartBuild?
    ensures Run(s, es).core.ledger == s.core.ledger && Doomed(Run(s, es).core, cause)
    decreases |es|
  {
    if es != [] {
      assert es[0] in es && forall e :: e in es[1..] ==> e in es;
      DoomedStep(s, cause, es[0]);
      StepKeeps(s, es[0]);
      DoomedRun(Step(s, es[0]), cause, es[1..]);
    }
  }

  // A change that needs a rebuild, observed before the publication of the build in progress has begun, dooms
  // that build: whatever happens until the next build starts, it is never published and never accepted.
  lemma SupersededNeverPublishes(s: Session, path: string, impact: Impact, es: seq<Event>)
    requires Inv(s) && !s.core.closing && impact.rebuild
    requires s.core.build.Some? && !s.core.build.value.stage.Publishing?
    requires forall e :: e in es ==> !e.StartBuild?
    ensures var t := Run(Step(s, Observe(path, impact)), es);
            t.core.ledger == s.core.ledger && (t.core.build.Some? ==> !t.core.build.value.stage.Publishing?)
  {
    StepKeeps(s, Observe(path, impact));
    assert Doomed(Step(s, Observe(path, impact)).core, s.core.build.value.cause);
    DoomedRun(Step(s, Observe(path, impact)), s.core.build.value.cause, es);
  }

  // ---- Reporting an acceptance ----------------------------------------------------------------------

  predicate Reported(t: Trail, g: Generation) {
    exists i :: 0 <= i < |t.log| && t.log[i].body == GenerationAccepted(g)
  }

  // Only generations of the ledger are ever reported as accepted.
  ghost predicate ReportsOk(s: Session) {
    && LedgerOk(s.core.ledger)
    && forall i :: 0 <= i < |s.trail.log| && s.trail.log[i].body.GenerationAccepted? ==>
         s.Accepted().Some? && s.trail.log[i].body.accepted.number <= s.Accepted().value.number
  }

  // What one step adds to the log reports at most the generation that it adds to the ledger, and does so
  // exactly when the session is not closing.
  predicate Adds(s: Session, t: Session) {
    && s.trail.log <= t.trail.log
    && forall i :: |s.trail.log| <= i < |t.trail.log| && t.trail.log[i].body.GenerationAccepted? ==>
         t.core.ledger != s.core.ledger && t.core.ledger.accepted == Some(t.trail.log[i].body.accepted)
  }

  lemma AppendAdds(s: Session, t: Session, body: Body)
    requires Adds(s, t) && !body.GenerationAccepted?
    ensures Adds(s, Emit(t, body))
  {
  }

  lemma FailAdds(s: Session, phase: FailurePhase, revision: Option<nat>, recoverable: bool)
    ensures Adds(s, Fail(s, phase, revision, recoverable))
  {
    if !s.core.closing {
      var failure := Failure(phase, revision, recoverable, s.Accepted());
      var next := if s.Accepted().None? then Blocked(failure) else Degraded(s.Accepted().value, failure);
      AppendAdds(s, s.(phase := next), StateChanged(next));
      AppendAdds(s, SetPhase(s, next), Failed(failure));
    }
  }

  lemma ObserveAdds(s: Session, path: string, impact: Impact)
    ensures Adds(s, OnObserve(s, path, impact))
  {
    if !s.core.closing { AppendAdds(s, s, InputsChanged(s.newestRevision + 1)); }
  }

  lemma SupersedeAdds(s: Session, t: Session, revision: nat)
    requires Adds(s, t) && t.core.ledger == s.core.ledger
    ensures Adds(s, Supersede(t, revision))
  {
    AppendAdds(s, t, CandidateSuperseded(revision, t.newestRevision));
  }

  lemma ThrowAdds(s: Session, phase: FailurePhase)
    requires s.core.build.Some?
    ensures Adds(s, OnThrow(s, phase))
  {
    SupersedeAdds(s, s, s.core.build.value.cause.revision);
    FailAdds(s, phase, Some(s.core.build.value.cause.revision), true);
  }

  lemma StartAdds(s: Session)
    ensures Adds(s, OnStartBuild(s))
  {
    if s.core.build.None? && s.pending.Some? && !s.core.closing && s.pending.value.rebuild {
      var cause := s.pending.value;
      var phase := Building(cause.revision, s.Accepted());
      var t := SetBuild(s.(pending := None), Some(Build(cause, Compiling)));
      AppendAdds(s, t.(phase := phase), StateChanged(phase));
      AppendAdds(s, SetPhase(t, phase), BuildStarted(cause.revision));
    }
  }

  lemma CloseAdds(s: Session)
    ensures Adds(s, OnClose(s)) && Adds(s, OnFinishClose(s))
  {
    AppendAdds(s, s.(core := s.core.(closing := true), pending := None, phase := Closing(s.Accepted())),
               StateChanged(Closing(s.Accepted())));
    AppendAdds(s, s.(phase := Closed(s.Accepted())), StateChanged(Closed(s.Accepted())));
    AppendAdds(s, SetPhase(s, Closed(s.Accepted())), SessionClosed);
  }

  lemma BuildAdds(s: Session, e: Event)
    requires s.core.build.Some? && !e.EndPublish?
    ensures Adds(s, OnBuildStep(s, e))
  {
    var revision := s.core.build.value.cause.revision;
    match e
    case Replanned(path) =>
      ObserveAdds(s, path, Impact(true, true, true));
      SupersedeAdds(s, OnObserve(s, path, Impact(true, true, true)), revision);
    case StepThrows(late) => ThrowAdds(s, ThrownIn(s.core.build.value, late));
    case PreparationRejected => FailAdds(s, Compile, Some(revision), true);
    case Generate(tree) => AppendAdds(s, s, CandidateGenerated(revision, tree));
    case ValidatorAnswers(_) =>
      FailAdds(s, Validate, Some(revision), true);
      SupersedeAdds(s, s, revision);
    case BeginPublish =>
      SupersedeAdds(s, s, revision);
      ThrowAdds(s, Publish);
    case _ =>
  }

  lemma StepAdds(s: Session, e: Event)
    requires !e.EndPublish?
    ensures Adds(s, Step(s, e)) && Step(s, e).core.ledger == s.core.ledger
  {
    match e
    case Observe(path, impact) => ObserveAdds(s, path, impact);
    case ObserveEscape => FailAdds(s, Watch, Newest(s), false);
    case StartBuild => StartAdds(s);
    case Close => CloseAdds(s);
    case FinishClose => CloseAdds(s);
    case EditPublic(_) =>
    case _ => if s.core.build.Some? { BuildAdds(s, e); }
  }

  lemma PublishAdds(s: Session, outcome: Outcome)
    requires s.core.build.Some? && s.core.build.value.stage.Publishing?
    ensures Adds(s, OnEndPublish(s, outcome))
    ensures outcome.Published? ==>
              (Reported(OnEndPublish(s, outcome).trail, NextGeneration(s.core))
               <==> !s.core.closing || Reported(s.trail, NextGeneration(s.core)))
  {
    match outcome
    case Threw(disk) =>
      var t := s.(core := s.core.(disk := disk));
      ThrowAdds(t, Publish);
    case Published =>
      var g := NextGeneration(s.core);
      var t := SetPhase(s.(core := Accept(s.core)), Ready(g));
      assert t.trail.log == s.trail.log + [Record(s.trail.lastSequence + 1, StateChanged(Ready(g)))];
      if s.core.closing {
        SameReports(s.trail, t.trail, g);
      } else {
        var log := Emit(t, GenerationAccepted(g)).trail.log;
        assert log[|t.trail.log|].body == GenerationAccepted(g);
      }
  }

  lemma SameReports(before: Trail, after: Trail, g: Generation)
    requires before.log <= after.log
    requires forall i :: |before.log| <= i < |after.log| ==> after.log[i].body != GenerationAccepted(g)
    ensures Reported(after, g) <==> Reported(before, g)
  {
    if Reported(before, g) {
      var i :| 0 <= i < |before.log| && before.log[i].body == GenerationAccepted(g);
      assert after.log[i].body == GenerationAccepted(g);
    }
    if Reported(after, g) {
      var i :| 0 <= i < |after.log| && after.log[i].body == GenerationAccepted(g);
      assert before.log[i].body == GenerationAccepted(g);
    }
  }

  lemma AnyAdds(s: Session, e: Event)
    ensures Adds(s, Step(s, e))
  {
    if e.EndPublish? {
      if s.core.build.Some? && s.core.build.value.stage.Publishing? { PublishAdds(s, e.outcome); }
    } else {
      StepAdds(s, e);
    }
  }

  lemma NumbersRise(s: Session, e: Event)
    ensures Step(s, e).core.ledger == s.core.ledger
            || (&& Step(s, e).Accepted().Some?
                && Step(s, e).Accepted().value.number == (if s.Accepted().Some? then s.Accepted().value.number else 0) + 1)
  {
    if Step(s, e).core.ledger != s.core.ledger { GenerationChange(s, e); }
  }

  lemma ReportsOkStep(s: Session, e: Event)
    requires Inv(s) && ReportsOk(s)
    ensures Inv(Step(s, e)) && ReportsOk(Step(s, e))
    ensures forall g: Generation :: s.Accepted().Some? && g.number <= s.Accepted().value.number ==>
              (Reported(Step(s, e).trail, g) <==> Reported(s.trail, g))
  {
    StepKeeps(s, e);
    AnyAdds(s, e);
    NumbersRise(s, e);
    var t := Step(s, e);
    forall g: Generation | s.Accepted().Some? && g.number <= s.Accepted().value.number
      ensures Reported(t.trail, g) <==> Reported(s.trail, g) {
      SameReports(s.trail, t.trail, g);
    }
  }

  lemma {:induction false} ReportsStay(s: Session, es: seq<Event>, g: Generation)
    requires Inv(s) && ReportsOk(s)
    ensures Inv(Run(s, es)) && ReportsOk(Run(s, es))
    ensures s.Accepted().Some? && g.number <= s.Accepted().value.number ==>
              (Reported(Run(s, es).trail, g) <==> Reported(s.trail, g))
    decreases |es|
  {
    if es != [] {
      ReportsOkStep(s, es[0]);
      NumbersRise(s, es[0]);
      ReportsStay(Step(s, es[0]), es[1..], g);
    }
  }

  // A publication that ends well always advances the accepted generation. Over every run before it and after
  // it, that generation is reported as accepted if and only if the session was not closing at that moment.
  lemma AcceptedWhileClosing(existing: Option<Generation>, recorded: Option<Tree>, before: seq<Event>, after: seq<Event>)
    requires existing.Some? ==> recorded == Some(existing.value.tree)
    requires var c := Run(Opened(existing, recorded), before).core; c.build.Some? && c.build.value.stage.Publishing?
    ensures var s := Run(Opened(existing, recorded), before);
            var t := Step(s, EndPublish(Published));
            && t.Accepted() == Some(NextGeneration(s.core)) && t.core.disk.public == Some(s.core.build.value.stage.tree)
            && (Reported(Run(t, after).trail, NextGeneration(s.core)) <==> !s.core.closing)
  {
    OpenedIsGood(existing, recorded);
    OpenedReports(existing, recorded);
    ReportsStay(Opened(existing, recorded), before, Generation(0, 0, 0));
    var s := Run(Opened(existing, recorded), before);
    PublishAdds(s, Published);
    ReportsOkStep(s, EndPublish(Published));
    ReportsStay(Step(s, EndPublish(Published)), after, NextGeneration(s.core));
  }

  lemma OpenedReports(existing: Option<Generation>, recorded: Option<Tree>)
    requires existing.Some? ==> recorded == Some(existing.value.tree)
    ensures ReportsOk(Opened(existing, recorded))
  {
    OpenedIsGood(existing, recorded);
  }

  // ---- The mutable session ----------------------------------------------------------------------------

  class Runtime {
    var state: Phase
    var lastSequence: nat
    var events: seq<Record>
    var newestRevision: nat
    var newestRebuildRevision: nat
    var accepted: Option<Generation>
    var recorded: Option<Tree>
    var public: Option<Tree>
    var marker: Option<Tree>
    var pending: Option<Cause>
    var active: Option<Build>
    var closing: bool
    ghost var history: seq<Generation>

    ghost function View(): Session
      reads this
    {
      Session(Core(Ledger(accepted, recorded, history), Disk(public, marker), active, closing, newestRebuildRevision),
              state, Trail(lastSequence, events), newestRevision, pending)
    }

    ghost predicate Valid()
      reads this
    {
      Inv(View())
    }

    // The session when startup has finished.
    constructor (existing: Option<Generation>, marker: Option<Tree>)
      requires existing.Some? ==> marker == Some(existing.value.tree)
      ensures Valid() && View() == Opened(existing, marker)
    {
      var revision := (if existing.Some? then existing.value.revision else 0) + 1;
      newestRevision, newestRebuildRevision := revision, revision;
      accepted, recorded, public, this.marker := existing, marker, marker, marker;
      pending, active, closing := Some(Cause(revision, {}, false, false, true)), None, false;
      history := if existing.Some? then [existing.value] else [];
      state, lastSequence, events := Opening, 0, [];
      new;
      OpenedIsGood(existing, marker);
      if existing.Some? {
        SetState(Ready(existing.value));
        EmitEvent(GenerationAccepted(existing.value));
      }
    }

    method EmitEvent(body: Body)
      modifies this`lastSequence, this`events
      ensures View() == Emit(old(View()), body)
    {
      lastSequence := lastSequence + 1;
      events := events + [Record(lastSequence, body)];
    }

    method SetState(phase: Phase)
      modifies this`state, this`lastSequence, this`events
      ensures View() == SetPhase(old(View()), phase)
    {
      state := phase;
      EmitEvent(StateChanged(phase));
    }

    method FailWith(phase: FailurePhase, revision: Option<nat>, recoverable: bool)
      modifies this`state, this`lastSequence, this`events
      ensures View() == Fail(old(View()), phase, revision, recoverable)
    {
      if closing { return; }
      var failure := Failure(phase, revision, recoverable, accepted);
      if accepted.None? { SetState(Blocked(failure)); } else { SetState(Degraded(accepted.value, failure)); }
      EmitEvent(Failed(failure));
    }

    method ObserveChange(path: string, impact: Impact)
      requires Valid()
      modifies this
      ensures Valid() && View() == OnObserve(old(View()), path, impact)
    {
      ObserveKeeps(View(), path, impact);
      if closing { return; }
      newestRevision := newestRevision + 1;
      if impact.rebuild { newestRebuildRevision := newestRevision; }
      EmitEvent(InputsChanged(newestRevision));
      var cause := Cause(newestRevision, {path}, impact.reinventory, impact.restartCompiler, impact.rebuild);
      pending := Some(Merged(pending, cause));
    }

    method SupersedeBuild(revision: nat)
      modifies this`lastSequence, this`events, this`active
      ensures View() == Supersede(old(View()), revision)
    {
      EmitEvent(CandidateSuperseded(revision, newestRevision));
      active := None;
    }

    // The dirty loop hands the merged cause to the build.
    method StartBuilding()
      requires Valid()
      modifies this
      ensures Valid() && View() == OnStartBuild(old(View()))
    {
      StartKeeps(View());
      if active.Some? || pending.None? { return; }
      var cause := pending.value;
      pending := None;
      if closing || !cause.rebuild { return; }
      active := Some(Build(cause, Compiling));
      SetState(Building(cause.revision, accepted));
      EmitEvent(BuildStarted(cause.revision));
    }

    method Catch(phase: FailurePhase)
      requires Valid() && active.Some?
      modifies this
      ensures Valid() && View() == OnThrow(old(View()), phase)
    {
      ThrowKeeps(View(), phase);
      var revision := active.value.cause.revision;
      if closing {
        active := None;
      } else if revision < newestRebuildRevision {
        SupersedeBuild(revision);
      } else {
        FailWith(phase, Some(revision), true);
        active := None;
      }
    }

    // Something in the build threw before the publisher was called.
    method StepThrew(late: bool)
      requires Valid() && active.Some?
      modifies this
      ensures Valid() && View() == Step(old(View()), StepThrows(late))
    {
      if !active.value.stage.Publishing? { Catch(ThrownIn(active.value, late)); }
    }

    method CandidateReady(tree: Tree)
      requires Valid() && active.Some?
      modifies this
      ensures Valid() && View() == OnGenerate(old(View()), tree)
    {
      GenerateKeeps(View(), tree);
      var b := active.value;
      if !b.stage.Compiling? { return; }
      if closing {
        active := None;
        return;
      }
      EmitEvent(CandidateGenerated(b.cause.revision, tree));
      active := Some(Build(b.cause, Validating(tree)));
    }

    method ValidatorReturned(ok: bool)
      requires Valid() && active.Some?
      modifies this
      ensures Valid() && View() == OnValidated(old(View()), ok)
    {
      ValidatedKeeps(View(), ok);
      var b := active.value;
      if !b.stage.Validating? { return; }
      if closing {
        active := None;
      } else if !ok {
        FailWith(Validate, Some(b.cause.revision), true);
        active := None;
      } else if b.cause.revision < newestRebuildRevision {
        SupersedeBuild(b.cause.revision);
      } else {
        active := Some(Build(b.cause, Admitted(b.stage.tree)));
      }
    }

    // The checks inside the write gate, before the publisher is called.
    method CheckBeforePublish()
      requires Valid() && active.Some?
      modifies this
      ensures Valid() && View() == OnBeginPublish(old(View()))
    {
      BeginKeeps(View());
      var b := active.value;
      if !b.stage.Admitted? { return; }
      if closing {
        active := None;
      } else if b.cause.revision < newestRebuildRevision {
        SupersedeBuild(b.cause.revision);
      } else if marker != recorded || public != recorded {
        Catch(Publish);
      } else {
        active := Some(Build(b.cause, Publishing(b.stage.tree)));
      }
    }

    method AcceptCandidate()
      requires Valid() && active.Some? && active.value.stage.Publishing?
      modifies this
      ensures View() == OnEndPublish(old(View()), Published)
      ensures accepted.Some? && public == Some(accepted.value.tree)
    {
      var b := active.value;
      var g := Generation((if accepted.Some? then accepted.value.number else 0) + 1, b.cause.revision, b.stage.tree);
      ghost var before := View();
      public, marker := Some(g.tree), Some(g.tree);
      accepted, recorded, history, active := Some(g), Some(g.tree), history + [g], None;
      assert View() == before.(core := Accept(before.core)) && g == NextGeneration(before.core);
      SetState(Ready(g));
      if closing { return; }
      EmitEvent(GenerationAccepted(g));
    }

    // The publisher returned; the public tree and its marker are as it left them.
    method PublisherReturned(outcome: Outcome)
      requires Valid() && active.Some?
      modifies this
      ensures Valid() && View() == OnEndPublish(old(View()), outcome)
    {
      PublishKeeps(View(), outcome);
      if !active.value.stage.Publishing? { return; }
      match outcome
      case Published => AcceptCandidate();
      case Threw(disk) =>
        public, marker := disk.public, disk.marker;
        Catch(Publish);
    }

    // The invocation resolved differently from the one planned.
    method InvocationChanged(path: string)
      requires Valid() && active.Some?
      modifies this
      ensures Valid() && View() == OnReplanned(old(View()), path)
    {
      ReplannedKeeps(View(), path);
      if !active.value.stage.Compiling? { return; }
      if closing {
        active := None;
        return;
      }
      ObserveChange(path, Impact(true, true, true));
      SupersedeBuild(active.value.cause.revision);
    }

    method PreparationFailed()
      requires Valid() && active.Some?
      modifies this
      ensures Valid() && View() == OnPreparationRejected(old(View()))
    {
      RejectedKeeps(View());
      if !active.value.stage.Compiling? { return; }
      FailWith(Compile, Some(active.value.cause.revision), true);
      active := None;
    }

    // A watched path lies outside the declared roots.
    method PathEscaped()
      requires Valid()
      modifies this
      ensures Valid() && View() == Step(old(View()), ObserveEscape)
    {
      FailKeeps(View(), Watch, Newest(View()), false);
      FailWith(Watch, if newestRevision == 0 then None else Some(newestRevision), false);
    }

    method BeginClose()
      requires Valid()
      modifies this
      ensures Valid() && View() == OnClose(old(View()))
    {
      CloseKeeps(View());
      if closing { return; }
      closing, pending := true, None;
      SetState(Closing(accepted));
    }

    method EndClose()
      requires Valid()
      modifies this
      ensures Valid() && View() == OnFinishClose(old(View()))
    {
      CloseKeeps(View());
      if !closing || active.Some? || state.Closed? { return; }
      SetState(Closed(accepted));
      EmitEvent(SessionClosed);
    }
  }
}
