/**
 The session on top of the artifact transaction. What the session sees of its public tree after a publication
 call is derived from a run of the step machine, not assumed; so is the condition under which the last
 accepted generation stays public. Any faults may come on the way, in any number.
 */
module SessionPublication {
  import opened Wrappers
  import opened ArtifactPlan
  import opened ArtifactProtocol
  import opened ArtifactSafety
  import opened ArtifactNesting
  import opened ArtifactRecovery
  import opened ArtifactTheorems
  import opened ArtifactFaults
  import S = DevelopmentSession

  // ---- One publication call ---------------------------------------------------------------------------

  datatype Call = Call(caller: Caller, plan: Plan, transaction: nat, rest: seq<Event>)

  // Nothing from outside: no other call, and no edit.
  predicate Own(e: Event) {
    !e.Publish? && !e.Recover? && !e.EditLive? && !e.EditStage?
  }

  predicate OwnEvents(es: seq<Event>)
    decreases |es|
  {
    es != [] ==> Own(es[0]) && OwnEvents(es[1..])
  }

  // Between calls: no private backups, or a journal that tells of them.
  predicate Sound(f: Sys) {
    f.proc.Idle? && (f.disk.journal.None? ==> f.disk.backup == map[])
  }

  function Opened(f: Sys, call: Call): Sys {
    Step(f, Publish(call.caller, call.plan, call.transaction))
  }

  function After(f: Sys, call: Call): Sys {
    Run(Opened(f, call), call.rest)
  }

  // The call runs to its end, with any host answers and any I/O errors, and without outside edits. A process
  // exit would end the session too.
  predicate CallOk(f: Sys, call: Call) {
    && Sound(f) && OwnEvents(call.rest)
    && After(f, call).proc.Idle? && After(f, call).proc.last != Crashed
  }

  ghost predicate SameStates(t: Tree, u: Tree) {
    forall q: string :: At(t, q) == At(u, q)
  }

  ghost predicate SameOutside(t: Tree, u: Tree, plan: Plan) {
    forall q: string :: !PlanPath(plan, q) ==> At(t, q) == At(u, q)
  }

  // ---- A call over a journal that somebody left ----------------------------------------------------------

  predicate Refused(x: Sys, live: Tree, plan: Plan) {
    && x.disk.journal.Some? && x.disk.live == live
    && match x.proc
       case Idle(o) => o == Crashed || o.Failed?
       case Opening(q, _, _, _) => q == plan
       case Forward(q, _, at) => q == plan && (at == Recheck || at == Draft(Prepared))
       case Releasing(_, _) => true
       case _ => false
  }

  lemma RefusedStep(x: Sys, e: Event, live: Tree, plan: Plan)
    requires Refused(x, live, plan) && Own(e)
    ensures Refused(Step(x, e), live, plan)
  {
  }

  lemma {:induction false} RunRefused(x: Sys, es: seq<Event>, live: Tree, plan: Plan)
    requires Refused(x, live, plan) && OwnEvents(es)
    ensures Refused(Run(x, es), live, plan)
    decreases |es|
  {
    if es != [] {
      RefusedStep(x, es[0], live, plan);
      RunRefused(Step(x, es[0]), es[1..], live, plan);
    }
  }

  // ---- A call that keeps every needed backup ---------------------------------------------------------------

  // Inside the call, it is this plan's.
  predicate Running(p: Proc, plan: Plan) {
    match p
    case Idle(o) => o == PublishedPlan(plan) || o == Crashed || o.Failed?
    case Opening(q, _, _, _) => q == plan
    case Forward(q, _, _) => q == plan
    case Releasing(_, _) => true
    case Settling(j, _, v, _) => j.plan == plan && v.Failed?
    case Recovering(_, _, _) => false
  }

  // Once the journal is gone the plan's files are prior; or the call is over and they are next.
  predicate Tidied(x: Sys, plan: Plan) {
    x.disk.journal.None? ==> AllPrior(x.disk, plan) || (x.proc.Idle? && AllNext(x.disk, plan))
  }

  ghost predicate OnCourse(x: Sys, live: Tree, plan: Plan) {
    Inv(x) && Running(x.proc, plan) && Tidied(x, plan) && SameOutside(live, x.disk.live, plan)
  }

  lemma OutsideStays(x: Sys, e: Event, plan: Plan)
    requires Inv(x) && Calm(x, e) && (PlanOf(x.proc).Some? ==> PlanOf(x.proc) == Some(plan))
    ensures SameOutside(x.disk.live, Step(x, e).disk.live, plan)
  {
    StepFrame(x, e);
  }

  lemma ForwardRuns(x: Sys)
    requires x.proc.Forward? && (Journaled(x.proc.at) ==> Underway(x.disk, x.proc.plan, x.proc.mine))
    ensures Running(Act(x).proc, x.proc.plan)
  {
    if x.proc.at.Move? {
      assert Act(x) == MoveStep(x.disk, x.proc.plan, x.proc.mine, x.proc.at.index);
    } else if x.proc.at.Place? {
      assert Act(x) == PlaceStep(x.disk, x.proc.plan, x.proc.mine, x.proc.at.index);
    }
  }

  lemma SettlingRuns(x: Sys)
    requires x.proc.Settling? && x.proc.verdict.Failed?
    ensures Running(Act(x).proc, x.proc.journal.plan)
  {
  }

  lemma OthersRun(x: Sys, plan: Plan)
    requires Running(x.proc, plan) && (x.proc.Idle? || x.proc.Opening? || x.proc.Releasing?)
    ensures Running(Act(x).proc, plan)
  {
  }

  lemma GoRuns(x: Sys, plan: Plan)
    requires Inv(x) && Running(x.proc, plan)
    ensures Running(Act(x).proc, plan)
  {
    if x.proc.Forward? {
      if Journaled(x.proc.at) { ForwardUnder(x); }
      ForwardRuns(x);
    } else if x.proc.Settling? {
      SettlingRuns(x);
    } else {
      OthersRun(x, plan);
    }
  }

  lemma FaultRuns(x: Sys, e: Event, plan: Plan)
    requires Inv(x) && Running(x.proc, plan) && !x.proc.Idle? && (e.IoError? || e.Reply?)
    ensures Running(Step(x, e).proc, plan)
  {
    if x.proc.Forward? && Step(x, e).proc.Settling? { FaultHolder(x, e); }
  }

  lemma StepRuns(x: Sys, e: Event, plan: Plan)
    requires Inv(x) && Running(x.proc, plan) && Own(e)
    ensures Running(Step(x, e).proc, plan)
  {
    if e.Go? { GoRuns(x, plan); }
    else if (e.IoError? || e.Reply?) && !x.proc.Idle? { FaultRuns(x, e, plan); }
  }

  lemma ActDropsJournal(x: Sys, plan: Plan)
    requires Inv(x) && Running(x.proc, plan) && x.disk.journal.Some? && Act(x).disk.journal.None?
    ensures Act(x).disk.live == x.disk.live
    ensures AllPrior(x.disk, plan) || (AllNext(x.disk, plan) && x.proc.Forward? && x.proc.at.SweepJournal?)
  {
    if x.proc.Forward? {
      ForwardDropsJournal(x);
    } else if x.proc.Settling? {
      SettlingDropsJournal(x);
    }
  }

  lemma ForwardDropsJournal(x: Sys)
    requires x.proc.Forward? && x.disk.journal.Some?
    ensures Act(x).disk.journal.None? ==> x.proc.at.SweepJournal?
  {
    match x.proc.at
    case Move(i) => assert Act(x) == MoveStep(x.disk, x.proc.plan, x.proc.mine, i);
    case Place(i) => assert Act(x) == PlaceStep(x.disk, x.proc.plan, x.proc.mine, i);
    case _ =>
  }

  lemma SettlingDropsJournal(x: Sys)
    requires x.proc.Settling? && x.disk.journal.Some?
    ensures Act(x).disk.journal.None? ==> x.proc.settlement.CleanJournal?
  {
    var j, l, v := x.proc.journal, x.proc.holder, x.proc.verdict;
    match x.proc.settlement
    case Reverse(k) => assert Act(x) == ReverseStep(x.disk, j, l, v, k);
    case Restore(k) => assert Act(x) == RestoreStep(x.disk, j, l, v, k);
    case _ =>
  }

  lemma StepTidied(x: Sys, e: Event, plan: Plan)
    requires Inv(x) && Running(x.proc, plan) && Tidied(x, plan) && Calm(x, e) && Own(e)
    ensures Tidied(Step(x, e), plan)
  {
    if x.disk.journal.None? {
      StepFrame(x, e);
    } else if Step(x, e).disk.journal.None? {
      assert Act(x).disk.journal.None?;
      ActDropsJournal(x, plan);
    }
  }

  lemma OnCourseStep(x: Sys, e: Event, live: Tree, plan: Plan)
    requires OnCourse(x, live, plan) && Calm(x, e) && Own(e)
    ensures OnCourse(Step(x, e), live, plan)
  {
    StepKeeps(x, e);
    StepRuns(x, e, plan);
    StepTidied(x, e, plan);
    OutsideStays(x, e, plan);
  }

  // ---- A call that rolls back although a needed backup is gone ---------------------------------------------

  // Steps of a rollback before its whole tree has been found prior.
  predicate Undoing(s: Settlement) {
    s == Write(RollingBack) || s == Rename(RollingBack) || s.Reverse? || s.Restore? || s.CheckPrior?
  }

  ghost predicate Astray(x: Sys, live: Tree, plan: Plan) {
    && SameOutside(live, x.disk.live, plan)
    && match x.proc
       case Idle(o) =>
         (o.Failed? || o == Crashed) && (x.disk.journal.None? ==> AllPrior(x.disk, plan) && x.disk.backup == map[])
       case Settling(j, _, v, s) =>
         && j.plan == plan && v.Failed? && x.disk.journal.Some?
         && (!Undoing(s) ==> AllPrior(x.disk, plan))
         && (s.CleanLock? || s.CleanJournal? ==> x.disk.backup == map[])
       case _ => false
  }

  lemma GoesAstray(x: Sys, e: Event, live: Tree, plan: Plan)
    requires OnCourse(x, live, plan) && !Calm(x, e) && Own(e)
    ensures Astray(Step(x, e), live, plan)
  {
    CleanupFault(x, e.applied);
  }

  lemma AstrayUndo(x: Sys, live: Tree, plan: Plan)
    requires Astray(x, live, plan) && x.proc.Settling? && (x.proc.settlement.Reverse? || x.proc.settlement.Restore?)
    ensures Astray(Act(x), live, plan) && Act(x).disk.journal.Some?
  {
    var j, l, v, k := x.proc.journal, x.proc.holder, x.proc.verdict, x.proc.settlement.remaining;
    if 0 < k <= |plan.Transitions()| { assert PlanPath(plan, plan.Transitions()[k - 1].path); }
    if x.proc.settlement.Reverse? { assert Act(x) == ReverseStep(x.disk, j, l, v, k); }
    else { assert Act(x) == RestoreStep(x.disk, j, l, v, k); }
  }

  lemma AstrayAct(x: Sys, live: Tree, plan: Plan)
    requires Astray(x, live, plan)
    ensures Astray(Act(x), live, plan)
    ensures Act(x).disk.journal.None? ==> AllPrior(Act(x).disk, plan) && Act(x).disk.backup == map[]
  {
    if x.proc.Settling? {
      match x.proc.settlement
      case Reverse(_) => AstrayUndo(x, live, plan);
      case Restore(_) => AstrayUndo(x, live, plan);
      case CleanWork => assert x.disk.backup.Keys == {} ==> x.disk.backup == map[];
      case _ => SameLive(x.disk, Act(x).disk, plan);
    }
  }

  lemma AstrayStep(x: Sys, e: Event, live: Tree, plan: Plan)
    requires Astray(x, live, plan) && Own(e)
    ensures Astray(Step(x, e), live, plan)
  {
    AstrayAct(x, live, plan);
    if e.Sweep? { SameLive(x.disk, Step(x, e).disk, plan); }
  }

  // ---- The whole call ----------------------------------------------------------------------------------------

  lemma {:induction false} RunAstray(x: Sys, es: seq<Event>, live: Tree, plan: Plan)
    requires Astray(x, live, plan) && OwnEvents(es)
    ensures Astray(Run(x, es), live, plan)
    decreases |es|
  {
    if es != [] {
      AstrayStep(x, es[0], live, plan);
      RunAstray(Step(x, es[0]), es[1..], live, plan);
    }
  }

  lemma {:induction false} RunInCall(x: Sys, es: seq<Event>, live: Tree, plan: Plan)
    requires OnCourse(x, live, plan) && OwnEvents(es)
    ensures OnCourse(Run(x, es), live, plan) || Astray(Run(x, es), live, plan)
    decreases |es|
  {
    if es != [] {
      if Calm(x, es[0]) {
        OnCourseStep(x, es[0], live, plan);
        RunInCall(Step(x, es[0]), es[1..], live, plan);
      } else {
        GoesAstray(x, es[0], live, plan);
        RunAstray(Step(x, es[0]), es[1..], live, plan);
      }
    }
  }

  lemma {:induction false} IdleRests(x: Sys, es: seq<Event>)
    requires x.proc.Idle? && OwnEvents(es)
    ensures Run(x, es) == x
    decreases |es|
  {
    if es != [] {
      assert Step(x, es[0]) == x;
      IdleRests(x, es[1..]);
    }
  }

  // The three ways of a call that gets past its first reading.
  lemma CallCourse(f: Sys, call: Call)
    requires Sound(f) && OwnEvents(call.rest) && !Opened(f, call).proc.Idle?
    ensures AllPrior(f.disk, call.plan)
    ensures var g := After(f, call);
            if f.disk.journal.Some? then Refused(g, f.disk.live, call.plan)
            else OnCourse(g, f.disk.live, call.plan) || Astray(g, f.disk.live, call.plan)
  {
    var x := Opened(f, call);
    assert x.proc.Opening? && x.disk == f.disk;
    if f.disk.journal.Some? {
      RunRefused(x, call.rest, f.disk.live, call.plan);
    } else {
      RunInCall(x, call.rest, f.disk.live, call.plan);
    }
  }

  // A call, whatever faults it meets, leaves every other file alone; if it ends well the plan's files are at
  // their next states; and it leaves no backup without a journal.
  lemma CallFrame(f: Sys, call: Call)
    requires CallOk(f, call)
    ensures var g := After(f, call);
            && Sound(g) && SameOutside(f.disk.live, g.disk.live, call.plan)
            && (g.proc.last == Unchanged || g.proc.last == PublishedPlan(call.plan) || g.proc.last.Failed?)
            && (!g.proc.last.Failed? ==> AllNext(g.disk, call.plan))
  {
    if Opened(f, call).proc.Idle? { IdleRests(Opened(f, call), call.rest); } else { CallCourse(f, call); }
  }

  // Two trees that differ at the plan's paths only and are both prior there are the same.
  lemma PriorIsSame(d: Disk, e: Disk, plan: Plan)
    requires AllPrior(d, plan) && SameOutside(d.live, e.live, plan)
    ensures AllPrior(e, plan) <==> SameStates(d.live, e.live)
  {
    var ts := plan.Transitions();
    if AllPrior(e, plan) {
      forall q: string ensures At(d.live, q) == At(e.live, q) {
        if PlanPath(plan, q) {
          var i :| 0 <= i < |ts| && ts[i].path == q;
          assert At(d.live, ts[i].path) == ts[i].prior && At(e.live, ts[i].path) == ts[i].prior;
        }
      }
    }
  }

  // A call that leaves no journal left every file as it was or every file of the plan at its next state,
  // whatever faults it met.
  lemma CallIsAllOrNothing(f: Sys, call: Call)
    requires CallOk(f, call) && After(f, call).disk.journal.None?
    ensures SameStates(f.disk.live, After(f, call).disk.live) || AllNext(After(f, call).disk, call.plan)
  {
    if Opened(f, call).proc.Idle? {
      IdleRests(Opened(f, call), call.rest);
    } else {
      CallCourse(f, call);
      CallFrame(f, call);
      PriorIsSame(f.disk, After(f, call).disk, call.plan);
    }
  }

  // ---- What the session makes of it -------------------------------------------------------------------

  // How the session reads its public tree and its marker from live files: by their states alone.
  ghost predicate Looks(look: Tree -> S.Disk) {
    forall t: Tree, u: Tree {:trigger look(t), look(u)} :: SameStates(t, u) ==> look(t) == look(u)
  }

  // The tree after a complete publication of the plan over these live files.
  ghost predicate Completed(live: Tree, next: Tree, plan: Plan) {
    && SameOutside(live, next, plan)
    && forall i :: 0 <= i < |plan.Transitions()| ==>
         At(next, plan.Transitions()[i].path) == plan.Transitions()[i].next
  }

  // The session prepared a plan whose next files are the candidate and its marker.
  ghost predicate Prepares(look: Tree -> S.Disk, live: Tree, plan: Plan, candidate: S.Tree) {
    forall next: Tree :: Completed(live, next, plan) ==> look(next) == S.Disk(Some(candidate), Some(candidate))
  }

  // Any other state of the plan's files looks different from the present one.
  ghost predicate Telling(look: Tree -> S.Disk, live: Tree, plan: Plan) {
    forall t: Tree :: SameOutside(live, t, plan) && look(t) == look(live) ==> SameStates(live, t)
  }

  // What the publisher's promise settles with.
  function Result(look: Tree -> S.Disk, f: Sys): S.Outcome
    requires f.proc.Idle?
  {
    if f.proc.last == Unchanged || f.proc.last.PublishedPlan? then S.Published else S.Threw(look(f.disk.live))
  }

  // The session has an admitted candidate, is about to publish it by this plan, and knows its public files.
  ghost predicate Asks(look: Tree -> S.Disk, s: S.Session, f: Sys, plan: Plan) {
    && look(f.disk.live) == s.core.disk
    && s.core.build.Some? && s.core.build.value.stage.Publishing?
    && Prepares(look, f.disk.live, plan, s.core.build.value.stage.tree)
  }

  // And this is the call that it makes.
  ghost predicate Calls(look: Tree -> S.Disk, s: S.Session, f: Sys, call: Call) {
    CallOk(f, call) && Asks(look, s, f, call.plan)
  }

  // The session after it has heard of the call.
  function Heard(look: Tree -> S.Disk, s: S.Session, g: Sys): S.Session
    requires g.proc.Idle?
  {
    S.Step(s, S.EndPublish(Result(look, g)))
  }

  // The session's picture of its public tree is the true one after the call, however the call ended.
  lemma PictureStaysTrue(look: Tree -> S.Disk, s: S.Session, f: Sys, call: Call)
    requires Calls(look, s, f, call)
    ensures Heard(look, s, After(f, call)).core.disk == look(After(f, call).disk.live)
  {
    CallFrame(f, call);
    var g := After(f, call);
    if Result(look, g).Published? {
      assert Completed(f.disk.live, g.disk.live, call.plan);
    }
  }

  // The last accepted generation, or the tree found on disk before the first one, is public.
  ghost predicate LastGood(look: Tree -> S.Disk, s: S.Session, f: Sys) {
    look(f.disk.live) == S.Disk(s.core.ledger.recorded, s.core.ledger.recorded)
  }

  // The call succeeded, or left every file as it found it.
  ghost predicate Harmless(look: Tree -> S.Disk, f: Sys, call: Call)
    requires After(f, call).proc.Idle?
  {
    Result(look, After(f, call)).Published? || SameStates(f.disk.live, After(f, call).disk.live)
  }

  // After a call, the last accepted generation is public if and only if the call succeeded - then it is the
  // candidate - or left every file of the plan in the state it found.
  lemma LastGoodIff(look: Tree -> S.Disk, s: S.Session, f: Sys, call: Call)
    requires Looks(look) && Calls(look, s, f, call) && Telling(look, f.disk.live, call.plan)
    requires S.DiskAsRecorded(s.core)
    ensures LastGood(look, Heard(look, s, After(f, call)), After(f, call)) <==> Harmless(look, f, call)
  {
    CallFrame(f, call);
    PictureStaysTrue(look, s, f, call);
    LedgerAfterCall(s, Result(look, After(f, call)));
  }

  lemma LedgerAfterCall(s: S.Session, r: S.Outcome)
    requires s.core.build.Some? && s.core.build.value.stage.Publishing?
    ensures var t := S.Step(s, S.EndPublish(r));
            && t.core.build.None?
            && (if r.Published? then t.core.ledger.recorded == Some(s.core.build.value.stage.tree)
                else t.core.ledger == s.core.ledger)
    ensures r.Published? ==> S.DiskAsRecorded(S.Step(s, S.EndPublish(r)).core)
  {
  }

  // A call that leaves no journal does harm in one way only: an error reported over the complete next tree.
  lemma TidyIsHarmless(look: Tree -> S.Disk, f: Sys, call: Call)
    requires CallOk(f, call) && After(f, call).disk.journal.None? && Accepted(call.plan)
    ensures Harmless(look, f, call) <==> !(Result(look, After(f, call)).Threw? && AllNext(After(f, call).disk, call.plan))
  {
    CallIsAllOrNothing(f, call);
    CallFrame(f, call);
    if After(f, call).proc.last.Failed? { SameIsNotNext(f, call); }
  }

  lemma SameIsNotNext(f: Sys, call: Call)
    requires CallOk(f, call) && Accepted(call.plan) && After(f, call).proc.last.Failed?
    ensures SameStates(f.disk.live, After(f, call).disk.live) ==> !AllNext(After(f, call).disk, call.plan)
  {
    if AllPrior(f.disk, call.plan) {
      CallFrame(f, call);
      PriorIsSame(f.disk, After(f, call).disk, call.plan);
      MarkerTells(After(f, call).disk, call.plan);
    } else {
      IdleRests(Opened(f, call), call.rest);
    }
  }

  // So in that case the last accepted generation is public unless the call reported an error over the next tree.
  lemma TidyLastGood(look: Tree -> S.Disk, s: S.Session, f: Sys, call: Call)
    requires Looks(look) && Calls(look, s, f, call) && Telling(look, f.disk.live, call.plan)
    requires S.DiskAsRecorded(s.core) && After(f, call).disk.journal.None? && Accepted(call.plan)
    ensures var g := After(f, call);
            LastGood(look, Heard(look, s, g), g) <==> !(Result(look, g).Threw? && AllNext(g.disk, call.plan))
  {
    LastGoodIff(look, s, f, call);
    TidyIsHarmless(look, f, call);
  }

  // ---- One fault ----------------------------------------------------------------------------------------

  lemma {:induction false} UndisturbedIsOwn(es: seq<Event>)
    requires Undisturbed(es)
    ensures OwnEvents(es)
    decreases |es|
  {
    if es != [] {
      assert es[0] in es && forall e :: e in es[1..] ==> e in es;
      UndisturbedIsOwn(es[1..]);
    }
  }

  lemma {:induction false} OwnAppend(es: seq<Event>, fs: seq<Event>)
    requires OwnEvents(es) && OwnEvents(fs)
    ensures OwnEvents(es + fs)
    decreases |es|
  {
    if es == [] {
      assert es + fs == fs;
    } else {
      assert (es + fs)[0] == es[0] && (es + fs)[1..] == es[1..] + fs;
      OwnAppend(es[1..], fs);
    }
  }

  // A call that goes on as before, then suffers this fault, and is left alone to its end.
  function Faulted(c: Caller, plan: Plan, transaction: nat, before: seq<Event>, e: Event, es: seq<Event>): Call {
    Call(c, plan, transaction, before + ([e] + es))
  }

  lemma FaultedRun(y: Sys, before: seq<Event>, e: Event, es: seq<Event>)
    requires OwnEvents(before) && Fault(Run(y, before), e) && Undisturbed(es)
    ensures OwnEvents(before + ([e] + es)) && Run(y, before + ([e] + es)) == Run(Step(Run(y, before), e), es)
  {
    UndisturbedIsOwn(es);
    assert ([e] + es)[0] == e && ([e] + es)[1..] == es;
    OwnAppend(before, [e] + es);
    RunAppend(y, before, [e] + es);
  }

  // A publication that has not met a fault yet.
  predicate Steady(x: Sys, live: Tree) {
    TempAtSeal(x) && (Outset(x.proc) ==> x.disk.live == live)
  }

  predicate Busy(p: Proc) { p.Opening? || p.Forward? || p.Releasing? }

  lemma ForwardSteady(x: Sys, live: Tree)
    requires Inv(x) && Steady(x, live) && x.proc.Forward?
    ensures Steady(Act(x), live)
  {
    NoSealBack(x);
    match x.proc.at
    case Move(_) => MovesSteady(x, live);
    case Place(_) => MovesSteady(x, live);
    case Draft(_) => WritesSteady(x, live);
    case Seal(_) => WritesSteady(x, live);
    case _ => ChecksSteady(x, live);
  }

  lemma NoSealBack(x: Sys)
    requires Inv(x) && x.proc.Forward?
    ensures x.proc.at != Seal(RollingBack)
  {
  }

  lemma MovesSteady(x: Sys, live: Tree)
    requires Steady(x, live) && x.proc.Forward? && (x.proc.at.Move? || x.proc.at.Place?)
    ensures Steady(Act(x), live)
  {
    if x.proc.at.Move? {
      assert Act(x) == MoveStep(x.disk, x.proc.plan, x.proc.mine, x.proc.at.index);
    } else {
      assert Act(x) == PlaceStep(x.disk, x.proc.plan, x.proc.mine, x.proc.at.index);
    }
  }

  lemma WritesSteady(x: Sys, live: Tree)
    requires Steady(x, live) && x.proc.Forward? && (x.proc.at.Draft? || x.proc.at.Seal?) && x.proc.at != Seal(RollingBack)
    ensures Steady(Act(x), live)
  {
  }

  lemma ChecksSteady(x: Sys, live: Tree)
    requires Steady(x, live) && x.proc.Forward?
    requires !x.proc.at.Draft? && !x.proc.at.Seal? && !x.proc.at.Move? && !x.proc.at.Place?
    ensures Steady(Act(x), live)
  {
  }

  lemma OtherSteady(x: Sys, live: Tree)
    requires Steady(x, live) && !x.proc.Forward? && !x.proc.Recovering?
    ensures Steady(Act(x), live)
  {
  }

  lemma StepSteady(x: Sys, e: Event, live: Tree)
    requires Inv(x) && Steady(x, live) && Own(e) && !x.proc.Recovering?
    ensures Steady(Step(x, e), live)
  {
    if x.proc.Forward? { ForwardSteady(x, live); } else { OtherSteady(x, live); }
    if e.IoError? && Outset(x.proc) { EarlyFaultStep(x, e); }
  }

  lemma {:induction false} NeverBusyAgain(x: Sys, es: seq<Event>)
    requires (x.proc.Idle? || x.proc.Settling?) && OwnEvents(es)
    ensures !Busy(Run(x, es).proc)
    decreases |es|
  {
    if es != [] {
      assert Step(x, es[0]).proc.Idle? || Step(x, es[0]).proc.Settling?;
      NeverBusyAgain(Step(x, es[0]), es[1..]);
    }
  }

  // Up to its first fault, a publication of legible paths meets the terms of OneFaultExact.
  lemma {:induction false} BeforeFault(y: Sys, before: seq<Event>, live: Tree, plan: Plan)
    requires Inv(y) && Busy(y.proc) && Reads(y, plan) && Steady(y, live)
    requires OwnEvents(before) && Busy(Run(y, before).proc)
    ensures var x := Run(y, before); Inv(x) && Reads(x, plan) && Steady(x, live)
    decreases |before|
  {
    if before != [] {
      var e, z := before[0], Step(y, before[0]);
      if !Busy(z.proc) { NoLongerBusy(y, e); NeverBusyAgain(z, before[1..]); }
      SteadyStep(y, e, live, plan);
      BeforeFault(z, before[1..], live, plan);
    }
  }

  lemma NoLongerBusy(y: Sys, e: Event)
    requires Busy(y.proc) && Own(e) && !Busy(Step(y, e).proc)
    ensures Step(y, e).proc.Idle? || Step(y, e).proc.Settling?
  {
  }

  lemma SteadyStep(y: Sys, e: Event, live: Tree, plan: Plan)
    requires Inv(y) && Busy(y.proc) && Reads(y, plan) && Steady(y, live) && Own(e) && Busy(Step(y, e).proc)
    ensures var z := Step(y, e); Inv(z) && Reads(z, plan) && Steady(z, live)
  {
    StaysCalm(y, e);
    StepKeeps(y, e);
    StepReads(y, e, plan);
    StepSteady(y, e, live);
  }

  lemma StaysCalm(y: Sys, e: Event)
    requires Inv(y) && Busy(y.proc) && Own(e) && Busy(Step(y, e).proc)
    ensures Calm(y, e)
  {
    if !Calm(y, e) { CleanupFault(y, e.applied); }
  }

  // Some fault at some moment of a call, and the call left alone afterwards: it fails, and leaves every file as
  // it was if and only if the fault is neither torn nor late.
  lemma FaultedCall(f: Sys, c: Caller, plan: Plan, transaction: nat, before: seq<Event>, e: Event) returns (es: seq<Event>)
    requires Sound(f) && Readable(f.disk.live, plan)
    requires OwnEvents(before) && Fault(Run(Step(f, Publish(c, plan, transaction)), before), e)
    ensures var call, x := Faulted(c, plan, transaction, before, e, es), Run(Step(f, Publish(c, plan, transaction)), before);
            && CallOk(f, call) && After(f, call).proc.last.Failed?
            && (SameStates(f.disk.live, After(f, call).disk.live) <==> !Torn(x, e) && !Late(x, e))
  {
    var y := Step(f, Publish(c, plan, transaction));
    if y.proc.Idle? { IdleRests(y, before); assert false; }
    else {
      assert y.proc.Opening? && y.disk == f.disk;
      es := FaultAfterOpening(f, y, plan, before, e);
      FaultedRun(y, before, e, es);
      var call := Faulted(c, plan, transaction, before, e, es);
      assert Opened(f, call) == y;
      CallFrame(f, call);
      PriorIsSame(f.disk, After(f, call).disk, plan);
    }
  }

  lemma FaultAfterOpening(f: Sys, y: Sys, plan: Plan, before: seq<Event>, e: Event) returns (es: seq<Event>)
    requires Sound(f) && y.proc.Opening? && y.proc.plan == plan && y.disk == f.disk
    requires Accepted(plan) && AllPrior(f.disk, plan) && Readable(f.disk.live, plan)
    requires OwnEvents(before) && Fault(Run(y, before), e)
    ensures Undisturbed(es)
    ensures var x, g := Run(y, before), Run(Step(Run(y, before), e), es);
            g.proc.Idle? && g.proc.last.Failed? && (AllPrior(g.disk, plan) <==> !Torn(x, e) && !Late(x, e))
  {
    var x := Run(y, before);
    if f.disk.journal.Some? {
      RunRefused(y, before, f.disk.live, plan);
      SameLive(f.disk, x.disk, plan);
      es := EarlyFault(x, e, plan);
    } else {
      BeforeFault(y, before, f.disk.live, plan);
      if Outset(x.proc) { SameLive(f.disk, x.disk, plan); }
      es := OneFaultExact(x, e, plan);
    }
  }

  // The condition on the artifact layer: after a call with one fault anywhere, the last accepted generation is
  // public if and only if the fault is neither torn nor late.
  lemma OneFaultLastGood(look: Tree -> S.Disk, s: S.Session, f: Sys, c: Caller, plan: Plan, transaction: nat,
                         before: seq<Event>, e: Event) returns (es: seq<Event>)
    requires Looks(look) && Telling(look, f.disk.live, plan) && Sound(f) && Readable(f.disk.live, plan)
    requires Asks(look, s, f, plan) && S.DiskAsRecorded(s.core)
    requires OwnEvents(before) && Fault(Run(Step(f, Publish(c, plan, transaction)), before), e)
    ensures var call, x := Faulted(c, plan, transaction, before, e, es), Run(Step(f, Publish(c, plan, transaction)), before);
            && CallOk(f, call) && Result(look, After(f, call)).Threw?
            && (LastGood(look, Heard(look, s, After(f, call)), After(f, call)) <==> !Torn(x, e) && !Late(x, e))
  {
    es := FaultedCall(f, c, plan, transaction, before, e);
    LastGoodIff(look, s, f, Faulted(c, plan, transaction, before, e, es));
  }

  // ---- A session and its files over whole runs ----------------------------------------------------------

  datatype World = World(session: S.Session, files: Sys)

  datatype Happening = Occurs(e: S.Event) | Publishes(call: Call)

  function Next(look: Tree -> S.Disk, w: World, h: Happening): World {
    match h
    case Occurs(e) => World(S.Step(w.session, e), w.files)
    case Publishes(call) =>
      var g := After(w.files, call);
      World(S.Step(w.session, S.EndPublish(if g.proc.Idle? then Result(look, g) else S.Threw(look(g.disk.live)))), g)
  }

  function Lives(look: Tree -> S.Disk, w: World, hs: seq<Happening>): World
    decreases |hs|
  {
    if hs == [] then w else Lives(look, Next(look, w, hs[0]), hs[1..])
  }

  // Nobody else edits public files, and publications are made by the session.
  ghost predicate Faithful(look: Tree -> S.Disk, w: World, h: Happening) {
    match h
    case Occurs(e) => !e.EndPublish? && !e.EditPublic?
    case Publishes(call) => Calls(look, w.session, w.files, call) && Telling(look, w.files.disk.live, call.plan)
  }

  ghost predicate FaithfulLife(look: Tree -> S.Disk, w: World, hs: seq<Happening>)
    decreases |hs|
  {
    hs != [] ==> Faithful(look, w, hs[0]) && FaithfulLife(look, Next(look, w, hs[0]), hs[1..])
  }

  // Every publication succeeds or leaves the files as it finds them.
  ghost predicate HarmlessLife(look: Tree -> S.Disk, w: World, hs: seq<Happening>)
    decreases |hs|
  {
    hs != [] ==>
      && (hs[0].Publishes? && After(w.files, hs[0].call).proc.Idle? ==> Harmless(look, w.files, hs[0].call))
      && HarmlessLife(look, Next(look, w, hs[0]), hs[1..])
  }

  ghost predicate InStep(look: Tree -> S.Disk, w: World) {
    && S.Inv(w.session) && Sound(w.files) && look(w.files.disk.live) == w.session.core.disk
    && (w.session.core.build.Some? && w.session.core.build.value.stage.Publishing? ==> S.DiskAsRecorded(w.session.core))
  }

  lemma OccursInStep(look: Tree -> S.Disk, w: World, e: S.Event)
    requires InStep(look, w) && !e.EndPublish? && !e.EditPublic?
    ensures InStep(look, Next(look, w, Occurs(e)))
    ensures S.Step(w.session, e).core.disk == w.session.core.disk && S.Step(w.session, e).core.ledger == w.session.core.ledger
  {
    S.StepKeeps(w.session, e);
    S.QuietStep(w.session, e);
    var t := S.Step(w.session, e);
    if t.core.build.Some? && t.core.build != w.session.core.build { S.StageMoves(w.session, e); }
  }

  lemma CallInStep(look: Tree -> S.Disk, w: World, call: Call)
    requires Looks(look) && InStep(look, w) && Faithful(look, w, Publishes(call))
    ensures var v := Next(look, w, Publishes(call));
            && InStep(look, v) && v.session.core.build.None?
            && (S.DiskAsRecorded(v.session.core) <==> Harmless(look, w.files, call))
  {
    CallFrame(w.files, call);
    PictureStaysTrue(look, w.session, w.files, call);
    LedgerAfterCall(w.session, Result(look, After(w.files, call)));
    S.StepKeeps(w.session, S.EndPublish(Result(look, After(w.files, call))));
    LastGoodIff(look, w.session, w.files, call);
  }

  // Once the public tree is not the recorded one the session publishes nothing more, so it stays that way.
  lemma {:induction false} StaysLost(look: Tree -> S.Disk, w: World, hs: seq<Happening>)
    requires InStep(look, w) && FaithfulLife(look, w, hs) && !S.DiskAsRecorded(w.session.core)
    ensures !LastGood(look, Lives(look, w, hs).session, Lives(look, w, hs).files)
    decreases |hs|
  {
    if hs != [] {
      assert hs[0].Occurs?;
      OccursInStep(look, w, hs[0].e);
      StaysLost(look, Next(look, w, hs[0]), hs[1..]);
    }
  }

  // Over every run of a session and its files, with any builds, failures, rejections, closing, and with any
  // faults in its publications: at the end the public files show the last accepted generation, or what was
  // there before the first, if and only if every publication succeeded or left the files as it found them.
  lemma {:induction false} LastGoodExactly(look: Tree -> S.Disk, w: World, hs: seq<Happening>)
    requires Looks(look) && InStep(look, w) && S.DiskAsRecorded(w.session.core) && FaithfulLife(look, w, hs)
    ensures var v := Lives(look, w, hs);
            LastGood(look, v.session, v.files) <==> HarmlessLife(look, w, hs)
    decreases |hs|
  {
    if hs != [] {
      var v := Next(look, w, hs[0]);
      match hs[0]
      case Occurs(e) =>
        OccursInStep(look, w, e);
        LastGoodExactly(look, v, hs[1..]);
      case Publishes(call) =>
        CallInStep(look, w, call);
        if Harmless(look, w.files, call) { LastGoodExactly(look, v, hs[1..]); } else { StaysLost(look, v, hs[1..]); }
    }
  }

  // No publication leaves a journal behind, and none reports an error over the complete next tree.
  ghost predicate TidyLife(look: Tree -> S.Disk, w: World, hs: seq<Happening>)
    decreases |hs|
  {
    hs != [] ==>
      && (hs[0].Publishes? && After(w.files, hs[0].call).proc.Idle? ==>
            var g := After(w.files, hs[0].call);
            g.disk.journal.None? && !(Result(look, g).Threw? && AllNext(g.disk, hs[0].call.plan)))
      && TidyLife(look, Next(look, w, hs[0]), hs[1..])
  }

  lemma {:induction false} TidyLifeIsHarmless(look: Tree -> S.Disk, w: World, hs: seq<Happening>)
    requires TidyLife(look, w, hs) && FaithfulLife(look, w, hs)
    ensures HarmlessLife(look, w, hs)
    decreases |hs|
  {
    if hs != [] {
      if hs[0].Publishes? { CallIsAllOrNothing(w.files, hs[0].call); }
      TidyLifeIsHarmless(look, Next(look, w, hs[0]), hs[1..]);
    }
  }

  // So while its publications clean up after themselves, whatever faults they meet, the public files show the
  // last accepted generation, and they change only when a generation is accepted.
  lemma LastGoodStaysPublic(look: Tree -> S.Disk, w: World, hs: seq<Happening>)
    requires Looks(look) && InStep(look, w) && S.DiskAsRecorded(w.session.core)
    requires FaithfulLife(look, w, hs) && TidyLife(look, w, hs)
    ensures var v := Lives(look, w, hs);
            && LastGood(look, v.session, v.files)
            && (v.session.Accepted().Some? ==>
                  look(v.files.disk.live) == S.Disk(Some(v.session.Accepted().value.tree), Some(v.session.Accepted().value.tree)))
            && w.session.core.ledger.history <= v.session.core.ledger.history
            && (v.session.core.ledger.history == w.session.core.ledger.history ==>
                  look(v.files.disk.live) == look(w.files.disk.live))
  {
    TidyLifeIsHarmless(look, w, hs);
    LastGoodExactly(look, w, hs);
    HistoryGrows(look, w, hs);
  }

  lemma {:induction false} HistoryGrows(look: Tree -> S.Disk, w: World, hs: seq<Happening>)
    requires Looks(look) && InStep(look, w) && FaithfulLife(look, w, hs)
    ensures var v := Lives(look, w, hs);
            && S.Inv(v.session) && w.session.core.ledger.history <= v.session.core.ledger.history
            && (v.session.core.ledger.history == w.session.core.ledger.history ==> v.session.core.ledger == w.session.core.ledger)
    decreases |hs|
  {
    if hs != [] {
      match hs[0] {
        case Occurs(e) =>
          OccursInStep(look, w, e);
        case Publishes(call) =>
          CallInStep(look, w, call);
          S.StepKeeps(w.session, S.EndPublish(Result(look, After(w.files, call))));
          S.PublishedGrows(w.session, Result(look, After(w.files, call)));
      }
      HistoryGrows(look, Next(look, w, hs[0]), hs[1..]);
    }
  }
}
