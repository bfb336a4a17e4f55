/**
 Where the promises stop: a transaction that no recovery can finish, and an outside edit that is lost.
 */
module ArtifactLimits {
  import opened Wrappers
  import opened ArtifactPlan
  import opened ArtifactProtocol
  import opened ArtifactSafety
  import opened ArtifactRecovery
  import opened ArtifactTheorems

  // ---- 1. An exit between writing and renaming the temporary journal --------------------------------

  // An undecided transaction behind a temporary journal file that nobody will rename.
  predicate Stuck(s: Sys, d: Disk) {
    && s.disk.temp == d.temp && s.disk.journal == d.journal && s.disk.lock == d.lock
    && d.temp.Some? && d.journal.Some? && d.lock.Some? && !d.journal.value.phase.Committed?
    && match s.proc
       case Idle(o) => !Succeeded(o)
       case Opening(_, _, _, _) => true
       case Recovering(_, owner, decision) => owner.Some? && !decision.DropJournal?
       case Settling(_, _, _, settlement) => BeforeSeal(settlement)
       case _ => false
  }

  predicate Succeeded(o: Outcome) {
    o.PublishedPlan? || o.CommittedPlan? || o.RolledBack?
  }

  lemma StuckAct(s: Sys, d: Disk)
    requires Stuck(s, d)
    ensures Stuck(Act(s), d)
  {
  }

  lemma StuckStep(s: Sys, e: Event, d: Disk)
    requires Stuck(s, d)
    ensures Stuck(Step(s, e), d)
  {
    StuckAct(s, d);
  }

  lemma {:induction false} StuckForever(s: Sys, es: seq<Event>, d: Disk)
    requires Stuck(s, d)
    ensures Stuck(Run(s, es), d)
    decreases |es|
  {
    if es != [] {
      StuckStep(s, es[0], d);
      StuckForever(Step(s, es[0]), es[1..], d);
    }
  }

  // A publication of any authorised plan that stops in that gap can never be finished: whatever happens
  // afterwards - any publications and recoveries by anyone, exits, I/O errors, edits of any file - the
  // temporary file, the journal and the lock stay, and no call ever publishes, finalises or rolls back. The live tree is still
  // exactly prior; RecoveryCompletesIff says the leftover temporary file is the whole reason.
  lemma TornJournalIsStuck(s: Sys, c: Caller, plan: Plan, transaction: nat) returns (es: seq<Event>)
    requires Fresh(s) && s.proc == Idle(NeverStarted) && Authorised(s.disk, plan)
    ensures CalmRun(s, es) && Run(s, es).proc == Idle(Crashed) && CrashOk(Run(s, es).disk)
    ensures AllPrior(Run(s, es).disk, plan) && Run(s, es).disk.journal == Some(Journal(plan, transaction, Prepared))
    ensures forall later: seq<Event> :: Stuck(Run(Run(s, es), later), Run(s, es).disk)
  {
    var s3 := PublishStarts(s, c, plan, transaction);
    var s4 := Step(s3, Go);
    var s5 := Step(s4, Go);
    var s6 := Step(s5, Go);
    var s7 := Step(s6, Exit);
    assert s6.proc.at == Seal(Publishing);
    var gap := Cons(s6, Exit, []);
    gap := Cons(s5, Go, gap);
    gap := Cons(s4, Go, gap);
    gap := Cons(s3, Go, gap);
    assert Run(s3, gap) == s7;
    es := [Publish(c, plan, transaction), Go, Go] + gap;
    CalmAppend(s, [Publish(c, plan, transaction), Go, Go], gap);
    RunAppend(s, [Publish(c, plan, transaction), Go, Go], gap);
    RunKeeps(s3, gap);
    SameFiles(s3.disk, s7.disk, plan, 0);
    forall later: seq<Event> ensures Stuck(Run(s7, later), s7.disk) { StuckForever(s7, later, s7.disk); }
  }

  lemma Cons(s: Sys, e: Event, rest: seq<Event>) returns (es: seq<Event>)
    requires Calm(s, e) && CalmRun(Step(s, e), rest)
    ensures es == [e] + rest && CalmRun(s, es) && Run(s, es) == Run(Step(s, e), rest)
  {
    es := [e] + rest;
    assert es[0] == e && es[1..] == rest;
  }

  // ---- 2. An outside edit inside the window ---------------------------------------------------------

  // All moves are done and every live file is at its next state, whatever the backups hold.
  predicate TailReady(s: Sys) {
    && s.proc.Forward? && AllNext(s.disk, s.proc.plan)
    && (s.proc.at.SweepJournal? || s.disk.lock == Some(s.proc.mine))
    && (s.disk.temp.Some? <==> s.proc.at.Seal?)
    && (s.proc.at == Move(|s.proc.plan.Transitions()|)
        || s.proc.at == Draft(Published) || s.proc.at == Seal(Published) || s.proc.at == Ask || s.proc.at == Confirm
        || s.proc.at == Draft(Committed) || s.proc.at == Seal(Committed) || Sweeps(s.proc.at))
    && (s.proc.at.SweepLock? || s.proc.at.SweepJournal? ==> s.disk.backup.Keys == {})
  }

  predicate TailAdvances(s: Sys, f: Sys) {
    && s.proc.Forward? && f.disk.live == s.disk.live
    && (if s.proc.at.SweepJournal? then f.proc == Idle(PublishedPlan(s.proc.plan)) && f.disk.backup.Keys == {}
        else TailReady(f) && f.proc.plan == s.proc.plan
             && (ForwardRank(s.proc.plan, f.proc.at) < ForwardRank(s.proc.plan, s.proc.at)
                 || (f.proc.at == s.proc.at && |f.disk.backup| < |s.disk.backup|)))
  }

  lemma TailWrites(s: Sys)
    requires TailReady(s) && (s.proc.at.Draft? || s.proc.at.Seal?)
    ensures TailAdvances(s, Act(s))
  {
    RecoverableStays(s.disk, Act(s).disk, s.proc.plan);
  }

  lemma TailSweeps(s: Sys)
    requires TailReady(s) && (s.proc.at.SweepTemp? || s.proc.at.SweepLock? || s.proc.at.SweepJournal?)
    ensures TailAdvances(s, Act(s))
  {
    RecoverableStays(s.disk, Act(s).disk, s.proc.plan);
  }

  lemma TailSweepsOne(s: Sys, path: string)
    requires TailReady(s) && s.proc.at.SweepWork? && path in s.disk.backup.Keys
    ensures TailAdvances(s, Step(s, Sweep(path)))
  {
    var e := s.disk.(backup := s.disk.backup - {path});
    RemoveShrinks(s.disk.backup, path);
    assert e.live == s.disk.live && AllNext(e, s.proc.plan);
    assert Step(s, Sweep(path)) == Sys(e, s.proc);
  }

  lemma TailSweepsWork(s: Sys)
    requires TailReady(s) && s.proc.at.SweepWork?
    ensures TailAdvances(s, Step(s, Proceed(s)))
  {
    if s.disk.backup.Keys != {} {
      TailSweepsOne(s, Proceed(s).path);
    } else {
      assert Step(s, Proceed(s)) == Sys(s.disk, Forward(s.proc.plan, s.proc.mine, SweepLock));
    }
  }

  lemma TailMoves(s: Sys)
    requires TailReady(s) && s.proc.at.Move?
    ensures TailAdvances(s, Act(s))
  {
    assert Act(s) == MoveStep(s.disk, s.proc.plan, s.proc.mine, s.proc.at.index);
  }

  lemma TailAsks(s: Sys)
    requires TailReady(s) && (s.proc.at.Ask? || s.proc.at.Confirm?)
    ensures TailAdvances(s, Step(s, Proceed(s)))
  {
    if s.proc.at.Ask? {
      assert Step(s, Reply(Yes)) == Sys(s.disk, Forward(s.proc.plan, s.proc.mine, Confirm));
    } else {
      assert Act(s) == Sys(s.disk, Forward(s.proc.plan, s.proc.mine, Draft(Committed)));
    }
  }

  lemma TailStep(s: Sys)
    requires TailReady(s)
    ensures TailAdvances(s, Step(s, Proceed(s)))
  {
    match s.proc.at
    case Move(_) => TailMoves(s);
    case SweepWork => TailSweepsWork(s);
    case Draft(_) => TailWrites(s);
    case Seal(_) => TailWrites(s);
    case Ask => TailAsks(s);
    case Confirm => TailAsks(s);
    case _ => TailSweeps(s);
  }

  lemma {:induction false} TailPublishes(s: Sys) returns (es: seq<Event>)
    requires TailReady(s)
    ensures Undisturbed(es) && Run(s, es).proc == Idle(PublishedPlan(s.proc.plan))
    ensures Run(s, es).disk.live == s.disk.live && Run(s, es).disk.backup.Keys == {}
    decreases ForwardRank(s.proc.plan, s.proc.at), |s.disk.backup|
  {
    TailStep(s);
    var e := Proceed(s);
    if s.proc.at.SweepJournal? {
      es := [e];
      assert es[1..] == [];
      assert Run(s, es) == Run(Step(s, e), []);
    } else {
      var rest := TailPublishes(Step(s, e));
      es := [e] + rest;
      assert es[0] == e && es[1..] == rest;
    }
  }

  // ---- The window -------------------------------------------------------------------------------------

  // After the second check, and the last move of this transition's file is still to come.
  predicate Pending(plan: Plan, at: Point, i: nat) {
    && i < |plan.Transitions()| && plan.Transitions()[i].Changes()
    && match at
       case Draft(phase) => phase.Prepared? || phase.Publishing?
       case Seal(phase) => phase.Prepared? || phase.Publishing?
       case Move(k) => k <= i
       case Place(k) => k < i || (k == i && plan.Transitions()[i].next.File?)
       case _ => false
  }

  predicate NextBelow(d: Disk, plan: Plan, k: nat) {
    forall i :: 0 <= i < |plan.Transitions()| && i < k ==> At(d.live, plan.Transitions()[i].path) == plan.Transitions()[i].next
  }

  // Any bytes may stand where a file is going to be replaced, removed or created.
  predicate Loose(d: Disk, t: Transition) {
    if t.Changes() then t.prior.File? ==> At(d.live, t.path).File? else At(d.live, t.path) == t.prior
  }

  predicate LooseFrom(d: Disk, plan: Plan, k: nat) {
    forall i :: k <= i < |plan.Transitions()| ==> Loose(d, plan.Transitions()[i])
  }

  predicate OverrunAt(d: Disk, plan: Plan, at: Point) {
    var ts := plan.Transitions();
    match at
    case Draft(phase) =>
      (phase.Prepared? || phase.Publishing?) && LooseFrom(d, plan, 0) && StagedFrom(d, plan, 0)
      && (phase.Prepared? ==> d.journal.None?)
    case Seal(phase) => (phase.Prepared? || phase.Publishing?) && LooseFrom(d, plan, 0) && StagedFrom(d, plan, 0)
    case Move(k) => k <= |ts| && NextBelow(d, plan, k) && LooseFrom(d, plan, k) && StagedFrom(d, plan, k)
    case Place(k) =>
      && k < |ts| && ts[k].Changes() && (ts[k].next.Absent? ==> At(d.live, ts[k].path).Absent?)
      && NextBelow(d, plan, k) && LooseFrom(d, plan, k + 1) && StagedFrom(d, plan, k)
    case _ => false
  }

  // A publication between its second check and its last move, over files that others may have edited.
  predicate Overrun(s: Sys) {
    && s.proc.Forward? && Accepted(s.proc.plan) && s.disk.lock == Some(s.proc.mine)
    && (s.disk.temp.Some? <==> s.proc.at.Seal?) && OverrunAt(s.disk, s.proc.plan, s.proc.at)
  }

  lemma ReadyIsOverrun(m: Sys)
    requires ForwardReady(m) && Opens(m.proc.at)
    ensures Overrun(m)
  {
    var plan, at := m.proc.plan, m.proc.at;
    var k := if at.Move? || at.Place? then at.index else 0;
    forall i | 0 <= i < |plan.Transitions()| && i < k
      ensures At(m.disk.live, plan.Transitions()[i].path) == plan.Transitions()[i].next {
      assert Done(m.disk, plan.Transitions()[i]);
    }
    LooseAfterCheck(m);
  }

  predicate Opens(at: Point) {
    match at
    case Draft(phase) => phase.Prepared? || phase.Publishing?
    case Seal(phase) => phase.Prepared? || phase.Publishing?
    case Move(_) => true
    case Place(_) => true
    case _ => false
  }

  lemma LooseAfterCheck(m: Sys)
    requires Inv(m) && m.proc.Forward? && Opens(m.proc.at)
    ensures LooseFrom(m.disk, m.proc.plan,
                      if m.proc.at.Move? then m.proc.at.index else if m.proc.at.Place? then m.proc.at.index + 1 else 0)
  {
    var plan, at := m.proc.plan, m.proc.at;
    var k := if at.Move? then at.index else if at.Place? then at.index + 1 else 0;
    forall i | k <= i < |plan.Transitions()| ensures Loose(m.disk, plan.Transitions()[i]) {
      assert At(m.disk.live, plan.Transitions()[i].path) == plan.Transitions()[i].prior;
    }
  }

  // An edit of a file whose last move is still to come.
  predicate Blind(s: Sys, e: Event) {
    && e.EditLive? && e.state.File? && s.proc.Forward?
    && exists i :: 0 <= i < |s.proc.plan.Transitions()| && Pending(s.proc.plan, s.proc.at, i)
                   && s.proc.plan.Transitions()[i].path == e.path
  }

  lemma BlindStep(s: Sys, e: Event)
    requires Overrun(s) && Blind(s, e)
    ensures Overrun(Step(s, e))
  {
    var plan, at, ts := s.proc.plan, s.proc.at, s.proc.plan.Transitions();
    var i :| 0 <= i < |ts| && Pending(plan, at, i) && ts[i].path == e.path;
    forall j | 0 <= j < |ts| && j != i ensures At(Step(s, e).disk.live, ts[j].path) == At(s.disk.live, ts[j].path) {
      assert ts[j].path != ts[i].path;
    }
  }

  lemma OverrunWrites(s: Sys)
    requires Overrun(s) && (s.proc.at.Draft? || s.proc.at.Seal?)
    ensures Overrun(Act(s)) && Act(s).proc.plan == s.proc.plan
    ensures ForwardRank(s.proc.plan, Act(s).proc.at) < ForwardRank(s.proc.plan, s.proc.at)
  {
    var plan, mine, phase := s.proc.plan, s.proc.mine, s.proc.at.phase;
    if s.proc.at.Draft? {
      assert Act(s) == Sys(s.disk.(temp := Some(Journal(plan, mine.transaction, phase))), Forward(plan, mine, Seal(phase)));
    } else {
      assert Act(s) == Sys(s.disk.(journal := s.disk.temp, temp := None), Forward(plan, mine, AfterSeal(phase)));
    }
  }

  // Changing one path, or taking one staged file, leaves the other transitions as they were.
  lemma Elsewhere(d: Disk, e: Disk, plan: Plan, k: nat)
    requires Accepted(plan) && k < |plan.Transitions()|
    requires forall q :: q != plan.Transitions()[k].path ==> At(e.live, q) == At(d.live, q)
    requires forall q :: Some(q) != plan.Transitions()[k].stagedPath ==> At(e.stage, q) == At(d.stage, q)
    ensures NextBelow(d, plan, k) ==> NextBelow(e, plan, k)
    ensures LooseFrom(d, plan, k + 1) ==> LooseFrom(e, plan, k + 1)
    ensures StagedFrom(d, plan, k + 1) ==> StagedFrom(e, plan, k + 1)
  {
    var ts := plan.Transitions();
    forall j | 0 <= j < |ts| && j != k ensures At(e.live, ts[j].path) == At(d.live, ts[j].path) {
      assert ts[j].path != ts[k].path;
    }
    forall j | k < j < |ts| && ts[j].stagedPath.Some?
      ensures At(e.stage, ts[j].stagedPath.value) == At(d.stage, ts[j].stagedPath.value) {
      assert ts[k].stagedPath.Some? ==> ts[k].stagedPath != ts[j].stagedPath;
    }
  }

  lemma OverrunMoves(s: Sys)
    requires Overrun(s) && s.proc.at.Move? && s.proc.at.index < |s.proc.plan.Transitions()|
    ensures Overrun(Act(s)) && Act(s).proc.plan == s.proc.plan
    ensures ForwardRank(s.proc.plan, Act(s).proc.at) < ForwardRank(s.proc.plan, s.proc.at)
  {
    var d, plan, k := s.disk, s.proc.plan, s.proc.at.index;
    var t := plan.Transitions()[k];
    assert Act(s) == MoveStep(d, plan, s.proc.mine, k);
    assert Loose(d, t);
    if t.Changes() && t.prior.File? {
      var e := d.(backup := Put(d.backup, t.path, At(d.live, t.path)), live := Put(d.live, t.path, Absent));
      Elsewhere(d, e, plan, k);
      assert StagedFrom(e, plan, k);
      assert Act(s) == Sys(e, Forward(plan, s.proc.mine, Place(k)));
    }
  }

  lemma OverrunPlaces(s: Sys)
    requires Overrun(s) && s.proc.at.Place?
    ensures Overrun(Act(s)) && Act(s).proc.plan == s.proc.plan
    ensures ForwardRank(s.proc.plan, Act(s).proc.at) < ForwardRank(s.proc.plan, s.proc.at)
  {
    var d, plan, k := s.disk, s.proc.plan, s.proc.at.index;
    var t := plan.Transitions()[k];
    assert Act(s) == PlaceStep(d, plan, s.proc.mine, k);
    if t.next.File? {
      var staged := t.stagedPath.value;
      assert At(d.stage, staged) == t.next;
      var e := d.(live := Put(d.live, t.path, t.next), stage := Put(d.stage, staged, Absent));
      Elsewhere(d, e, plan, k);
      assert Act(s) == Sys(e, Forward(plan, s.proc.mine, Move(k + 1)));
    }
  }

  lemma OverrunStep(s: Sys)
    requires Overrun(s) && s.proc.at != Move(|s.proc.plan.Transitions()|)
    ensures Overrun(Act(s)) && Act(s).proc.plan == s.proc.plan
    ensures ForwardRank(s.proc.plan, Act(s).proc.at) < ForwardRank(s.proc.plan, s.proc.at)
  {
    match s.proc.at
    case Move(_) => OverrunMoves(s);
    case Place(_) => OverrunPlaces(s);
    case _ => OverrunWrites(s);
  }

  lemma {:induction false} OverrunPublishes(s: Sys) returns (es: seq<Event>)
    requires Overrun(s)
    ensures Undisturbed(es)
    ensures var f := Run(s, es);
            f.proc == Idle(PublishedPlan(s.proc.plan)) && AllNext(f.disk, s.proc.plan) && f.disk.backup.Keys == {}
    decreases ForwardRank(s.proc.plan, s.proc.at)
  {
    if s.proc.at == Move(|s.proc.plan.Transitions()|) {
      es := TailPublishes(s);
    } else {
      OverrunStep(s);
      var rest := OverrunPublishes(Act(s));
      es := [Go] + rest;
      assert es[0] == Go && es[1..] == rest;
    }
  }

  // Steps of the publication up to its last move, and edits of files whose last move is still to come.
  predicate BlindRun(s: Sys, es: seq<Event>)
    decreases |es|
  {
    es != [] ==>
      && s.proc.Forward? && s.proc.at != Move(|s.proc.plan.Transitions()|) && (es[0] == Go || Blind(s, es[0]))
      && BlindRun(Step(s, es[0]), es[1..])
  }

  lemma {:induction false} StaysOverrun(s: Sys, es: seq<Event>)
    requires Overrun(s) && BlindRun(s, es)
    ensures Overrun(Run(s, es)) && Run(s, es).proc.plan == s.proc.plan
    decreases |es|
  {
    if es != [] {
      if es[0] == Go { OverrunStep(s); } else { BlindStep(s, es[0]); }
      StaysOverrun(Step(s, es[0]), es[1..]);
    }
  }

  // From any moment after the second check, any number of edits of any files whose own last move is still to
  // come, between any steps: the publication goes through as if they had never happened, every file ends at
  // its next state, and the edited bytes are neither live nor in a backup.
  lemma WindowEditsAreLost(m: Sys, edits: seq<Event>) returns (after: seq<Event>)
    requires ForwardReady(m) && Opens(m.proc.at) && BlindRun(m, edits)
    ensures Undisturbed(after)
    ensures var f := Run(m, edits + after);
            f.proc == Idle(PublishedPlan(m.proc.plan)) && AllNext(f.disk, m.proc.plan) && f.disk.backup.Keys == {}
  {
    ReadyIsOverrun(m);
    StaysOverrun(m, edits);
    after := OverrunPublishes(Run(m, edits));
    RunAppend(m, edits, after);
  }

  // ---- The window opens for every file ------------------------------------------------------------------

  // Not yet at the move of this transition.
  predicate Before(plan: Plan, at: Point, i: nat) {
    match at
    case Draft(phase) => phase.Prepared? || phase.Publishing?
    case Seal(phase) => phase.Prepared? || phase.Publishing?
    case Move(k) => k <= i
    case Place(k) => k < i
    case _ => false
  }

  lemma StaysBefore(s: Sys, i: nat)
    requires ForwardReady(s) && Before(s.proc.plan, s.proc.at, i) && s.proc.at != Move(i) && i < |s.proc.plan.Transitions()|
    requires Advances(s, Act(s))
    ensures Before(s.proc.plan, Act(s).proc.at, i)
  {
    if s.proc.at.Move? {
      assert Act(s) == MoveStep(s.disk, s.proc.plan, s.proc.mine, s.proc.at.index);
    } else if s.proc.at.Place? {
      assert Act(s) == PlaceStep(s.disk, s.proc.plan, s.proc.mine, s.proc.at.index);
    }
  }

  lemma NearsMove(s: Sys, i: nat)
    requires ForwardReady(s) && Before(s.proc.plan, s.proc.at, i) && s.proc.at != Move(i) && i < |s.proc.plan.Transitions()|
    ensures Calm(s, Go) && ForwardReady(Act(s)) && Before(s.proc.plan, Act(s).proc.at, i) && Act(s).proc.plan == s.proc.plan
    ensures ForwardRank(s.proc.plan, Act(s).proc.at) < ForwardRank(s.proc.plan, s.proc.at)
  {
    assert Proceed(s) == Go;
    ProceedReady(s);
    AdvancesAtBefore(s, i);
    StaysBefore(s, i);
  }

  lemma AdvancesAtBefore(s: Sys, i: nat)
    requires s.proc.Forward? && Before(s.proc.plan, s.proc.at, i) && Advances(s, Act(s))
    ensures Act(s).proc.plan == s.proc.plan
    ensures ForwardRank(s.proc.plan, Act(s).proc.at) < ForwardRank(s.proc.plan, s.proc.at)
  {
    if s.proc.at.Move? {
      assert Act(s) == MoveStep(s.disk, s.proc.plan, s.proc.mine, s.proc.at.index);
    } else if s.proc.at.Place? {
      assert Act(s) == PlaceStep(s.disk, s.proc.plan, s.proc.mine, s.proc.at.index);
    }
  }

  lemma {:induction false} ReachesMove(s: Sys, i: nat) returns (es: seq<Event>)
    requires ForwardReady(s) && Before(s.proc.plan, s.proc.at, i) && i < |s.proc.plan.Transitions()|
    ensures CalmRun(s, es) && ForwardReady(Run(s, es))
    ensures Run(s, es).proc.plan == s.proc.plan && Run(s, es).proc.at == Move(i)
    decreases ForwardRank(s.proc.plan, s.proc.at)
  {
    if s.proc.at == Move(i) {
      es := [];
    } else {
      NearsMove(s, i);
      var rest := ReachesMove(Act(s), i);
      es := Cons(s, Go, rest);
    }
  }

  // For every authorised plan and every file that it changes, there is a publication whose edit of that file
  // just before its own move is accepted over and lost.
  lemma WindowEditIsLost(s: Sys, c: Caller, plan: Plan, transaction: nat, i: nat, x: FileState)
    returns (before: seq<Event>, after: seq<Event>)
    requires Fresh(s) && s.proc == Idle(NeverStarted) && Authorised(s.disk, plan)
    requires i < |plan.Transitions()| && plan.Transitions()[i].Changes()
    requires x.File? && x != plan.Transitions()[i].next
    ensures CalmRun(s, before) && Run(s, before).proc.Forward? && Run(s, before).proc.at == Move(i)
    ensures var f := Run(Run(s, before), [EditLive(plan.Transitions()[i].path, x)] + after);
            && f.proc == Idle(PublishedPlan(plan)) && AllNext(f.disk, plan)
            && At(f.disk.live, plan.Transitions()[i].path) != x && f.disk.backup.Keys == {}
  {
    var start := [Publish(c, plan, transaction), Go, Go];
    var s3 := PublishStarts(s, c, plan, transaction);
    before := ReachesMove(s3, i);
    CalmAppend(s, start, before);
    RunAppend(s, start, before);
    before := start + before;
    var m := Run(s, before);
    var edit := EditLive(plan.Transitions()[i].path, x);
    assert Pending(plan, m.proc.at, i);
    assert [edit][1..] == [] && BlindRun(m, [edit]);
    after := WindowEditsAreLost(m, [edit]);
  }
}
