/**
 Who gets the lock, and how a publication call that nobody disturbs ends, for every disk and every caller: from
 the call itself, not from what a running invocation remembers.
 */
module ArtifactAdmission {
  import opened Wrappers
  import opened ArtifactPlan
  import opened ArtifactProtocol
  import opened ArtifactSafety
  import opened ArtifactNesting
  import opened ArtifactRecovery
  import opened ArtifactTheorems
  import opened ArtifactFaults
  import opened SessionPublication

  // ---- The caller of a call ---------------------------------------------------------------------------

  function OwnLock(c: Caller, plan: Plan, transaction: nat): Lock {
    Lock(plan.projectIdentity, c.host, c.pid, transaction)
  }

  // Up to the next call: edits included.
  predicate WithinCall(es: seq<Event>)
    decreases |es|
  {
    es != [] ==> !es[0].Publish? && !es[0].Recover? && WithinCall(es[1..])
  }

  // The invocation works for this caller.
  predicate WorksFor(p: Proc, c: Caller, plan: Plan, transaction: nat) {
    match p
    case Idle(_) => true
    case Opening(q, mine, alive, _) => q == plan && mine == OwnLock(c, plan, transaction) && alive == c.alive
    case Forward(q, mine, _) => q == plan && mine == OwnLock(c, plan, transaction)
    case Releasing(mine, _) => mine == OwnLock(c, plan, transaction)
    case Settling(_, holder, _, _) => holder == OwnLock(c, plan, transaction)
    case Recovering(_, _, _) => false
  }

  lemma ActWorksFor(x: Sys, c: Caller, plan: Plan, transaction: nat)
    requires WorksFor(x.proc, c, plan, transaction)
    ensures WorksFor(Act(x).proc, c, plan, transaction)
  {
    if x.proc.Forward? {
      if x.proc.at.Move? { assert Act(x) == MoveStep(x.disk, x.proc.plan, x.proc.mine, x.proc.at.index); }
      else if x.proc.at.Place? { assert Act(x) == PlaceStep(x.disk, x.proc.plan, x.proc.mine, x.proc.at.index); }
    }
  }

  lemma StepWorksFor(x: Sys, e: Event, c: Caller, plan: Plan, transaction: nat)
    requires WorksFor(x.proc, c, plan, transaction) && !e.Publish? && !e.Recover?
    ensures WorksFor(Step(x, e).proc, c, plan, transaction)
  {
    ActWorksFor(x, c, plan, transaction);
  }

  lemma {:induction false} RunWorksFor(x: Sys, es: seq<Event>, c: Caller, plan: Plan, transaction: nat)
    requires WorksFor(x.proc, c, plan, transaction) && WithinCall(es)
    ensures WorksFor(Run(x, es).proc, c, plan, transaction)
    decreases |es|
  {
    if es != [] {
      StepWorksFor(x, es[0], c, plan, transaction);
      RunWorksFor(Step(x, es[0]), es[1..], c, plan, transaction);
    }
  }

  // This lock is of a writer of the caller's project and host that the caller finds dead, and no journal is there.
  predicate Dead(d: Disk, c: Caller, plan: Plan, l: Lock) {
    d.journal.None? && l.project == plan.projectIdentity && l.host == c.host && l.pid !in c.alive
  }

  // At any moment of a publication call, whatever happened since it began: a lock on disk disappears or changes
  // exactly by its holder's release, or by the call's own reclaim of a lock that its caller finds dead.
  lemma LockRemovedExactly(s: Sys, c: Caller, plan: Plan, transaction: nat, es: seq<Event>, e: Event, l: Lock)
    requires s.proc.Idle? && WithinCall(es)
    requires Run(Step(s, Publish(c, plan, transaction)), es).disk.lock == Some(l)
    ensures var x := Run(Step(s, Publish(c, plan, transaction)), es);
            Step(x, e).disk.lock != Some(l) <==>
              Performs(e) && (Releases(x.proc, l) || (x.proc.Opening? && !x.proc.reclaimed && Dead(x.disk, c, plan, l)))
  {
    var x := Run(Step(s, Publish(c, plan, transaction)), es);
    RunWorksFor(Step(s, Publish(c, plan, transaction)), es, c, plan, transaction);
    LockAfterStep(x, e, l);
  }

  // ---- A lock that stands --------------------------------------------------------------------------------

  // What the lock on disk says to a publication.
  function LockRefusal(d: Disk, c: Caller, plan: Plan): Option<Failure> {
    match d.lock
    case None => None
    case Some(l) =>
      if l.project != plan.projectIdentity || l.host != c.host then Some(UntrustedLock)
      else if d.journal.Some? then Some(OrphanControlState)
      else if l.pid in c.alive then Some(ActiveWriter)
      else None
  }

  predicate Standing(x: Sys, d: Disk, c: Caller, plan: Plan, transaction: nat) {
    && x.disk == d
    && match x.proc
       case Idle(o) => o.Failed? || o == Crashed || o == Unchanged
       case Opening(_, _, _, _) => WorksFor(x.proc, c, plan, transaction)
       case _ => false
  }

  lemma {:induction false} RunStanding(x: Sys, es: seq<Event>, d: Disk, c: Caller, plan: Plan, transaction: nat)
    requires Standing(x, d, c, plan, transaction) && OwnEvents(es) && LockRefusal(d, c, plan).Some?
    ensures Standing(Run(x, es), d, c, plan, transaction)
    decreases |es|
  {
    if es != [] { RunStanding(Step(x, es[0]), es[1..], d, c, plan, transaction); }
  }

  // A lock of another project or host, a lock beside a journal, and the lock of a live writer are never touched:
  // over every run of the call, with any errors and exits, the whole disk stays as it was.
  lemma LockStands(s: Sys, c: Caller, plan: Plan, transaction: nat, es: seq<Event>)
    requires s.proc.Idle? && OwnEvents(es) && LockRefusal(s.disk, c, plan).Some?
    ensures Run(Step(s, Publish(c, plan, transaction)), es).disk == s.disk
    ensures !Run(Step(s, Publish(c, plan, transaction)), es).proc.Forward?
  {
    RunStanding(Step(s, Publish(c, plan, transaction)), es, s.disk, c, plan, transaction);
  }

  // ---- Two writers -----------------------------------------------------------------------------------------

  lemma {:induction false} OwnIsWithin(es: seq<Event>)
    requires OwnEvents(es)
    ensures WithinCall(es)
    decreases |es|
  {
    if es != [] { OwnIsWithin(es[1..]); }
  }

  // From its lock on to the release, a publication is alone: while it runs, any other caller - on another host, or on
  // this one where it finds the writer alive - can do nothing to the disk, by publishing any plan or by
  // recovering.
  lemma WriterIsAlone(s: Sys, c: Caller, plan: Plan, transaction: nat, es: seq<Event>,
                      other: Caller, otherPlan: Plan, otherTransaction: nat, root: string, more: seq<Event>)
    requires Inv(s) && s.proc.Idle? && OwnEvents(es) && CalmRun(Step(s, Publish(c, plan, transaction)), es)
    requires var x := Run(Step(s, Publish(c, plan, transaction)), es); x.proc.Forward? && !x.proc.at.SweepJournal?
    requires other.host != c.host || (c.pid in other.alive && other.pid != c.pid)
    requires OwnEvents(more)
    ensures var d := Run(Step(s, Publish(c, plan, transaction)), es).disk;
            && d.lock == Some(OwnLock(c, plan, transaction))
            && Run(Step(Sys(d, Idle(NeverStarted)), Publish(other, otherPlan, otherTransaction)), more).disk == d
            && Run(Step(Sys(d, Idle(NeverStarted)), Recover(other, root)), more).disk == d
  {
    var y := Step(s, Publish(c, plan, transaction));
    var x := Run(y, es);
    StepKeeps(s, Publish(c, plan, transaction));
    RunKeeps(y, es);
    OwnIsWithin(es);
    RunWorksFor(y, es, c, plan, transaction);
    assert x.disk.lock == Some(x.proc.mine);
    LockStands(Sys(x.disk, Idle(NeverStarted)), other, otherPlan, otherTransaction, more);
    RecoveryLetIn(Sys(x.disk, Idle(NeverStarted)), other, root);
    IdleRests(Step(Sys(x.disk, Idle(NeverStarted)), Recover(other, root)), more);
  }

  // ---- How an undisturbed call ends ----------------------------------------------------------------------

  // The outcome of the call, by what is on disk when it begins and by the host's answer.
  function Outcomes(d: Disk, c: Caller, plan: Plan, answer: Answer): Outcome {
    if !Accepted(plan) then Failed(InvalidPlan)
    else if AllPrior(d, plan) then
      if !StagedStatesOk(d, plan) then Failed(UnexpectedStagedState)
      else if !NoUndeclaredStage(d, plan) then Failed(UndeclaredStagedEntry)
      else if LockRefusal(d, c, plan).Some? then Failed(LockRefusal(d, c, plan).value)
      else if d.journal.Some? then Failed(OrphanControlState)
      else if d.temp.Some? then Failed(ControlPathCollision)
      else if answer.Yes? then PublishedPlan(plan)
      else Failed(if answer.No? then IntendedStateRejected else HostError)
    else if AllNext(d, plan) then Unchanged
    else Failed(UnexpectedLiveState)
  }

  // The call gets the lock.
  predicate Enters(d: Disk, c: Caller, plan: Plan) {
    && Accepted(plan) && AllPrior(d, plan) && StagedStatesOk(d, plan) && NoUndeclaredStage(d, plan)
    && LockRefusal(d, c, plan).None?
  }

  // The disk after the call.
  predicate Left(d: Disk, e: Disk, c: Caller, plan: Plan, answer: Answer) {
    if !Enters(d, c, plan) then e == d
    else if d.journal.Some? || d.temp.Some? then e == d.(lock := None)
    else if answer.Yes? then AllNext(e, plan) && ControlGone(e) && e.temp.None?
    else AllPrior(e, plan) && ControlGone(e)
  }

  lemma RunOne(s: Sys, e: Event)
    ensures Run(s, [e]) == Step(s, e)
  {
    assert [e][1..] == [];
    assert Run(Step(s, e), []) == Step(s, e);
  }

  lemma RunTwo(s: Sys, a: Event, b: Event)
    ensures Run(s, [a, b]) == Step(Step(s, a), b)
  {
    assert [a, b][1..] == [b];
    RunOne(Step(s, a), b);
  }

  lemma UndisturbedAppend(es: seq<Event>, fs: seq<Event>)
    requires Undisturbed(es) && Undisturbed(fs)
    ensures Undisturbed(es + fs)
  {
  }

  // The lock is free, or its writer is dead: one or two steps take it.
  lemma Claims(s: Sys, c: Caller, plan: Plan, transaction: nat) returns (es: seq<Event>)
    requires s.proc.Idle? && Enters(s.disk, c, plan)
    ensures Undisturbed(es)
    ensures Run(Step(s, Publish(c, plan, transaction)), es)
            == Sys(s.disk.(lock := Some(OwnLock(c, plan, transaction))), Forward(plan, OwnLock(c, plan, transaction), Recheck))
  {
    var y := Step(s, Publish(c, plan, transaction));
    assert y == Sys(s.disk, Opening(plan, OwnLock(c, plan, transaction), c.alive, false));
    if s.disk.lock.None? {
      es := [Go];
      RunOne(y, Go);
    } else {
      es := [Go, Go];
      RunTwo(y, Go, Go);
    }
  }

  // The second check, under the lock: the call goes on exactly when all files are still as planned; otherwise it
  // releases its lock, changes nothing else, and says why.
  lemma SecondCheck(x: Sys)
    requires x.proc.Forward? && x.proc.at == Recheck && x.disk.lock == Some(x.proc.mine)
    ensures var plan := x.proc.plan;
            var why := if !StagedStatesOk(x.disk, plan) then Some(UnexpectedStagedState)
                       else if !NoUndeclaredStage(x.disk, plan) then Some(UndeclaredStagedEntry)
                       else if !AllPrior(x.disk, plan) then Some(UnexpectedLiveState)
                       else None;
            match why
            case None => Act(x) == Sys(x.disk, Forward(plan, x.proc.mine, Draft(Prepared)))
            case Some(f) => Run(x, [Go, Go]) == Sys(x.disk.(lock := None), Idle(Failed(f)))
  {
    RunTwo(x, Go, Go);
  }

  // Control files that somebody left stop the call before it changes anything.
  lemma LeftoversStop(x: Sys)
    requires x.proc.Forward? && x.proc.at == Draft(Prepared) && x.disk.lock == Some(x.proc.mine)
    requires x.disk.journal.Some? || x.disk.temp.Some?
    ensures Run(x, [Go, Go]) == Sys(x.disk.(lock := None),
                                    Idle(Failed(if x.disk.journal.Some? then OrphanControlState else ControlPathCollision)))
  {
    RunTwo(x, Go, Go);
  }

  // The host has answered.
  predicate PastAsk(at: Point) {
    at.Confirm? || at == Draft(Committed) || at == Seal(Committed) || Sweeps(at)
  }

  lemma StaysBeforeAsk(x: Sys)
    requires x.proc.Forward? && !PastAsk(x.proc.at) && !x.proc.at.Ask?
    ensures Act(x).proc.Forward? ==> !PastAsk(Act(x).proc.at)
  {
    match x.proc.at
    case Move(i) => assert Act(x) == MoveStep(x.disk, x.proc.plan, x.proc.mine, i);
    case Place(i) => assert Act(x) == PlaceStep(x.disk, x.proc.plan, x.proc.mine, i);
    case _ =>
  }

  lemma BeforeAskIsGo(x: Sys)
    requires x.proc.Forward? && !PastAsk(x.proc.at) && !x.proc.at.Ask?
    ensures Step(x, Proceed(x)) == Act(x)
  {
  }

  lemma {:induction false} ReachesAsk(x: Sys) returns (es: seq<Event>)
    requires ForwardReady(x) && !PastAsk(x.proc.at)
    ensures Undisturbed(es) && CalmRun(x, es) && ForwardReady(Run(x, es))
    ensures Run(x, es).proc.at == Ask && Run(x, es).proc.plan == x.proc.plan
    decreases ForwardRank(x.proc.plan, x.proc.at), |x.disk.backup|
  {
    if x.proc.at.Ask? {
      es := [];
    } else {
      ProceedReady(x);
      BeforeAskIsGo(x);
      StaysBeforeAsk(x);
      var e := Proceed(x);
      var rest := ReachesAsk(Step(x, e));
      es := [e] + rest;
      assert es[0] == e && es[1..] == rest;
    }
  }

  // The host says yes.
  lemma AcceptedEnds(x: Sys) returns (es: seq<Event>)
    requires ForwardReady(x)
    ensures Undisturbed(es)
    ensures var g := Run(x, es);
            g.proc == Idle(PublishedPlan(x.proc.plan)) && AllNext(g.disk, x.proc.plan) && ControlGone(g.disk) && g.disk.temp.None?
  {
    var rest := PublishReaches(x);
    var f := Run(x, rest);
    PublishEnds(f);
    es := rest + [Go, Go];
    RunAppend(x, rest, [Go, Go]);
    RunTwo(f, Go, Go);
    StepKeeps(f, Go);
    StepKeeps(Step(f, Go), Go);
    UndisturbedAppend(rest, [Go, Go]);
  }

  // The host says no, or throws.
  lemma RefusedEnds(x: Sys, answer: Answer) returns (es: seq<Event>)
    requires ForwardReady(x) && x.proc.at == Draft(Prepared) && !answer.Yes? && Reads(x, x.proc.plan)
    ensures Undisturbed(es)
    ensures var g := Run(x, es);
            && g.proc == Idle(Failed(if answer.No? then IntendedStateRejected else HostError))
            && AllPrior(g.disk, x.proc.plan) && ControlGone(g.disk)
  {
    var rest := ReachesAsk(x);
    var f := Run(x, rest);
    RunReads(x, rest, x.proc.plan);
    AskedReply(f, answer);
    var last := PublicationFaultExact(f, Reply(answer));
    es := rest + ([Reply(answer)] + last);
    RunAppend(x, rest, [Reply(answer)] + last);
    assert ([Reply(answer)] + last)[0] == Reply(answer) && ([Reply(answer)] + last)[1..] == last;
  }

  lemma AskedReply(f: Sys, answer: Answer)
    requires ForwardReady(f) && f.proc.at == Ask && !answer.Yes?
    ensures var t := Step(f, Reply(answer));
            && t.proc.Settling? && t.proc.verdict == Failed(if answer.No? then IntendedStateRejected else HostError)
            && t.disk == f.disk && t.disk.lock.Some? && t.disk.temp.None?
  {
  }

  lemma {:induction false} RunReads(x: Sys, es: seq<Event>, plan: Plan)
    requires Inv(x) && CalmRun(x, es) && Undisturbed(es) && Reads(x, plan)
    ensures Inv(Run(x, es)) && Reads(Run(x, es), plan)
    decreases |es|
  {
    if es != [] {
      assert es[0] in es && forall e :: e in es[1..] ==> e in es;
      StepKeeps(x, es[0]);
      StepReads(x, es[0], plan);
      RunReads(Step(x, es[0]), es[1..], plan);
    }
  }

  // From the first journal write on.
  lemma WritingEnds(x: Sys, answer: Answer) returns (es: seq<Event>)
    requires ForwardReady(x) && x.proc.at == Draft(Prepared) && Reads(x, x.proc.plan)
    ensures Undisturbed(es)
    ensures var g, plan := Run(x, es), x.proc.plan;
            if answer.Yes? then
              g.proc == Idle(PublishedPlan(plan)) && AllNext(g.disk, plan) && ControlGone(g.disk) && g.disk.temp.None?
            else
              && g.proc == Idle(Failed(if answer.No? then IntendedStateRejected else HostError))
              && AllPrior(g.disk, plan) && ControlGone(g.disk)
  {
    if answer.Yes? { es := AcceptedEnds(x); } else { es := RefusedEnds(x, answer); }
  }

  // A call that has the lock over files that are as planned.
  lemma EnteredEnds(s: Sys, x: Sys, c: Caller, plan: Plan, transaction: nat, answer: Answer) returns (es: seq<Event>)
    requires Sound(s) && Enters(s.disk, c, plan) && Readable(s.disk.live, plan)
    requires x == Sys(s.disk.(lock := Some(OwnLock(c, plan, transaction))), Forward(plan, OwnLock(c, plan, transaction), Recheck))
    ensures Undisturbed(es)
    ensures Run(x, es).proc == Idle(Outcomes(s.disk, c, plan, answer)) && Left(s.disk, Run(x, es).disk, c, plan, answer)
  {
    var d := x.disk;
    SameChecks(s.disk, d, plan);
    SecondCheck(x);
    var z := Act(x);
    var rest;
    if d.journal.Some? || d.temp.Some? {
      LeftoversStop(z);
      rest := [Go, Go];
      assert d.(lock := None) == s.disk.(lock := None);
    } else {
      PriorIsUntouched(d, plan);
      assert ForwardReady(z);
      rest := WritingEnds(z, answer);
    }
    es := [Go] + rest;
    assert es[0] == Go && es[1..] == rest;
  }

  lemma SameChecks(d: Disk, e: Disk, plan: Plan)
    requires e.live == d.live && e.stage == d.stage
    ensures AllPrior(e, plan) == AllPrior(d, plan) && StagedStatesOk(e, plan) == StagedStatesOk(d, plan)
    ensures NoUndeclaredStage(e, plan) == NoUndeclaredStage(d, plan)
  {
  }

  // For every disk, every caller, every legible plan and every answer of the host, a publication call that nobody
  // disturbs ends with exactly this outcome: refused for what it first reads, refused by the lock, stopped by
  // leftover control files, rejected by the host, or published; a dead writer's lock does not stop it. It leaves
  // the disk as it was where it was refused, the exact prior tree where the host refused, the exact next tree
  // where it published, and other files alone.
  lemma PublishDecides(s: Sys, c: Caller, plan: Plan, transaction: nat, answer: Answer) returns (es: seq<Event>)
    requires Sound(s) && Readable(s.disk.live, plan)
    ensures Undisturbed(es)
    ensures var g := Run(Step(s, Publish(c, plan, transaction)), es);
            && g.proc == Idle(Outcomes(s.disk, c, plan, answer)) && Left(s.disk, g.disk, c, plan, answer)
            && SameOutside(s.disk.live, g.disk.live, plan)
  {
    var y := Step(s, Publish(c, plan, transaction));
    if Enters(s.disk, c, plan) {
      var first := Claims(s, c, plan, transaction);
      var rest := EnteredEnds(s, Run(y, first), c, plan, transaction, answer);
      es := first + rest;
      RunAppend(y, first, rest);
      UndisturbedAppend(first, rest);
    } else {
      es := [Go];
      RunOne(y, Go);
    }
    UndisturbedIsOwn(es);
    CallFrame(s, Call(c, plan, transaction, es));
  }

  // So a second publication of what is already public changes nothing, and one beside a live writer is told so.
  lemma PublishAgain(s: Sys, c: Caller, plan: Plan, transaction: nat)
    requires s.proc.Idle? && Accepted(plan) && AllNext(s.disk, plan)
    ensures Step(s, Publish(c, plan, transaction)) == Sys(s.disk, Idle(Unchanged))
  {
    MarkerTells(s.disk, plan);
  }
}
