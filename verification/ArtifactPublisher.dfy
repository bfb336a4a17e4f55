/**
 The publisher and recovery routines as they run, changing one project's files in place. Whatever the
 environment does between their operations - edits, process exits, I/O errors, host answers - their
 effect is a run of the step machine, so every theorem about runs holds for them.
 */
module ArtifactPublisher {
  import opened Wrappers
  import opened ArtifactPlan
  import opened ArtifactProtocol
  import opened ArtifactNesting
  import opened ArtifactSafety
  import opened ArtifactRecovery
  import opened ArtifactAdmission
  import opened ArtifactCalls
  import SessionPublication

  // What became of the operation that was about to run.
  datatype Fate = Proceed | Halt | Fault(applied: bool)

  // How a routine ended: normally, with the process, or by raising a structured failure.
  datatype Signal = Continue | Stopped | Raised(why: Failure)

  // Edits, exits and errors come from the surroundings.
  predicate Disturbs(e: Event) {
    e.EditLive? || e.EditStage? || e.Exit? || e.IoError?
  }

  function Disturbances(es: seq<Event>): nat {
    if es == [] then 0 else Disturbances(es[..|es| - 1]) + if Disturbs(es[|es| - 1]) then 1 else 0
  }

  lemma DisturbancesSnoc(es: seq<Event>, e: Event)
    ensures Disturbances(es + [e]) == Disturbances(es) + if Disturbs(e) then 1 else 0
  {
    assert (es + [e])[..|es|] == es;
  }

  lemma {:induction false} DisturbancesHead(es: seq<Event>)
    requires es != []
    ensures Disturbances(es) == (if Disturbs(es[0]) then 1 else 0) + Disturbances(es[1..])
    decreases |es|
  {
    var n := |es| - 1;
    if n == 0 {
      assert es[..0] == [] && es[1..] == [];
    } else {
      DisturbancesHead(es[..n]);
      assert es[..n][1..] == es[1..][..n - 1] && es[1..][n - 1] == es[n];
    }
  }

  // How often the routines have been called.
  function Calls(es: seq<Event>): nat {
    if es == [] then 0
    else Calls(es[..|es| - 1]) + if es[|es| - 1].Publish? || es[|es| - 1].Recover? then 1 else 0
  }

  lemma CallsSnoc(es: seq<Event>, e: Event)
    ensures Calls(es + [e]) == Calls(es) + if e.Publish? || e.Recover? then 1 else 0
  {
    assert (es + [e])[..|es|] == es;
  }

  // More has happened, but no further call.
  ghost predicate Within(before: seq<Event>, now: seq<Event>) {
    before <= now && Calls(now) == Calls(before)
  }

  // What has happened since, when there was no call and no disturbance.
  lemma {:induction false} OwnSince(before: seq<Event>, now: seq<Event>)
    requires Within(before, now) && Disturbances(now) <= Disturbances(before)
    ensures Undisturbed(now[|before|..])
    decreases |now|
  {
    if |before| < |now| {
      var n := |now| - 1;
      CountsGrow(before, now[..n]);
      OwnSince(before, now[..n]);
      assert now[|before|..] == now[..n][|before|..] + [now[n]];
    }
  }

  lemma {:induction false} CountsGrow(before: seq<Event>, now: seq<Event>)
    requires before <= now
    ensures Disturbances(before) <= Disturbances(now) && Calls(before) <= Calls(now)
    decreases |now|
  {
    if |before| < |now| {
      CountsGrow(before, now[..|now| - 1]);
    } else {
      assert now == before;
    }
  }

  class Project {
    var live: Tree
    var stage: Tree
    var backup: Tree
    var temp: Option<Journal>
    var journal: Option<Journal>
    var lock: Option<Lock>
    var environment: seq<Event>   // what happens around the coming operations
    var asked: nat                // how often the host has been asked
    const host: nat -> Answer     // what it answers

    ghost var proc: Proc          // the control point of the running invocation
    ghost const start: Sys
    ghost const budget: nat       // how much the surroundings will ever do
    ghost var events: seq<Event>  // everything that has happened since start

    function Files(): Disk
      reads this
    {
      Disk(live, stage, backup, temp, journal, lock)
    }

    ghost function Now(): Sys
      reads this
    {
      Sys(Files(), proc)
    }

    // The routines cause no disturbance themselves: each recorded one was one of the surroundings.
    ghost predicate Budgeted()
      reads this`environment, this`events
    {
      Disturbances(events) + Disturbances(environment) == budget
    }

    // The answers recorded are those of the host, each to a question that was asked.
    ghost predicate Attentive()
      reads this`asked, this`events
    {
      Heard(start, events, host, 0) == Some(asked)
    }

    // The project is where the machine is after the recorded events.
    ghost predicate Valid()
      reads this
    {
      Now() == Run(start, events) && Budgeted() && Attentive()
    }

    constructor (live: Tree, stage: Tree, environment: seq<Event>, host: nat -> Answer)
      ensures Valid() && events == [] && Fresh(start) && start.proc == Idle(NeverStarted)
      ensures this.live == live && this.stage == stage && this.environment == environment && this.host == host
      ensures budget == Disturbances(environment)
    {
      this.live, this.stage, this.backup := live, stage, map[];
      this.temp, this.journal, this.lock := None, None, None;
      this.environment, this.asked, this.host := environment, 0, host;
      this.proc := Idle(NeverStarted);
      this.start := Sys(Disk(live, stage, map[], None, None, None), Idle(NeverStarted));
      this.events, this.budget := [], Disturbances(environment);
    }

    ghost method Note(before: Sys, e: Event)
      requires before == Run(start, events) && Files() == Step(before, e).disk
      requires Disturbances(events) + (if Disturbs(e) then 1 else 0) + Disturbances(environment) == budget
      requires if e.Reply? then Asking(before.proc) && asked > 0 && Heard(start, events, host, 0) == Some(asked - 1)
                                && e.answer == host(asked - 1)
               else Attentive()
      modifies this`events, this`proc
      ensures Valid() && Now() == Step(before, e) && events == old(events) + [e]
    {
      RunAppend(start, events, [e]);
      assert [e][1..] == [] && Run(before, [e]) == Run(Step(before, e), []);
      DisturbancesSnoc(events, e);
      HeardAppend(start, events, [e], host, 0);
      assert Heard(before, [e], host, if e.Reply? then asked - 1 else asked) == Some(asked);
      events := events + [e];
      proc := Step(before, e).proc;
    }

    // One outside edit.
    method Suffer()
      requires Valid() && environment != [] && (environment[0].EditLive? || environment[0].EditStage?)
      modifies this`live, this`stage, this`environment, this`events, this`proc
      ensures Valid() && proc == old(proc) && environment == old(environment)[1..]
      ensures events == old(events) + [old(environment)[0]]
      ensures Within(old(events), events)
    {
      ghost var before := Now();
      DisturbancesHead(environment);
      CallsSnoc(events, environment[0]);
      var e := environment[0];
      environment := environment[1..];
      if e.EditLive? { live := Put(live, e.path, e.state); } else { stage := Put(stage, e.path, e.state); }
      Note(before, e);
    }

    // Outside editors act; then the next operation proceeds, fails, or the process is gone.
    method Await() returns (fate: Fate)
      requires Valid() && !proc.Idle?
      modifies this`live, this`stage, this`environment, this`events, this`proc
      ensures Valid() && Within(old(events), events)
      ensures if fate.Halt? then proc == Idle(Crashed) else proc == old(proc)
      ensures fate.Fault? ==> environment != [] && environment[0] == IoError(fate.applied)
      ensures fate.Halt? ==> Exit in old(environment)
    {
      while environment != [] && (environment[0].EditLive? || environment[0].EditStage?)
        invariant Valid() && proc == old(proc) && Within(old(events), events)
        invariant Exit in environment ==> Exit in old(environment)
        decreases |environment|
      {
        Suffer();
      }
      fate := Proceed;
      if environment != [] {
        var e := environment[0];
        if e.IoError? { return Fault(e.applied); }
        DisturbancesHead(environment);
        environment := environment[1..];
        if e.Exit? {
          CallsSnoc(events, Exit);
          Note(Now(), Exit);
          fate := Halt;
        }
      }
    }

    // The host callback of the current control point answers.
    method Consult() returns (answer: Answer, halted: bool)
      requires Valid() && Asking(proc)
      modifies this`live, this`stage, this`environment, this`asked, this`events, this`proc
      ensures Valid() && Within(old(events), events)
      ensures halted ==> proc == Idle(Crashed)
      ensures !halted ==> Now() == Answered(Sys(Files(), old(proc)), answer) && answer == host(old(asked))
    {
      var fate := Await();
      answer, halted := host(asked), fate.Halt?;
      if !halted {
        asked := asked + 1;
        CallsSnoc(events, Reply(answer));
        Note(Now(), Reply(answer));
      }
    }

    // The operation took effect, or raised an error with or without its effect.
    method Conclude(ghost before: Sys, fate: Fate)
      requires before == Run(start, events) && !before.proc.Idle? && !fate.Halt? && Budgeted() && Attentive()
      requires Files() == if fate == Fault(false) then before.disk else Act(before).disk
      requires fate.Fault? ==> environment != [] && environment[0] == IoError(fate.applied)
      modifies this`environment, this`events, this`proc
      ensures Valid() && Within(old(events), events)
      ensures Now() == if fate.Fault? then Abort(Files(), before.proc, FilesystemUnsupported) else Act(before)
    {
      if fate.Fault? {
        DisturbancesHead(environment);
        environment := environment[1..];
        CallsSnoc(events, IoError(fate.applied));
        Note(before, IoError(fate.applied));
      } else {
        CallsSnoc(events, Go);
        Note(before, Go);
      }
    }

    // What a raised error makes of a publication, before and after its journal is prepared.
    ghost predicate Thrown(mine: Lock, why: Failure, prepared: bool)
      reads this
    {
      if !prepared then proc == Releasing(mine, why)
      else if journal.None? then proc == Idle(Failed(why))
      else proc == Settling(journal.value, mine, Failed(why), BeginRollback(journal.value))
    }

    // ---- Publication --------------------------------------------------------------------------------

    // Writes the temporary journal file exclusively.
    method WriteTemp(plan: Plan, mine: Lock, phase: Phase) returns (r: Signal)
      requires Valid() && proc == Forward(plan, mine, Draft(phase))
      modifies this
      ensures Valid() && Within(old(events), events)
      ensures match r
              case Continue => proc == Forward(plan, mine, Seal(phase))
              case Stopped => proc == Idle(Crashed)
              case Raised(why) => Thrown(mine, why, !phase.Prepared?)
    {
      var fate := Await();
      if fate.Halt? { return Stopped; }
      ghost var before := Now();
      var refused := if phase.Prepared? && journal.Some? then Some(OrphanControlState)
                     else if temp.Some? then Some(ControlPathCollision) else None;
      if fate != Fault(false) && refused.None? {
        temp := Some(Journal(plan, mine.transaction, phase));
      }
      Conclude(before, fate);
      r := if fate.Fault? then Raised(FilesystemUnsupported)
           else if refused.Some? then Raised(refused.value) else Continue;
    }

    // Renames it over the journal.
    method RenameTemp(plan: Plan, mine: Lock, phase: Phase) returns (r: Signal)
      requires Valid() && proc == Forward(plan, mine, Seal(phase))
      modifies this
      ensures Valid() && Within(old(events), events)
      ensures match r
              case Continue => proc == Forward(plan, mine, AfterSeal(phase))
              case Stopped => proc == Idle(Crashed)
              case Raised(why) => Thrown(mine, why, !phase.Prepared?)
    {
      var fate := Await();
      if fate.Halt? { return Stopped; }
      ghost var before := Now();
      var missing := temp.None?;
      if fate != Fault(false) && !missing {
        journal, temp := temp, None;
      }
      Conclude(before, fate);
      r := if fate.Fault? || missing then Raised(FilesystemUnsupported) else Continue;
    }

    // persistJournal and updateJournal.
    method SaveJournal(plan: Plan, mine: Lock, phase: Phase) returns (r: Signal)
      requires Valid() && proc == Forward(plan, mine, Draft(phase))
      modifies this
      ensures Valid() && Within(old(events), events)
      ensures match r
              case Continue => proc == Forward(plan, mine, AfterSeal(phase))
              case Stopped => proc == Idle(Crashed)
              case Raised(why) => Thrown(mine, why, !phase.Prepared?)
    {
      r := WriteTemp(plan, mine, phase);
      if r.Continue? { r := RenameTemp(plan, mine, phase); }
    }

    // publishTransition: the prior file goes to the backup, then the staged file takes its place.
    method PublishTransition(plan: Plan, mine: Lock, i: nat) returns (r: Signal)
      requires Valid() && proc == Forward(plan, mine, Move(i)) && i < |plan.Transitions()|
      modifies this
      ensures Valid() && Within(old(events), events)
      ensures match r
              case Continue => proc == Forward(plan, mine, Move(i + 1))
              case Stopped => proc == Idle(Crashed)
              case Raised(why) => Thrown(mine, why, true)
    {
      var t := plan.Transitions()[i];
      if !t.Changes() {
        Note(Now(), Go);
        return Continue;
      }
      r := BackUp(plan, mine, i);
      if r.Continue? { r := PutInPlace(plan, mine, i); }
    }

    method BackUp(plan: Plan, mine: Lock, i: nat) returns (r: Signal)
      requires Valid() && proc == Forward(plan, mine, Move(i)) && i < |plan.Transitions()|
      requires plan.Transitions()[i].Changes()
      modifies this
      ensures Valid() && Within(old(events), events)
      ensures match r
              case Continue => proc == Forward(plan, mine, Place(i))
              case Stopped => proc == Idle(Crashed)
              case Raised(why) => Thrown(mine, why, true)
    {
      var t := plan.Transitions()[i];
      var fate := Await();
      if fate.Halt? { return Stopped; }
      ghost var before := Now();
      var missing := t.prior.File? && At(live, t.path).Absent?;
      if fate != Fault(false) && t.prior.File? && !missing {
        backup, live := Put(backup, t.path, At(live, t.path)), Put(live, t.path, Absent);
      }
      assert Act(before) == MoveStep(before.disk, plan, mine, i);
      Conclude(before, fate);
      r := if fate.Fault? || missing then Raised(FilesystemUnsupported) else Continue;
    }

    method PutInPlace(plan: Plan, mine: Lock, i: nat) returns (r: Signal)
      requires Valid() && proc == Forward(plan, mine, Place(i)) && i < |plan.Transitions()|
      modifies this
      ensures Valid() && Within(old(events), events)
      ensures match r
              case Continue => proc == Forward(plan, mine, Move(i + 1))
              case Stopped => proc == Idle(Crashed)
              case Raised(why) => Thrown(mine, why, true)
    {
      var t := plan.Transitions()[i];
      var fate := Await();
      if fate.Halt? { return Stopped; }
      ghost var before := Now();
      var moves := t.next.File? && t.stagedPath.Some?;
      var missing := moves && At(stage, t.stagedPath.value).Absent?;
      if fate != Fault(false) && moves && !missing {
        live, stage := Put(live, t.path, At(stage, t.stagedPath.value)), Put(stage, t.stagedPath.value, Absent);
      }
      assert Act(before) == PlaceStep(before.disk, plan, mine, i);
      Conclude(before, fate);
      r := if fate.Fault? || missing then Raised(FilesystemUnsupported) else Continue;
    }

    // acquireLock: creates the lock, reclaiming at most one lock of a dead writer without a journal.
    method AcquireLock(plan: Plan, mine: Lock, alive: set<nat>, reclaimed: bool) returns (r: Signal)
      requires Valid() && proc == Opening(plan, mine, alive, reclaimed)
      modifies this
      ensures Valid() && Within(old(events), events)
      ensures match r
              case Continue => proc == Forward(plan, mine, Recheck)
              case Stopped => proc == Idle(Crashed)
              case Raised(why) => proc == Idle(Failed(why))
      decreases !reclaimed
    {
      var fate := Await();
      if fate.Halt? { return Stopped; }
      ghost var before := Now();
      var found := lock;
      var refused :=
        if found.None? then None
        else if found.value.project != plan.projectIdentity || found.value.host != mine.host then Some(UntrustedLock)
        else if journal.Some? then Some(OrphanControlState)
        else if found.value.pid in alive then Some(ActiveWriter)
        else if reclaimed then Some(UntrustedLock) else None;
      if fate != Fault(false) && refused.None? {
        lock := if found.None? then Some(mine) else None;
      }
      Conclude(before, fate);
      if fate.Fault? { return Raised(FilesystemUnsupported); }
      if refused.Some? { return Raised(refused.value); }
      if found.Some? { r := AcquireLock(plan, mine, alive, true); } else { r := Continue; }
    }

    // lock.release() on the path that has not prepared a journal.
    method ReleaseLock(mine: Lock, why: Failure) returns (o: Outcome)
      requires Valid() && proc == Releasing(mine, why)
      modifies this
      ensures Valid() && Within(old(events), events) && proc == Idle(o)
    {
      var fate := Await();
      if fate.Halt? { return Crashed; }
      ghost var before := Now();
      var foreign := lock.Some? && lock != Some(mine);
      if fate != Fault(false) && !foreign { lock := None; }
      Conclude(before, fate);
      o := Failed(if fate.Fault? then FilesystemUnsupported else if foreign then UntrustedLock else why);
    }

    // One clean-up operation after the decision.
    method SweepOne(plan: Plan, mine: Lock, at: Point, next: Point) returns (r: Signal)
      requires Valid() && proc == Forward(plan, mine, at)
      requires (at, next) == (SweepTemp, SweepWork) || (at, next) == (SweepLock, SweepJournal)
      modifies this
      ensures Valid() && Within(old(events), events)
      ensures match r
              case Continue => proc == Forward(plan, mine, next)
              case Stopped => proc == Idle(Crashed)
              case Raised(why) => Thrown(mine, why, true)
    {
      var fate := Await();
      if fate.Halt? { return Stopped; }
      ghost var before := Now();
      var foreign := at.SweepLock? && lock.Some? && lock != Some(mine);
      if fate != Fault(false) {
        if at.SweepTemp? { temp := None; } else if !foreign { lock := None; }
      }
      Conclude(before, fate);
      r := if fate.Fault? then Raised(FilesystemUnsupported) else if foreign then Raised(UntrustedLock) else Continue;
    }

    // One file of a recursive removal.
    method RemoveOneBackup() returns (r: Signal)
      requires Valid() && Sweeping(proc) && backup.Keys != {}
      modifies this
      ensures Valid() && Within(old(events), events)
      ensures match r
              case Continue => proc == old(proc) && |backup.Keys| < |old(backup.Keys)|
              case Stopped => proc == Idle(Crashed)
              case Raised(why) => why == FilesystemUnsupported && Now() == Abort(Files(), old(proc), why)
    {
      var fate := Await();
      if fate.Halt? { return Stopped; }
      if fate.Fault? {
        Conclude(Now(), fate);
        return Raised(FilesystemUnsupported);
      }
      TakeBackup();
      r := Continue;
    }

    method TakeBackup()
      requires Valid() && Sweeping(proc) && backup.Keys != {}
      modifies this`backup, this`events, this`proc
      ensures Valid() && Within(old(events), events) && proc == old(proc) && |backup.Keys| < |old(backup.Keys)|
    {
      ghost var before := Now();
      var q :| q in backup.Keys;
      ghost var keys := backup.Keys;
      backup := backup - {q};
      assert backup.Keys == keys - {q};
      CallsSnoc(events, Sweep(q));
      Note(before, Sweep(q));
    }

    // removeTreeNoFollow of the publisher: backup files go one by one.
    method SweepBackups(plan: Plan, mine: Lock) returns (r: Signal)
      requires Valid() && proc == Forward(plan, mine, SweepWork)
      modifies this
      ensures Valid() && Within(old(events), events)
      ensures match r
              case Continue => proc == Forward(plan, mine, SweepLock)
              case Stopped => proc == Idle(Crashed)
              case Raised(why) => Thrown(mine, why, true)
    {
      while backup.Keys != {}
        invariant Valid() && Within(old(events), events) && proc == Forward(plan, mine, SweepWork)
        decreases |backup.Keys|
      {
        r := RemoveOneBackup();
        if !r.Continue? { return; }
      }
      Note(Now(), Go);
      r := Continue;
    }

    // The protected body of publishArtifacts; prepared tells whether persistJournal returned.
    method PublishUnderLock(plan: Plan, mine: Lock) returns (r: Signal, prepared: bool)
      requires Valid() && proc == Forward(plan, mine, Recheck)
      modifies this
      ensures Valid() && Within(old(events), events)
      ensures match r
              case Continue => proc == Idle(PublishedPlan(plan))
              case Stopped => proc == Idle(Crashed)
              case Raised(why) => Thrown(mine, why, prepared)
    {
      prepared := false;
      r := CheckAgain(plan, mine);
      if !r.Continue? { return; }
      r := SaveJournal(plan, mine, Prepared);
      if !r.Continue? { return; }
      prepared := true;
      r := SaveJournal(plan, mine, Publishing);
      if !r.Continue? { return; }
      r := MoveEverything(plan, mine);
      if !r.Continue? { return; }
      r := Decide(plan, mine);
    }

    // Records the complete tree, has it admitted and re-read, records the decision, and cleans up.
    method Decide(plan: Plan, mine: Lock) returns (r: Signal)
      requires Valid() && proc == Forward(plan, mine, Draft(Published))
      modifies this
      ensures Valid() && Within(old(events), events)
      ensures match r
              case Continue => proc == Idle(PublishedPlan(plan))
              case Stopped => proc == Idle(Crashed)
              case Raised(why) => Thrown(mine, why, true)
    {
      r := SaveJournal(plan, mine, Published);
      if !r.Continue? { return; }
      r := AdmitIntended(plan, mine);
      if !r.Continue? { return; }
      r := SaveJournal(plan, mine, Committed);
      if !r.Continue? { return; }
      r := CleanUp(plan, mine);
    }

    method CheckAgain(plan: Plan, mine: Lock) returns (r: Signal)
      requires Valid() && proc == Forward(plan, mine, Recheck)
      modifies this
      ensures Valid() && Within(old(events), events)
      ensures match r
              case Continue => proc == Forward(plan, mine, Draft(Prepared))
              case Stopped => proc == Idle(Crashed)
              case Raised(why) => Thrown(mine, why, false)
    {
      var fate := Await();
      if fate.Halt? { return Stopped; }
      Conclude(Now(), fate);
      r := if fate.Fault? then Raised(FilesystemUnsupported)
           else if !StagedStatesOk(Files(), plan) then Raised(UnexpectedStagedState)
           else if !NoUndeclaredStage(Files(), plan) then Raised(UndeclaredStagedEntry)
           else if !AllPrior(Files(), plan) then Raised(UnexpectedLiveState)
           else Continue;
    }

    method MoveEverything(plan: Plan, mine: Lock) returns (r: Signal)
      requires Valid() && proc == Forward(plan, mine, Move(0))
      modifies this
      ensures Valid() && Within(old(events), events)
      ensures match r
              case Continue => proc == Forward(plan, mine, Draft(Published))
              case Stopped => proc == Idle(Crashed)
              case Raised(why) => Thrown(mine, why, true)
    {
      for i := 0 to |plan.artifacts|
        invariant Valid() && Within(old(events), events) && proc == Forward(plan, mine, Move(i))
      {
        r := PublishTransition(plan, mine, i);
        if !r.Continue? { return; }
      }
      r := PublishTransition(plan, mine, |plan.artifacts|);
      if r.Continue? { Note(Now(), Go); }
    }

    // Asks the host, then reads every live file again.
    method AdmitIntended(plan: Plan, mine: Lock) returns (r: Signal)
      requires Valid() && proc == Forward(plan, mine, Ask)
      modifies this
      ensures Valid() && Within(old(events), events)
      ensures match r
              case Continue => proc == Forward(plan, mine, Draft(Committed))
              case Stopped => proc == Idle(Crashed)
              case Raised(why) => Thrown(mine, why, true)
    {
      var answer, halted := Consult();
      if halted { return Stopped; }
      if !answer.Yes? { return Raised(if answer.No? then IntendedStateRejected else HostError); }
      var fate := Await();
      if fate.Halt? { return Stopped; }
      Conclude(Now(), fate);
      r := if fate.Fault? then Raised(FilesystemUnsupported)
           else if !AllNext(Files(), plan) then Raised(UnexpectedLiveState) else Continue;
    }

    method CleanUp(plan: Plan, mine: Lock) returns (r: Signal)
      requires Valid() && proc == Forward(plan, mine, SweepTemp)
      modifies this
      ensures Valid() && Within(old(events), events)
      ensures match r
              case Continue => proc == Idle(PublishedPlan(plan))
              case Stopped => proc == Idle(Crashed)
              case Raised(why) => Thrown(mine, why, true)
    {
      r := SweepOne(plan, mine, SweepTemp, SweepWork);
      if !r.Continue? { return; }
      r := SweepBackups(plan, mine);
      if !r.Continue? { return; }
      r := SweepOne(plan, mine, SweepLock, SweepJournal);
      if !r.Continue? { return; }
      r := SweepControl(plan, mine);
    }

    // The journal goes last.
    method SweepControl(plan: Plan, mine: Lock) returns (r: Signal)
      requires Valid() && proc == Forward(plan, mine, SweepJournal)
      modifies this
      ensures Valid() && Within(old(events), events)
      ensures match r
              case Continue => proc == Idle(PublishedPlan(plan))
              case Stopped => proc == Idle(Crashed)
              case Raised(why) => Thrown(mine, why, true)
    {
      var fate := Await();
      if fate.Halt? { return Stopped; }
      ghost var before := Now();
      if fate != Fault(false) { journal := None; }
      Conclude(before, fate);
      r := if fate.Fault? then Raised(FilesystemUnsupported) else Continue;
    }

    // ---- Rollback and clean-up ------------------------------------------------------------------------

    // persistPhase: a leftover temporary file is a collision.
    method PersistPhase(j: Journal, l: Lock, v: Outcome, phase: Phase) returns (r: Signal)
      requires Valid() && proc == Settling(j, l, v, Write(phase))
      modifies this
      ensures Valid() && Within(old(events), events)
      ensures match r
              case Continue =>
                proc == Settling(j.(phase := phase), l, v,
                                 if phase.Committed? then CleanTemp else Reverse(|j.plan.Transitions()|))
              case Stopped => proc == Idle(Crashed)
              case Raised(why) => proc == Idle(Failed(why))
    {
      var fate := Await();
      if fate.Halt? { return Stopped; }
      ghost var before := Now();
      var collision := temp.Some?;
      if fate != Fault(false) && !collision { temp := Some(j.(phase := phase)); }
      Conclude(before, fate);
      if fate.Fault? { return Raised(FilesystemUnsupported); }
      if collision { return Raised(ControlPathCollision); }
      r := RenamePhase(j, l, v, phase);
    }

    method RenamePhase(j: Journal, l: Lock, v: Outcome, phase: Phase) returns (r: Signal)
      requires Valid() && proc == Settling(j, l, v, Rename(phase))
      modifies this
      ensures Valid() && Within(old(events), events)
      ensures match r
              case Continue =>
                proc == Settling(j.(phase := phase), l, v,
                                 if phase.Committed? then CleanTemp else Reverse(|j.plan.Transitions()|))
              case Stopped => proc == Idle(Crashed)
              case Raised(why) => proc == Idle(Failed(why))
    {
      var fate := Await();
      if fate.Halt? { return Stopped; }
      ghost var before := Now();
      var missing := temp.None?;
      if fate != Fault(false) && !missing { journal, temp := temp, None; }
      Conclude(before, fate);
      r := if fate.Fault? || missing then Raised(FilesystemUnsupported) else Continue;
    }

    // The first half of rollbackTransition: checks, then removes the next file.
    method RemoveNext(j: Journal, l: Lock, v: Outcome, k: nat) returns (r: Signal, restore: bool)
      requires Valid() && proc == Settling(j, l, v, Reverse(k)) && 0 < k <= |j.plan.Transitions()|
      modifies this
      ensures Valid() && Within(old(events), events)
      ensures match r
              case Continue => proc == Settling(j, l, v, if restore then Restore(k) else Reverse(k - 1))
              case Stopped => proc == Idle(Crashed)
              case Raised(why) => proc == Idle(Failed(why))
    {
      var t := j.plan.Transitions()[k - 1];
      restore := false;
      var fate := Await();
      if fate.Halt? { return Stopped, false; }
      ghost var before := Now();
      var here, saved := At(live, t.path), At(backup, t.path);
      var conflict, unlink := false, false;
      if !t.Changes() {
        conflict := here != t.prior;
      } else if t.prior.Absent? {
        unlink := saved.Absent? && here == t.next;
        conflict := saved.File? || (here != t.next && here.File?);
      } else if here != t.prior || saved.File? {
        unlink := saved == t.prior && here == t.next && here.File?;
        restore := saved == t.prior && (unlink || here.Absent?);
        conflict := !restore;
      }
      if fate != Fault(false) && unlink { live := Put(live, t.path, Absent); }
      Conclude(before, fate);
      r := if fate.Fault? then Raised(FilesystemUnsupported) else if conflict then Raised(RecoveryConflict) else Continue;
    }

    // Its second half: the backup goes home.
    method RestorePrior(j: Journal, l: Lock, v: Outcome, k: nat) returns (r: Signal)
      requires Valid() && proc == Settling(j, l, v, Restore(k)) && 0 < k <= |j.plan.Transitions()|
      modifies this
      ensures Valid() && Within(old(events), events)
      ensures match r
              case Continue => proc == Settling(j, l, v, Reverse(k - 1))
              case Stopped => proc == Idle(Crashed)
              case Raised(why) => proc == Idle(Failed(why))
    {
      var path := j.plan.Transitions()[k - 1].path;
      var fate := Await();
      if fate.Halt? { return Stopped; }
      ghost var before := Now();
      var missing := At(backup, path).Absent?;
      if fate != Fault(false) && !missing {
        live, backup := Put(live, path, At(backup, path)), Put(backup, path, Absent);
      }
      assert Act(before) == RestoreStep(before.disk, j, l, v, k);
      Conclude(before, fate);
      r := if fate.Fault? || missing then Raised(FilesystemUnsupported) else Continue;
    }

    method RollBackTransition(j: Journal, l: Lock, v: Outcome, k: nat) returns (r: Signal)
      requires Valid() && proc == Settling(j, l, v, Reverse(k)) && 0 < k <= |j.plan.Transitions()|
      modifies this
      ensures Valid() && Within(old(events), events)
      ensures match r
              case Continue => proc == Settling(j, l, v, Reverse(k - 1))
              case Stopped => proc == Idle(Crashed)
              case Raised(why) => proc == Idle(Failed(why))
    {
      var restore;
      r, restore := RemoveNext(j, l, v, k);
      if r.Continue? && restore { r := RestorePrior(j, l, v, k); }
    }

    // removeTreeNoFollow of cleanupTerminal.
    method EmptyWork(j: Journal, l: Lock, v: Outcome) returns (r: Signal)
      requires Valid() && proc == Settling(j, l, v, CleanWork)
      modifies this
      ensures Valid() && Within(old(events), events)
      ensures match r
              case Continue => proc == Settling(j, l, v, CleanLock)
              case Stopped => proc == Idle(Crashed)
              case Raised(why) => proc == Idle(Failed(why))
    {
      while backup.Keys != {}
        invariant Valid() && Within(old(events), events) && proc == Settling(j, l, v, CleanWork)
        decreases |backup.Keys|
      {
        r := RemoveOneBackup();
        if !r.Continue? { return; }
      }
      Note(Now(), Go);
      r := Continue;
    }

    // cleanupTerminal.
    method CleanUpTerminal(j: Journal, l: Lock, v: Outcome) returns (o: Outcome)
      requires Valid() && proc == Settling(j, l, v, CleanTemp)
      modifies this
      ensures Valid() && Within(old(events), events) && proc == Idle(o)
      ensures o == v || o == Crashed || o.Failed?
    {
      var r := DropTemp(j, l, v);
      if !r.Continue? { return if r.Stopped? then Crashed else Failed(r.why); }
      r := EmptyWork(j, l, v);
      if !r.Continue? { return if r.Stopped? then Crashed else Failed(r.why); }
      o := DropControl(j, l, v);
    }

    method DropTemp(j: Journal, l: Lock, v: Outcome) returns (r: Signal)
      requires Valid() && proc == Settling(j, l, v, CleanTemp)
      modifies this
      ensures Valid() && Within(old(events), events)
      ensures match r
              case Continue => proc == Settling(j, l, v, CleanWork)
              case Stopped => proc == Idle(Crashed)
              case Raised(why) => proc == Idle(Failed(why))
    {
      var fate := Await();
      if fate.Halt? { return Stopped; }
      ghost var before := Now();
      if fate != Fault(false) { temp := None; }
      Conclude(before, fate);
      r := if fate.Fault? then Raised(FilesystemUnsupported) else Continue;
    }

    // The lock goes before the journal, each only while its bytes are still the expected ones.
    method DropControl(j: Journal, l: Lock, v: Outcome) returns (o: Outcome)
      requires Valid() && proc == Settling(j, l, v, CleanLock)
      modifies this
      ensures Valid() && Within(old(events), events) && proc == Idle(o)
      ensures o == v || o == Crashed || o.Failed?
    {
      var fate := Await();
      if fate.Halt? { return Crashed; }
      ghost var before := Now();
      var found := lock;
      if fate != Fault(false) && found == Some(l) { lock := None; }
      Conclude(before, fate);
      if fate.Fault? { return Failed(FilesystemUnsupported); }
      if found != Some(l) { return Failed(if found.None? then OrphanControlState else RecoveryConflict); }
      o := DropJournal(j, l, v);
    }

    method DropJournal(j: Journal, l: Lock, v: Outcome) returns (o: Outcome)
      requires Valid() && proc == Settling(j, l, v, CleanJournal)
      modifies this
      ensures Valid() && Within(old(events), events) && proc == Idle(o)
      ensures o == v || o == Crashed || o.Failed?
    {
      var fate := Await();
      if fate.Halt? { return Crashed; }
      ghost var before := Now();
      var saved := journal;
      if fate != Fault(false) && saved == Some(j) { journal := None; }
      Conclude(before, fate);
      if fate.Fault? { return Failed(FilesystemUnsupported); }
      if saved != Some(j) { return Failed(if saved.None? then OrphanControlState else RecoveryConflict); }
      o := v;
    }

    // rollbackTransaction: marker first, then the artifacts in reverse order.
    method RollBack(j: Journal, l: Lock, v: Outcome) returns (o: Outcome)
      requires Valid() && proc == Settling(j, l, v, BeginRollback(j))
      modifies this
      ensures Valid() && Within(old(events), events) && proc == Idle(o)
      ensures o == v || o == Crashed || o.Failed?
    {
      var r := Continue;
      if !j.phase.RollingBack? {
        r := PersistPhase(j, l, v, RollingBack);
        if !r.Continue? { return if r.Stopped? then Crashed else Failed(r.why); }
      }
      o := UndoEverything(j.(phase := RollingBack), l, v);
    }

    method UndoAll(rolling: Journal, l: Lock, v: Outcome) returns (r: Signal)
      requires Valid() && proc == Settling(rolling, l, v, Reverse(|rolling.plan.Transitions()|))
      modifies this
      ensures Valid() && Within(old(events), events)
      ensures match r
              case Continue => proc == Settling(rolling, l, v, Reverse(0))
              case Stopped => proc == Idle(Crashed)
              case Raised(why) => proc == Idle(Failed(why))
    {
      var k: nat := |rolling.plan.Transitions()|;
      r := Continue;
      while k > 0
        invariant k <= |rolling.plan.Transitions()| && r.Continue?
        invariant Valid() && Within(old(events), events) && proc == Settling(rolling, l, v, Reverse(k))
      {
        r := RollBackTransition(rolling, l, v, k);
        if !r.Continue? { return; }
        k := k - 1;
      }
    }

    method UndoEverything(rolling: Journal, l: Lock, v: Outcome) returns (o: Outcome)
      requires Valid() && proc == Settling(rolling, l, v, Reverse(|rolling.plan.Transitions()|))
      modifies this
      ensures Valid() && Within(old(events), events) && proc == Idle(o)
      ensures o == v || o == Crashed || o.Failed?
    {
      var r := UndoAll(rolling, l, v);
      if !r.Continue? { return if r.Stopped? then Crashed else Failed(r.why); }
      Note(Now(), Go);
      o := SettlePrior(rolling, l, v);
    }

    // Every file is checked against its prior state before the rollback is recorded as terminal.
    method SettlePrior(rolling: Journal, l: Lock, v: Outcome) returns (o: Outcome)
      requires Valid() && proc == Settling(rolling, l, v, CheckPrior)
      modifies this
      ensures Valid() && Within(old(events), events) && proc == Idle(o)
      ensures o == v || o == Crashed || o.Failed?
    {
      var fate := Await();
      if fate.Halt? { return Crashed; }
      Conclude(Now(), fate);
      if fate.Fault? { return Failed(FilesystemUnsupported); }
      if !AllPrior(Files(), rolling.plan) { return Failed(RecoveryConflict); }
      var r := PersistPhase(rolling, l, v, Committed);
      if !r.Continue? { return if r.Stopped? then Crashed else Failed(r.why); }
      o := CleanUpTerminal(rolling.(phase := Committed), l, v);
    }

    // ---- The two entry points ---------------------------------------------------------------------------

    // A whole call is a run of the machine. When nobody disturbs it, it returns exactly what the disk, the caller and
    // the host decide, and leaves exactly that disk.
    method PublishArtifacts(c: Caller, plan: Plan, transaction: nat) returns (o: Outcome)
      requires Valid() && proc.Idle?
      modifies this
      ensures Valid() && proc == Idle(o)
      ensures Within(old(events) + [Publish(c, plan, transaction)], events)
      ensures old(environment == [] && SessionPublication.Sound(Now()) && Readable(live, plan)) ==>
                o == Outcomes(old(Files()), c, plan, host(old(asked)))
                && Left(old(Files()), Files(), c, plan, host(old(asked)))
    {
      ghost var s, was, k := Now(), events, asked;
      ghost var quiet := environment == [] && SessionPublication.Sound(s) && Readable(live, plan);
      o := PublishSteps(c, plan, transaction);
      if quiet {
        ghost var es := events[|was| + 1..];
        QuietCall(start, was, Publish(c, plan, transaction), events, host, k);
        PublishAlways(s, c, plan, transaction, es, host, k);
      }
    }

    method PublishSteps(c: Caller, plan: Plan, transaction: nat) returns (o: Outcome)
      requires Valid() && proc.Idle?
      modifies this
      ensures Valid() && proc == Idle(o)
      ensures Within(old(events) + [Publish(c, plan, transaction)], events)
    {
      CallsSnoc(events, Publish(c, plan, transaction));
      Note(Now(), Publish(c, plan, transaction));
      if !Accepted(plan) { return Failed(InvalidPlan); }
      if !AllPrior(Files(), plan) {
        return if AllNext(Files(), plan) then Unchanged else Failed(UnexpectedLiveState);
      }
      if !StagedStatesOk(Files(), plan) { return Failed(UnexpectedStagedState); }
      if !NoUndeclaredStage(Files(), plan) { return Failed(UndeclaredStagedEntry); }
      var mine := Lock(plan.projectIdentity, c.host, c.pid, transaction);
      var r := AcquireLock(plan, mine, c.alive, false);
      if !r.Continue? { return if r.Stopped? then Crashed else Failed(r.why); }
      var prepared;
      r, prepared := PublishUnderLock(plan, mine);
      match r
      case Continue => o := PublishedPlan(plan);
      case Stopped => o := Crashed;
      case Raised(why) =>
        if !prepared {
          o := ReleaseLock(mine, why);
        } else if journal.None? {
          o := Failed(why);
        } else {
          o := RollBack(journal.value, mine, Failed(why));
        }
    }

    // Recovery of a transaction whose lock is already gone: only its journal is left to remove.
    method DropJournalOnly(j: Journal) returns (o: Outcome)
      requires Valid() && proc == Recovering(j, None, Resume)
      modifies this
      ensures Valid() && Within(old(events), events) && proc == Idle(o)
    {
      var fate := Await();
      if fate.Halt? { return Crashed; }
      Conclude(Now(), fate);
      if fate.Fault? { return Failed(FilesystemUnsupported); }
      if !AllPrior(Files(), j.plan) && !AllNext(Files(), j.plan) { return Failed(RecoveryConflict); }
      o := DropSavedJournal(j, AllNext(Files(), j.plan));
    }

    method DropSavedJournal(j: Journal, committed: bool) returns (o: Outcome)
      requires Valid() && proc == Recovering(j, None, ArtifactProtocol.DropJournal(committed))
      modifies this
      ensures Valid() && Within(old(events), events) && proc == Idle(o)
    {
      var fate := Await();
      if fate.Halt? { return Crashed; }
      ghost var before := Now();
      var saved := journal;
      if fate != Fault(false) && saved == Some(j) { journal := None; }
      Conclude(before, fate);
      o := if fate.Fault? then Failed(FilesystemUnsupported)
           else if saved.None? then Failed(OrphanControlState)
           else if saved != Some(j) then Failed(RecoveryConflict)
           else if committed then CommittedPlan(j.plan) else RolledBack(j.plan);
    }

    // Finalises a transaction whose intended tree is complete and admitted.
    method Finalise(j: Journal, l: Lock) returns (o: Outcome)
      requires Valid() && proc == Settling(j, l, CommittedPlan(j.plan), Write(Committed))
      modifies this
      ensures Valid() && Within(old(events), events) && proc == Idle(o)
    {
      var r := PersistPhase(j, l, CommittedPlan(j.plan), Committed);
      if !r.Continue? { return if r.Stopped? then Crashed else Failed(r.why); }
      o := CleanUpTerminal(j.(phase := Committed), l, CommittedPlan(j.plan));
    }

    // The tree is read again after the host has admitted it.
    method ReadAgain(j: Journal, l: Lock) returns (r: Signal, complete: bool)
      requires Valid() && proc == Recovering(j, Some(l), ConfirmIntended)
      modifies this
      ensures Valid() && Within(old(events), events)
      ensures match r
              case Continue => proc == (if complete then Settling(j, l, CommittedPlan(j.plan), Write(Committed))
                                        else Settling(j, l, RolledBack(j.plan), BeginRollback(j)))
              case Stopped => proc == Idle(Crashed)
              case Raised(why) => proc == Idle(Failed(why))
    {
      var fate := Await();
      complete := AllNext(Files(), j.plan);
      if fate.Halt? { return Stopped, complete; }
      Conclude(Now(), fate);
      r := if fate.Fault? then Raised(FilesystemUnsupported) else Continue;
    }

    // The host is asked only when the complete intended tree is there, and the tree is read again after.
    method FinaliseOrRollBack(j: Journal, l: Lock) returns (o: Outcome)
      requires Valid() && proc == Recovering(j, Some(l), AskIntended)
      modifies this
      ensures Valid() && Within(old(events), events) && proc == Idle(o)
    {
      var answer, halted := Consult();
      if halted { return Crashed; }
      if answer.Throws? { return Failed(HostError); }
      if answer.Yes? {
        var r, complete := ReadAgain(j, l);
        if !r.Continue? { return if r.Stopped? then Crashed else Failed(r.why); }
        if complete {
          o := Finalise(j, l);
          return;
        }
      }
      o := RollBack(j, l, RolledBack(j.plan));
    }

    method ResumeOwned(j: Journal, l: Lock) returns (o: Outcome)
      requires Valid() && proc == Recovering(j, Some(l), Resume)
      modifies this
      ensures Valid() && Within(old(events), events) && proc == Idle(o)
    {
      var fate := Await();
      if fate.Halt? { return Crashed; }
      Conclude(Now(), fate);
      if fate.Fault? { return Failed(FilesystemUnsupported); }
      if lock.None? || journal.None? { return Failed(OrphanControlState); }
      if lock != Some(l) || journal != Some(j) { return Failed(RecoveryConflict); }
      if j.phase.Committed? {
        if !AllPrior(Files(), j.plan) && !AllNext(Files(), j.plan) { return Failed(RecoveryConflict); }
        o := CleanUpTerminal(j, l, if AllNext(Files(), j.plan) then CommittedPlan(j.plan) else RolledBack(j.plan));
      } else if AllNext(Files(), j.plan) {
        o := FinaliseOrRollBack(j, l);
      } else {
        o := RollBack(j, l, RolledBack(j.plan));
      }
    }

    // The same for a recovery.
    method RecoverArtifacts(c: Caller, root: string) returns (o: Outcome)
      requires Valid() && proc.Idle?
      modifies this
      ensures Valid() && proc == Idle(o)
      ensures Within(old(events) + [Recover(c, root)], events)
      ensures old(environment == [] && CrashOk(Files()) && (journal.Some? ==> Readable(live, journal.value.plan))) ==>
                o == RecoveryOutcome(old(Files()), c, root, host(old(asked)), host(old(asked) + 1))
                && ArtifactCalls.Closed(Now(), old(Files()), c, root, host(old(asked)), host(old(asked) + 1))
    {
      ghost var s, was, k := Now(), events, asked;
      ghost var quiet := environment == [] && CrashOk(Files()) && (journal.Some? ==> Readable(live, journal.value.plan));
      o := RecoverSteps(c, root);
      if quiet {
        ghost var es := events[|was| + 1..];
        QuietCall(start, was, Recover(c, root), events, host, k);
        RecoverAlways(s, c, root, es, host, k);
      }
    }

    method RecoverSteps(c: Caller, root: string) returns (o: Outcome)
      requires Valid() && proc.Idle?
      modifies this
      ensures Valid() && proc == Idle(o)
      ensures Within(old(events) + [Recover(c, root)], events)
    {
      CallsSnoc(events, Recover(c, root));
      Note(Now(), Recover(c, root));
      if lock.None? && journal.None? { return NothingToRecover; }
      if journal.None? { return Failed(OrphanControlState); }
      var j := journal.value;
      if j.plan.transactionRoot != root || j.plan.projectIdentity != c.project { return Failed(MalformedJournal); }
      var owner := lock;
      if owner.None? {
        if !j.phase.Committed? { return Failed(OrphanControlState); }
      } else {
        var l := owner.value;
        if l.project != c.project || l.transaction != j.transaction || l.host != c.host { return Failed(UntrustedLock); }
        if l.pid != c.pid && l.pid in c.alive { return Failed(ActiveWriter); }
      }
      var answer, halted := Consult();
      if halted { return Crashed; }
      if !answer.Yes? { return Failed(if answer.No? then RecoveryConflict else HostError); }
      if owner.None? { o := DropJournalOnly(j); } else { o := ResumeOwned(j, owner.value); }
    }
  }

  // The events of one call, when nothing disturbed it.
  lemma QuietCall(start: Sys, was: seq<Event>, call: Event, now: seq<Event>, host: nat -> Answer, k: nat)
    requires Within(was + [call], now) && Disturbances(now) <= Disturbances(was) && (call.Publish? || call.Recover?)
    requires Heard(start, was, host, 0) == Some(k) && Heard(start, now, host, 0).Some?
    ensures var es := now[|was| + 1..];
            && Undisturbed(es) && Run(start, now) == Run(Step(Run(start, was), call), es)
            && Heard(Step(Run(start, was), call), es, host, k).Some?
  {
    var es, first := now[|was| + 1..], was + [call];
    DisturbancesSnoc(was, call);
    OwnSince(first, now);
    assert now == first + es;
    RunAppend(start, first, es);
    RunAppend(start, was, [call]);
    assert [call][1..] == [] && Run(Run(start, was), [call]) == Step(Run(start, was), call);
    HeardAppend(start, first, es, host, 0);
    HeardAppend(start, was, [call], host, 0);
    assert Heard(Run(start, was), [call], host, k) == Some(k);
  }

  // In every state that the routines can reach from a fresh project - and a finished call is one - the
  // invariant of the transaction holds, unless the surroundings edited files or an I/O error hit the
  // publisher's clean-up after a needed backup was gone.
  lemma ProjectIsSafe(p: Project)
    requires p.Valid() && Fresh(p.start) && p.start.proc == Idle(NeverStarted) && CalmRun(p.start, p.events)
    ensures Inv(p.Now())
    ensures p.proc.Idle? ==> OutcomeOk(p.Files(), p.proc.last)
    ensures p.journal.Some? && !p.journal.value.phase.Committed? ==> AllRestorable(p.Files(), p.journal.value.plan)
  {
    RunKeeps(p.start, p.events);
  }
}
