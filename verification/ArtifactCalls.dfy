/**
 Calls that nobody disturbs, with a host that answers: whatever order the steps come in, a publication and a
 recovery end with one outcome, which the disk, the caller and the host's answers decide.
 */
module ArtifactCalls {
  import opened Wrappers
  import opened ArtifactPlan
  import opened ArtifactProtocol
  import opened ArtifactSafety
  import opened ArtifactNesting
  import opened ArtifactRecovery
  import opened ArtifactTheorems
  import opened ArtifactFaults
  import opened SessionPublication
  import opened ArtifactAdmission

  // ---- What the host is asked -----------------------------------------------------------------------------

  // The host answers when it is asked, and only then; k questions came before. None for any other run.
  function Heard(s: Sys, es: seq<Event>, host: nat -> Answer, k: nat): Option<nat>
    decreases |es|
  {
    if es == [] then Some(k)
    else if es[0].Reply? then
      if Asking(s.proc) && es[0].answer == host(k) then Heard(Step(s, es[0]), es[1..], host, k + 1) else None
    else Heard(Step(s, es[0]), es[1..], host, k)
  }

  lemma {:induction false} HeardAppend(s: Sys, es: seq<Event>, fs: seq<Event>, host: nat -> Answer, k: nat)
    ensures Heard(s, es + fs, host, k)
            == match Heard(s, es, host, k) case None => None case Some(m) => Heard(Run(s, es), fs, host, m)
    decreases |es|
  {
    if es == [] {
      assert es + fs == fs;
    } else {
      assert (es + fs)[0] == es[0] && (es + fs)[1..] == es[1..] + fs;
      HeardAppend(Step(s, es[0]), es[1..], fs, host, if es[0].Reply? then k + 1 else k);
    }
  }

  // ---- A publication --------------------------------------------------------------------------------------

  predicate Clean(d: Disk) { d.journal.None? && d.temp.None? }

  // Up to the first journal write nothing has changed but the lock.
  predicate Entering(x: Sys, d: Disk, c: Caller, plan: Plan, transaction: nat) {
    && Accepted(plan) && AllPrior(d, plan) && StagedStatesOk(d, plan) && NoUndeclaredStage(d, plan)
    && WorksFor(x.proc, c, plan, transaction)
    && match x.proc
       case Opening(_, _, _, reclaimed) =>
         if reclaimed then Enters(d, c, plan) && x.disk == d.(lock := None) else x.disk == d
       case Forward(_, mine, at) =>
         (at == Recheck || at == Draft(Prepared)) && Enters(d, c, plan) && x.disk == d.(lock := Some(mine))
       case _ => false
  }

  predicate Stopping(x: Sys, d: Disk, c: Caller, plan: Plan, answer: Answer) {
    && x.proc.Releasing? && Enters(d, c, plan) && !Clean(d) && x.disk == d.(lock := Some(x.proc.mine))
    && Outcomes(d, c, plan, answer) == Failed(x.proc.why)
  }

  ghost predicate Publishing(x: Sys, d: Disk, c: Caller, plan: Plan, answer: Answer) {
    && Enters(d, c, plan) && Clean(d) && x.proc.Forward? && x.proc.plan == plan
    && ((ForwardReady(x) && (!answer.Yes? ==> !PastAsk(x.proc.at)))
        || (answer.Yes? && Inv(x) && x.proc.at.SweepJournal?))
  }

  ghost predicate Unwound(x: Sys, d: Disk, c: Caller, plan: Plan, answer: Answer) {
    && Enters(d, c, plan) && Clean(d) && !answer.Yes? && SettleReady(x) && Locked(x)
    && x.proc.journal.plan == plan && x.proc.verdict == Outcomes(d, c, plan, answer)
  }

  predicate Ended(x: Sys, d: Disk, c: Caller, plan: Plan, answer: Answer) {
    x.proc == Idle(Outcomes(d, c, plan, answer)) && Left(d, x.disk, c, plan, answer)
  }

  ghost predicate Heading(x: Sys, d: Disk, c: Caller, plan: Plan, transaction: nat, answer: Answer) {
    || Entering(x, d, c, plan, transaction) || Stopping(x, d, c, plan, answer) || Publishing(x, d, c, plan, answer)
    || Unwound(x, d, c, plan, answer) || Ended(x, d, c, plan, answer)
  }

  // The host's answer is still to come.
  predicate ToAsk(x: Sys) {
    x.proc.Opening? || (x.proc.Forward? && !PastAsk(x.proc.at))
  }

  // A step of the call itself, or this answer to its question.
  predicate Fits(e: Event, x: Sys, answer: Answer) {
    e.Go? || e.Sweep? || (e.Reply? && Asking(x.proc) && e.answer == answer)
  }

  lemma OpeningGo(x: Sys, d: Disk, c: Caller, plan: Plan, transaction: nat, answer: Answer)
    requires Entering(x, d, c, plan, transaction) && x.proc.Opening?
    ensures Entering(Act(x), d, c, plan, transaction) || Ended(Act(x), d, c, plan, answer)
  {
  }

  lemma RecheckGo(x: Sys, d: Disk, c: Caller, plan: Plan, transaction: nat)
    requires Entering(x, d, c, plan, transaction) && x.proc.Forward? && x.proc.at == Recheck
    ensures Entering(Act(x), d, c, plan, transaction)
  {
    SameChecks(d, x.disk, plan);
    SecondCheck(x);
  }

  lemma DraftGo(x: Sys, d: Disk, c: Caller, plan: Plan, transaction: nat, answer: Answer)
    requires Entering(x, d, c, plan, transaction) && x.proc.Forward? && x.proc.at == Draft(Prepared)
    requires d.journal.None? ==> d.backup == map[]
    ensures Stopping(Act(x), d, c, plan, answer) || Publishing(Act(x), d, c, plan, answer)
  {
    if Clean(d) {
      SameChecks(d, x.disk, plan);
      assert ForwardReady(x);
      StepKeeps(x, Go);
      DraftAdvances(x);
      assert Act(x).proc.at == Seal(Prepared);
    }
  }

  lemma EnteringStep(x: Sys, e: Event, d: Disk, c: Caller, plan: Plan, transaction: nat, answer: Answer)
    requires Entering(x, d, c, plan, transaction) && Fits(e, x, answer) && (d.journal.None? ==> d.backup == map[])
    ensures Heading(Step(x, e), d, c, plan, transaction, answer)
  {
    if e.Go? {
      if x.proc.Opening? { OpeningGo(x, d, c, plan, transaction, answer); }
      else if x.proc.at == Recheck { RecheckGo(x, d, c, plan, transaction); }
      else { DraftGo(x, d, c, plan, transaction, answer); }
    } else {
      assert Step(x, e) == x;
    }
  }

  lemma StoppingStep(x: Sys, e: Event, d: Disk, c: Caller, plan: Plan, answer: Answer)
    requires Stopping(x, d, c, plan, answer) && Fits(e, x, answer)
    ensures Stopping(Step(x, e), d, c, plan, answer) || Ended(Step(x, e), d, c, plan, answer)
  {
    if e.Go? { assert d.(lock := Some(x.proc.mine)).(lock := None) == d.(lock := None); } else { assert Step(x, e) == x; }
  }

  lemma LastSweep(x: Sys, e: Event, d: Disk, c: Caller, plan: Plan, answer: Answer)
    requires Publishing(x, d, c, plan, answer) && x.proc.at.SweepJournal? && Fits(e, x, answer)
    ensures Step(x, e) == x || Ended(Step(x, e), d, c, plan, answer)
  {
    if e.Go? { SameNext(x, plan); }
  }

  lemma SameNext(x: Sys, plan: Plan)
    requires Inv(x) && x.proc.Forward? && x.proc.plan == plan && x.proc.at.SweepJournal?
    ensures AllNext(Act(x).disk, plan) && ControlGone(Act(x).disk) && Act(x).disk.temp.None? && Act(x).proc == Idle(PublishedPlan(plan))
  {
  }

  lemma LockGo(x: Sys, d: Disk, c: Caller, plan: Plan, answer: Answer)
    requires Publishing(x, d, c, plan, answer) && x.proc.at.SweepLock?
    ensures Publishing(Act(x), d, c, plan, answer)
  {
    StepKeeps(x, Go);
  }

  lemma AskedStep(x: Sys, d: Disk, c: Caller, plan: Plan, answer: Answer)
    requires Publishing(x, d, c, plan, answer) && x.proc.at.Ask?
    ensures Publishing(Step(x, Reply(answer)), d, c, plan, answer) || Unwound(Step(x, Reply(answer)), d, c, plan, answer)
  {
    StepKeeps(x, Reply(answer));
    if answer.Yes? { ProceedReady(x); } else { AskedReply(x, answer); FaultHolder(x, Reply(answer)); }
  }

  lemma PublishingGo(x: Sys, d: Disk, c: Caller, plan: Plan, answer: Answer)
    requires Publishing(x, d, c, plan, answer) && ForwardReady(x) && !x.proc.at.SweepLock?
    ensures Act(x) == x || Publishing(Act(x), d, c, plan, answer)
  {
    if x.proc.at.Ask? || (x.proc.at.SweepWork? && x.disk.backup.Keys != {}) {
      assert Act(x) == x;
    } else {
      GoesForward(x);
      if !answer.Yes? { StaysBeforeAsk(x); }
    }
  }

  lemma GoesForward(x: Sys)
    requires ForwardReady(x) && !x.proc.at.SweepLock? && !x.proc.at.Ask?
    requires x.proc.at.SweepWork? ==> x.disk.backup.Keys == {}
    ensures Proceed(x) == Go && ForwardReady(Act(x)) && Advances(x, Act(x))
  {
    assert Proceed(x) == Go;
    ProceedReady(x);
  }

  lemma PublishingSweep(x: Sys, path: string, d: Disk, c: Caller, plan: Plan, answer: Answer)
    requires Publishing(x, d, c, plan, answer)
    ensures Publishing(Step(x, Sweep(path)), d, c, plan, answer)
  {
    if Sweeping(x.proc) { StepKeeps(x, Sweep(path)); }
  }

  lemma PublishingStep(x: Sys, e: Event, d: Disk, c: Caller, plan: Plan, answer: Answer)
    requires Publishing(x, d, c, plan, answer) && Fits(e, x, answer)
    ensures var t := Step(x, e);
            Publishing(t, d, c, plan, answer) || Unwound(t, d, c, plan, answer) || Ended(t, d, c, plan, answer)
  {
    if x.proc.at.SweepJournal? { LastSweep(x, e, d, c, plan, answer); }
    else if e.Sweep? { PublishingSweep(x, e.path, d, c, plan, answer); }
    else if e.Reply? { AskedStep(x, d, c, plan, answer); }
    else if x.proc.at.SweepLock? { LockGo(x, d, c, plan, answer); }
    else { PublishingGo(x, d, c, plan, answer); }
  }

  // A step of a rollback or clean-up, in any order.
  lemma SettlingStep(x: Sys, e: Event)
    requires SettleReady(x) && Locked(x) && (e.Go? || e.Sweep?)
    ensures var t := Step(x, e);
            || (SettleReady(t) && Locked(t) && t.proc.verdict == x.proc.verdict && t.proc.journal.plan == x.proc.journal.plan)
            || Settled(t, x.proc.journal.plan, x.proc.verdict, true)
  {
    StepKeeps(x, e);
    if e.Go? { ActReady(x); }
    else if Sweeping(x.proc) { SweepReady(x, e.path); }
    else { assert Step(x, e) == x; }
  }

  lemma UnwoundStep(x: Sys, e: Event, d: Disk, c: Caller, plan: Plan, answer: Answer)
    requires Unwound(x, d, c, plan, answer) && Fits(e, x, answer)
    ensures Unwound(Step(x, e), d, c, plan, answer) || Ended(Step(x, e), d, c, plan, answer)
  {
    SettlingStep(x, e);
  }

  lemma HeadingStep(x: Sys, e: Event, d: Disk, c: Caller, plan: Plan, transaction: nat, answer: Answer)
    requires Heading(x, d, c, plan, transaction, answer) && Fits(e, x, answer) && (d.journal.None? ==> d.backup == map[])
    ensures Heading(Step(x, e), d, c, plan, transaction, answer)
  {
    if Entering(x, d, c, plan, transaction) { EnteringStep(x, e, d, c, plan, transaction, answer); }
    else if Stopping(x, d, c, plan, answer) { StoppingStep(x, e, d, c, plan, answer); }
    else if Publishing(x, d, c, plan, answer) { PublishingStep(x, e, d, c, plan, answer); }
    else if Unwound(x, d, c, plan, answer) { UnwoundStep(x, e, d, c, plan, answer); }
    else { assert Step(x, e) == x; }
  }

  // The question is still the k-th one, until it has been answered.
  predicate Pending(x: Sys, host: nat -> Answer, k: nat, answer: Answer) {
    ToAsk(x) ==> host(k) == answer
  }

  lemma NotAskedAgain(x: Sys, e: Event, answer: Answer)
    requires !x.proc.Recovering? && Fits(e, x, answer) && (!ToAsk(x) || e.Reply?)
    ensures !ToAsk(Step(x, e))
  {
    if x.proc.Settling? { SettlesOn(x); }
  }

  lemma SettlesOn(x: Sys)
    requires x.proc.Settling?
    ensures Act(x).proc.Settling? || Act(x).proc.Idle?
  {
  }

  lemma {:induction false} RunHeading(x: Sys, es: seq<Event>, d: Disk, c: Caller, plan: Plan, transaction: nat,
                                      host: nat -> Answer, k: nat, answer: Answer)
    requires Heading(x, d, c, plan, transaction, answer) && Pending(x, host, k, answer)
    requires Undisturbed(es) && Heard(x, es, host, k).Some? && (d.journal.None? ==> d.backup == map[])
    ensures Heading(Run(x, es), d, c, plan, transaction, answer)
    decreases |es|
  {
    if es != [] {
      var e := es[0];
      assert e in es && forall f :: f in es[1..] ==> f in es;
      if e.Reply? { AskingIsToAsk(x, d, c, plan, transaction, answer); }
      HeadingStep(x, e, d, c, plan, transaction, answer);
      if !ToAsk(x) || e.Reply? { NotAskedAgain(x, e, answer); }
      RunHeading(Step(x, e), es[1..], d, c, plan, transaction, host, if e.Reply? then k + 1 else k, answer);
    }
  }

  lemma AskingIsToAsk(x: Sys, d: Disk, c: Caller, plan: Plan, transaction: nat, answer: Answer)
    requires Heading(x, d, c, plan, transaction, answer) && Asking(x.proc)
    ensures ToAsk(x)
  {
  }

  // Every undisturbed run of a publication call of legible paths that has ended has this outcome and leaves this
  // disk, whatever the order of its steps.
  lemma PublishAlways(s: Sys, c: Caller, plan: Plan, transaction: nat, es: seq<Event>, host: nat -> Answer, k: nat)
    requires Sound(s) && Readable(s.disk.live, plan) && Undisturbed(es)
    requires var y := Step(s, Publish(c, plan, transaction)); Heard(y, es, host, k).Some? && Run(y, es).proc.Idle?
    ensures Ended(Run(Step(s, Publish(c, plan, transaction)), es), s.disk, c, plan, host(k))
  {
    var y := Step(s, Publish(c, plan, transaction));
    RunHeading(y, es, s.disk, c, plan, transaction, host, k, host(k));
  }

  // ---- A recovery -----------------------------------------------------------------------------------------

  // The outcome of a recovery, by what is on disk when it begins and by the host's two answers.
  function RecoveryOutcome(d: Disk, c: Caller, root: string, plan: Answer, intended: Answer): Outcome {
    if !LetIn(d, c, root) then Refusal(d, c, root)
    else
      var j := d.journal.value;
      if plan.Yes? && !j.phase.Committed? && d.temp.Some? then
        Failed(if AllNext(d, j.plan) && intended.Throws? then HostError else ControlPathCollision)
      else Decided(d, j, plan, intended)
  }

  // Before it changes anything.
  predicate Deliberating(x: Sys, d: Disk, c: Caller, root: string, plan: Answer, intended: Answer) {
    && LetIn(d, c, root) && x.disk == d && x.proc.Recovering?
    && x.proc.saved == d.journal.value && x.proc.owner == d.lock
    && (!x.proc.decision.AskPlan? ==> plan.Yes?)
    && match x.proc.decision
       case AskIntended => d.lock.Some? && !d.journal.value.phase.Committed? && AllNext(d, d.journal.value.plan)
       case ConfirmIntended =>
         d.lock.Some? && !d.journal.value.phase.Committed? && AllNext(d, d.journal.value.plan) && intended.Yes?
       case DropJournal(committed) =>
         d.lock.None? && (committed <==> AllNext(d, d.journal.value.plan))
         && (committed || AllPrior(d, d.journal.value.plan))
       case _ => true
  }

  ghost predicate Concluding(x: Sys, d: Disk, c: Caller, root: string, plan: Answer, intended: Answer) {
    && LetIn(d, c, root) && SettleReady(x) && Locked(x) && x.proc.journal.plan == d.journal.value.plan
    && x.proc.verdict == RecoveryOutcome(d, c, root, plan, intended) && Complete(x.proc.verdict)
  }

  ghost predicate Hindered(x: Sys, d: Disk, c: Caller, root: string, plan: Answer, intended: Answer) {
    && LetIn(d, c, root) && Blocked(x) && x.proc.Settling? && SameControl(x.disk, d)
    && RecoveryOutcome(d, c, root, plan, intended) == Failed(ControlPathCollision)
  }

  predicate SameControl(d: Disk, e: Disk) { d.temp == e.temp && d.journal == e.journal && d.lock == e.lock }

  // A completed recovery has left its generation and no control state; a failed one has changed nothing, or, behind a
  // leftover temporary journal, none of the control files.
  predicate Closed(x: Sys, d: Disk, c: Caller, root: string, plan: Answer, intended: Answer) {
    var o := RecoveryOutcome(d, c, root, plan, intended);
    && x.proc == Idle(o)
    && (if Complete(o) then OutcomeOk(x.disk, o)
        else if LetIn(d, c, root) && plan.Yes? && d.temp.Some? then SameControl(x.disk, d)
        else x.disk == d)
  }

  ghost predicate Recovers(x: Sys, d: Disk, c: Caller, root: string, plan: Answer, intended: Answer) {
    || Deliberating(x, d, c, root, plan, intended) || Concluding(x, d, c, root, plan, intended)
    || Hindered(x, d, c, root, plan, intended) || Closed(x, d, c, root, plan, intended)
  }

  predicate FitsRecovery(e: Event, x: Sys, plan: Answer, intended: Answer) {
    || e.Go? || e.Sweep?
    || (e.Reply? && x.proc.Recovering? && x.proc.decision.AskPlan? && e.answer == plan)
    || (e.Reply? && x.proc.Recovering? && x.proc.decision.AskIntended? && e.answer == intended)
  }

  lemma DeliberatingReply(x: Sys, a: Answer, d: Disk, c: Caller, root: string, plan: Answer, intended: Answer)
    requires CrashOk(d) && Deliberating(x, d, c, root, plan, intended) && FitsRecovery(Reply(a), x, plan, intended)
    ensures Recovers(Step(x, Reply(a)), d, c, root, plan, intended)
  {
    assert Inv(x);
    StepKeeps(x, Reply(a));
  }

  lemma ResumeGo(x: Sys, d: Disk, c: Caller, root: string, plan: Answer, intended: Answer)
    requires CrashOk(d) && Deliberating(x, d, c, root, plan, intended) && x.proc.decision.Resume?
    ensures Recovers(Act(x), d, c, root, plan, intended)
  {
    assert Inv(x);
    StepKeeps(x, Go);
  }

  lemma OtherGo(x: Sys, d: Disk, c: Caller, root: string, plan: Answer, intended: Answer)
    requires CrashOk(d) && Deliberating(x, d, c, root, plan, intended) && !x.proc.decision.Resume?
    ensures Recovers(Act(x), d, c, root, plan, intended)
  {
    assert Inv(x);
    StepKeeps(x, Go);
  }

  lemma DecidingStep(x: Sys, e: Event, d: Disk, c: Caller, root: string, plan: Answer, intended: Answer)
    requires CrashOk(d) && Recovers(x, d, c, root, plan, intended) && FitsRecovery(e, x, plan, intended)
    ensures Recovers(Step(x, e), d, c, root, plan, intended)
  {
    if Deliberating(x, d, c, root, plan, intended) {
      if e.Reply? { DeliberatingReply(x, e.answer, d, c, root, plan, intended); }
      else if e.Sweep? { assert Step(x, e) == x; }
      else if x.proc.decision.Resume? { ResumeGo(x, d, c, root, plan, intended); }
      else { OtherGo(x, d, c, root, plan, intended); }
    } else if Concluding(x, d, c, root, plan, intended) {
      ConcludingStep(x, e, d, c, root, plan, intended);
    } else if Hindered(x, d, c, root, plan, intended) {
      HinderedStep(x, e, d, c, root, plan, intended);
    } else {
      assert Step(x, e) == x;
    }
  }

  lemma ConcludingStep(x: Sys, e: Event, d: Disk, c: Caller, root: string, plan: Answer, intended: Answer)
    requires Concluding(x, d, c, root, plan, intended) && FitsRecovery(e, x, plan, intended)
    ensures Recovers(Step(x, e), d, c, root, plan, intended)
  {
    SettlingStep(x, e);
  }

  lemma HinderedStep(x: Sys, e: Event, d: Disk, c: Caller, root: string, plan: Answer, intended: Answer)
    requires Hindered(x, d, c, root, plan, intended) && FitsRecovery(e, x, plan, intended)
    ensures Recovers(Step(x, e), d, c, root, plan, intended)
  {
    if e.Go? {
      StepKeeps(x, Go);
      BlockedSettling(x);
    } else {
      assert Step(x, e) == x;
    }
  }

  // Which questions are still to come: the k-th, and perhaps the one after it.
  predicate Due(x: Sys, host: nat -> Answer, k: nat, plan: Answer, intended: Answer) {
    x.proc.Recovering? ==>
      && (x.proc.decision.AskPlan? ==> host(k) == plan && host(k + 1) == intended)
      && (x.proc.decision.Resume? || x.proc.decision.AskIntended? ==> host(k) == intended)
  }

  lemma DueStep(x: Sys, e: Event, host: nat -> Answer, k: nat, plan: Answer, intended: Answer)
    requires Due(x, host, k, plan, intended) && (x.proc.Recovering? || x.proc.Settling? || x.proc.Idle?)
    requires e.Go? || e.Sweep? || (e.Reply? && Asking(x.proc) && e.answer == host(k))
    ensures Due(Step(x, e), host, if e.Reply? then k + 1 else k, plan, intended)
    ensures FitsRecovery(e, x, plan, intended)
  {
    if x.proc.Settling? { SettlesOn(x); }
  }

  lemma {:induction false} RunRecovers(x: Sys, es: seq<Event>, d: Disk, c: Caller, root: string,
                                       host: nat -> Answer, k: nat, plan: Answer, intended: Answer)
    requires CrashOk(d) && Recovers(x, d, c, root, plan, intended) && Due(x, host, k, plan, intended)
    requires Undisturbed(es) && Heard(x, es, host, k).Some?
    ensures Recovers(Run(x, es), d, c, root, plan, intended)
    decreases |es|
  {
    if es != [] {
      var e := es[0];
      assert e in es && forall f :: f in es[1..] ==> f in es;
      DueStep(x, e, host, k, plan, intended);
      DecidingStep(x, e, d, c, root, plan, intended);
      RunRecovers(Step(x, e), es[1..], d, c, root, host, if e.Reply? then k + 1 else k, plan, intended);
    }
  }

  // Every undisturbed run of a recovery call over a crash-safe disk with legible paths that has ended has this
  // outcome, whatever the order of its steps: let in or refused as LetIn says, and then as the host answers.
  lemma RecoverAlways(s: Sys, c: Caller, root: string, es: seq<Event>, host: nat -> Answer, k: nat)
    requires s.proc.Idle? && CrashOk(s.disk) && Undisturbed(es)
    requires s.disk.journal.Some? ==> Readable(s.disk.live, s.disk.journal.value.plan)
    requires var y := Step(s, Recover(c, root)); Heard(y, es, host, k).Some? && Run(y, es).proc.Idle?
    ensures Closed(Run(Step(s, Recover(c, root)), es), s.disk, c, root, host(k), host(k + 1))
  {
    RecoveryLetIn(s, c, root);
    RunRecovers(Step(s, Recover(c, root)), es, s.disk, c, root, host, k, host(k), host(k + 1));
  }
}
