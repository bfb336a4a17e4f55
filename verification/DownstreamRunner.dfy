/** Running a downstream profile: bounded capture, classification, profile status and run summary. */
module DownstreamRunner {
  import opened Wrappers
  import opened Paths
  import opened Texts
  import opened Encodings
  import opened DownstreamContract

  // ---- Bounded capture ----------------------------------------------------------------------------

  function Flatten(chunks: seq<seq<Byte>>): seq<Byte> {
    if chunks == [] then [] else Flatten(chunks[..|chunks| - 1]) + chunks[|chunks| - 1]
  }

  function Prefix(bytes: seq<Byte>, limit: nat): seq<Byte> {
    if |bytes| <= limit then bytes else bytes[..limit]
  }

  // No chunk, not even an empty one, arrives once the limit is reached, and the total stays within it.
  ghost predicate WithinLimit(chunks: seq<seq<Byte>>, limit: nat) {
    && |Flatten(chunks)| <= limit
    && forall i :: 0 <= i < |chunks| ==> |Flatten(chunks[..i])| < limit
  }

  class Capture {
    const limit: nat
    var chunks: seq<seq<Byte>>
    var capturedBytes: nat
    var complete: bool
    ghost var seen: seq<seq<Byte>>

    ghost predicate Valid()
      reads this
    {
      && Flatten(chunks) == Prefix(Flatten(seen), limit)
      && capturedBytes == |Flatten(chunks)|
      && (complete <==> WithinLimit(seen, limit))
    }

    constructor (limit: nat)
      ensures Valid() && seen == [] && this.limit == limit
    {
      this.limit := limit;
      chunks, capturedBytes, complete, seen := [], 0, true, [];
    }

    // The data handler of either output stream.
    method Consume(chunk: seq<Byte>)
      requires Valid()
      modifies this
      ensures Valid() && seen == old(seen) + [chunk]
    {
      FlattenSnoc(seen, chunk);
      WithinSnoc(seen, chunk, limit);
      PrefixSnoc(Flatten(seen), chunk, limit);
      seen := seen + [chunk];
      if capturedBytes >= limit {
        complete := false;
        return;
      }
      var remaining := limit - capturedBytes;
      var retained := if |chunk| <= remaining then chunk else chunk[..remaining];
      FlattenSnoc(chunks, retained);
      chunks := chunks + [retained];
      capturedBytes := capturedBytes + |retained|;
      if |retained| != |chunk| { complete := false; }
    }

    method Output() returns (bytes: seq<Byte>)
      requires Valid()
      ensures bytes == Prefix(Flatten(seen), limit)
    {
      bytes := Flatten(chunks);
    }
  }

  lemma FlattenSnoc(chunks: seq<seq<Byte>>, chunk: seq<Byte>)
    ensures Flatten(chunks + [chunk]) == Flatten(chunks) + chunk
  {
    assert (chunks + [chunk])[..|chunks|] == chunks;
  }

  lemma PrefixSnoc(all: seq<Byte>, chunk: seq<Byte>, limit: nat)
    ensures Prefix(all + chunk, limit) ==
            if |all| >= limit then Prefix(all, limit)
            else all + if |chunk| <= limit - |all| then chunk else chunk[..limit - |all|]
  {
    if |all| >= limit { assert (all + chunk)[..limit] == all[..limit]; }
  }

  lemma WithinSnoc(chunks: seq<seq<Byte>>, chunk: seq<Byte>, limit: nat)
    ensures WithinLimit(chunks + [chunk], limit)
            <==> && WithinLimit(chunks, limit) && |Flatten(chunks)| < limit
                 && |Flatten(chunks)| + |chunk| <= limit
  {
    var all := chunks + [chunk];
    FlattenSnoc(chunks, chunk);
    forall i | 0 <= i <= |chunks| ensures all[..i] == chunks[..i] {}
    assert chunks[..|chunks|] == chunks;
  }

  lemma {:induction false} FlattenGrows(chunks: seq<seq<Byte>>, i: nat)
    requires i <= |chunks|
    ensures |Flatten(chunks[..i])| <= |Flatten(chunks)|
    decreases |chunks|
  {
    if i < |chunks| {
      var n := |chunks| - 1;
      FlattenGrows(chunks[..n], i);
      assert chunks[..n][..i] == chunks[..i];
    } else {
      assert chunks[..i] == chunks;
    }
  }

  // For non-empty chunks, capture is complete exactly when the whole output fits.
  lemma CompleteIffFits(chunks: seq<seq<Byte>>, limit: nat)
    requires forall i :: 0 <= i < |chunks| ==> chunks[i] != []
    ensures WithinLimit(chunks, limit) <==> |Flatten(chunks)| <= limit
  {
    forall i | 0 <= i < |chunks| ensures |Flatten(chunks[..i])| < |Flatten(chunks)| {
      FlattenGrows(chunks, i + 1);
      assert chunks[..i + 1] == chunks[..i] + [chunks[i]];
      FlattenSnoc(chunks[..i], chunks[i]);
    }
  }

  // An empty chunk after a full buffer marks capture incomplete although nothing was lost.
  lemma EmptyChunkLosesCompleteness(bytes: seq<Byte>)
    requires bytes != []
    ensures |Flatten([bytes, []])| <= |bytes| && !WithinLimit([bytes, []], |bytes|)
  {
    FlattenSnoc([], bytes);
    FlattenSnoc([bytes], []);
    assert [] + [bytes] == [bytes] && [bytes] + [[]] == [bytes, []];
    assert [bytes, []][..1] == [bytes];
  }

  // ---- Classification --------------------------------------------------------------------------------

  function Filter(lines: seq<string>): seq<string> {
    if lines == [] then []
    else (if IsHeadline(lines[0]) then [lines[0]] else []) + Filter(lines[1..])
  }

  function Headlines(output: string): seq<string> { Filter(Split(UnixLines(output), '\n')) }

  datatype Status = Passed | Failed | ExpectedFailed | UnexpectedPass | Skipped

  function Classify(c: Command, exitCode: Option<int>, output: string, captureComplete: bool): Status {
    if c.expectedFailure.None? then if exitCode == Some(0) then Passed else Failed
    else if exitCode == Some(0) then UnexpectedPass
    else if captureComplete && exitCode == Some(c.expectedFailure.value.exitCode)
            && Headlines(output) == c.expectedFailure.value.diagnostics then ExpectedFailed
    else Failed
  }

  // ---- One profile ------------------------------------------------------------------------------------

  // What the child process did: its exit code and its output chunks, in event order.
  datatype Process = Exited(exitCode: Option<int>, chunks: seq<seq<Byte>>) | SpawnError

  datatype Result = Result(id: string, status: Status, exitCode: Option<int>, observation: Option<string>)

  datatype ProfileStatus = ProfilePassed | KnownFailure | ProfileFailed | BaselineDrift

  datatype Runner = Runner(limit: nat, lenient: Leniency)

  ghost function Verdict(r: Runner, c: Command, p: Process): Status
    requires p.Exited?
  {
    Classify(c, p.exitCode, TextOf(r.lenient, Prefix(Flatten(p.chunks), r.limit)), WithinLimit(p.chunks, r.limit))
  }

  ghost predicate HardFailure(r: Runner, cs: seq<Command>, world: seq<Process>, n: nat)
    requires n <= |cs| == |world|
  {
    exists k :: 0 <= k < n && world[k].Exited? && Verdict(r, cs[k], world[k]) == Failed
  }

  // Whether the loop reaches command n: every earlier command could be spawned and none of them failed hard.
  ghost predicate Runs(r: Runner, cs: seq<Command>, world: seq<Process>, n: nat)
    requires n <= |cs| == |world|
  {
    forall k :: 0 <= k < n ==> world[k].Exited? && Verdict(r, cs[k], world[k]) != Failed
  }

  function Observed(c: Command): Option<string> {
    if c.expectedFailure.Some? then Some(c.expectedFailure.value.observation) else None
  }

  // The result of command k: skipped after the first hard failure, and otherwise its verdict.
  ghost predicate ResultOk(r: Runner, cs: seq<Command>, world: seq<Process>, k: nat, x: Result)
    requires k < |cs| == |world|
  {
    && x.id == cs[k].id
    && if HardFailure(r, cs, world, k) then x.status == Skipped && x.exitCode == None
       else
         && world[k].Exited? && x.status == Verdict(r, cs[k], world[k])
         && x.exitCode == world[k].exitCode && x.observation == Observed(cs[k])
  }

  function StatusOf(hardFailure: bool, baselineDrift: bool, matchedKnownFailure: bool): ProfileStatus {
    if hardFailure then ProfileFailed
    else if baselineDrift then BaselineDrift
    else if matchedKnownFailure then KnownFailure
    else ProfilePassed
  }

  predicate AnyHas(results: seq<Result>, status: Status) {
    exists k :: 0 <= k < |results| && results[k].status == status
  }

  method RunCommand(r: Runner, p: Process) returns (output: string, complete: bool)
    requires p.Exited?
    ensures output == TextOf(r.lenient, Prefix(Flatten(p.chunks), r.limit))
    ensures complete <==> WithinLimit(p.chunks, r.limit)
  {
    var capture := new Capture(r.limit);
    for i := 0 to |p.chunks|
      invariant capture.Valid() && capture.limit == r.limit && capture.seen == p.chunks[..i]
      invariant fresh(capture)
    {
      capture.Consume(p.chunks[i]);
      assert p.chunks[..i + 1] == p.chunks[..i] + [p.chunks[i]];
    }
    assert p.chunks[..|p.chunks|] == p.chunks;
    var bytes := capture.Output();
    return TextOf(r.lenient, bytes), capture.complete;
  }

  method RunOne(r: Runner, c: Command, p: Process) returns (x: Result)
    requires p.Exited?
    ensures x == Result(c.id, Verdict(r, c, p), p.exitCode, Observed(c))
  {
    var output, complete := RunCommand(r, p);
    x := Result(c.id, Classify(c, p.exitCode, output, complete), p.exitCode, Observed(c));
  }

  lemma HardFailureSnoc(r: Runner, cs: seq<Command>, world: seq<Process>, k: nat)
    requires k < |cs| == |world|
    ensures HardFailure(r, cs, world, k + 1)
            <==> HardFailure(r, cs, world, k) || (world[k].Exited? && Verdict(r, cs[k], world[k]) == Failed)
  {
  }

  ghost predicate ResultsOk(r: Runner, cs: seq<Command>, world: seq<Process>, results: seq<Result>) {
    && |results| <= |cs| == |world|
    && forall k :: 0 <= k < |results| ==> ResultOk(r, cs, world, k, results[k])
  }

  ghost predicate Tallied(results: seq<Result>, hardFailure: bool, baselineDrift: bool, matchedKnownFailure: bool) {
    && (hardFailure <==> AnyHas(results, Failed))
    && (baselineDrift <==> AnyHas(results, UnexpectedPass))
    && (matchedKnownFailure <==> AnyHas(results, ExpectedFailed))
  }

  // The state of the loop before command k.
  ghost predicate Running(r: Runner, cs: seq<Command>, world: seq<Process>, results: seq<Result>,
                          hardFailure: bool, k: nat)
    requires k <= |cs| == |world|
  {
    && |results| == k && ResultsOk(r, cs, world, results)
    && (hardFailure <==> HardFailure(r, cs, world, k))
    && (!hardFailure ==> Runs(r, cs, world, k))
    && (forall i :: 0 <= i < k && Runs(r, cs, world, i) ==> world[i].Exited?)
  }

  lemma RunsStep(r: Runner, cs: seq<Command>, world: seq<Process>, results: seq<Result>, hardFailure: bool, k: nat, x: Result)
    requires k < |cs| == |world| && Running(r, cs, world, results, hardFailure, k)
    requires hardFailure ==> x == Result(cs[k].id, Skipped, None, None)
    requires !hardFailure ==> world[k].Exited?
    requires !hardFailure ==> x == Result(cs[k].id, Verdict(r, cs[k], world[k]), world[k].exitCode, Observed(cs[k]))
    ensures Running(r, cs, world, results + [x], hardFailure || x.status == Failed, k + 1)
  {
    HardFailureSnoc(r, cs, world, k);
    assert ResultOk(r, cs, world, k, x);
    if hardFailure {
      var j :| 0 <= j < k && world[j].Exited? && Verdict(r, cs[j], world[j]) == Failed;
      assert !Runs(r, cs, world, k);
    }
    forall i | 0 <= i < k + 1 && Runs(r, cs, world, i) ensures world[i].Exited? {}
  }

  // One result per command, in order. None when a process could not be spawned, which ends the whole run.
  method RunProfile(r: Runner, cs: seq<Command>, world: seq<Process>)
    returns (results: Option<seq<Result>>, status: ProfileStatus)
    requires |world| == |cs|
    ensures results.None? <==> exists k :: 0 <= k < |cs| && Runs(r, cs, world, k) && world[k].SpawnError?
    ensures results.Some? ==>
              && |results.value| == |cs| && ResultsOk(r, cs, world, results.value)
              && status == StatusOf(AnyHas(results.value, Failed), AnyHas(results.value, UnexpectedPass),
                                    AnyHas(results.value, ExpectedFailed))
  {
    var hardFailure, baselineDrift, matchedKnownFailure := false, false, false;
    var done: seq<Result> := [];
    for k := 0 to |cs|
      invariant Running(r, cs, world, done, hardFailure, k)
      invariant Tallied(done, hardFailure, baselineDrift, matchedKnownFailure)
    {
      var x := Result(cs[k].id, Skipped, None, None);
      ghost var before, hard := done, hardFailure;
      if !hardFailure {
        if world[k].SpawnError? { return None, ProfileFailed; }
        x := RunOne(r, cs[k], world[k]);
        if x.status == Failed { hardFailure := true; }
        if x.status == UnexpectedPass { baselineDrift := true; }
        if x.status == ExpectedFailed { matchedKnownFailure := true; }
      }
      done := done + [x];
      RunsStep(r, cs, world, before, hard, k, x);
      AnySnoc(before, x);
    }
    return Some(done), StatusOf(hardFailure, baselineDrift, matchedKnownFailure);
  }

  lemma AnySnoc(results: seq<Result>, x: Result)
    ensures forall s :: AnyHas(results + [x], s) <==> AnyHas(results, s) || x.status == s
  {
    var all := results + [x];
    assert all[|results|] == x;
    forall s | AnyHas(results, s) ensures AnyHas(all, s) {
      var k :| 0 <= k < |results| && results[k].status == s;
      assert all[k].status == s;
    }
  }

  // ---- What a profile's results say ------------------------------------------------------------------

  ghost predicate Completed(r: Runner, cs: seq<Command>, world: seq<Process>, results: seq<Result>) {
    |results| == |cs| && ResultsOk(r, cs, world, results)
  }

  // Commands are skipped exactly after the first failed one, and at most one command fails.
  lemma SkippedAfterFailure(r: Runner, cs: seq<Command>, world: seq<Process>, results: seq<Result>, k: nat)
    requires Completed(r, cs, world, results) && k < |results|
    ensures results[k].status == Skipped <==> exists j :: 0 <= j < k && results[j].status == Failed
    ensures forall j :: 0 <= j < |results| && results[j].status == results[k].status == Failed ==> j == k
  {
    if HardFailure(r, cs, world, k) {
      var j := FirstFailure(r, cs, world, k);
      assert results[j].status == Failed;
    } else {
      forall j | 0 <= j < k ensures results[j].status != Failed {
        if !HardFailure(r, cs, world, j) { assert ResultOk(r, cs, world, j, results[j]); }
      }
    }
    forall j | 0 <= j < |results| && results[j].status == results[k].status == Failed ensures j == k {
      assert ResultOk(r, cs, world, j, results[j]) && ResultOk(r, cs, world, k, results[k]);
      assert !HardFailure(r, cs, world, j) && !HardFailure(r, cs, world, k);
    }
  }

  lemma {:induction false} FirstFailure(r: Runner, cs: seq<Command>, world: seq<Process>, k: nat) returns (j: nat)
    requires k <= |cs| == |world| && HardFailure(r, cs, world, k)
    ensures j < k && world[j].Exited? && Verdict(r, cs[j], world[j]) == Failed && !HardFailure(r, cs, world, j)
    decreases k
  {
    j :| j < k && world[j].Exited? && Verdict(r, cs[j], world[j]) == Failed;
    if HardFailure(r, cs, world, j) { j := FirstFailure(r, cs, world, j); }
  }

  // A result of expected-failure vouches for the entire output: everything was captured, the exit code is
  // the pinned one, and the headlines of all bytes are the pinned list, in order.
  lemma ExpectedFailureIsExact(r: Runner, cs: seq<Command>, world: seq<Process>, results: seq<Result>, k: nat)
    requires Completed(r, cs, world, results) && k < |results| && results[k].status == ExpectedFailed
    ensures world[k].Exited? && cs[k].expectedFailure.Some?
    ensures var e, all := cs[k].expectedFailure.value, Flatten(world[k].chunks);
            && |all| <= r.limit && world[k].exitCode == Some(e.exitCode)
            && Headlines(TextOf(r.lenient, all)) == e.diagnostics
            && results[k].observation == Some(e.observation)
  {
    assert ResultOk(r, cs, world, k, results[k]);
  }

  // Conversely, a command that is reached, whose non-empty chunks fit the buffer, and whose exit code and
  // headlines are the pinned ones is never reported as a failure.
  lemma PinnedFailureIsAccepted(r: Runner, cs: seq<Command>, world: seq<Process>, results: seq<Result>, k: nat)
    requires Completed(r, cs, world, results) && k < |results| && !HardFailure(r, cs, world, k)
    requires cs[k].expectedFailure.Some? && cs[k].expectedFailure.value.exitCode != 0
    requires world[k].Exited? && world[k].exitCode == Some(cs[k].expectedFailure.value.exitCode)
    requires forall i :: 0 <= i < |world[k].chunks| ==> world[k].chunks[i] != []
    requires |Flatten(world[k].chunks)| <= r.limit
    requires Headlines(TextOf(r.lenient, Flatten(world[k].chunks))) == cs[k].expectedFailure.value.diagnostics
    ensures results[k].status == ExpectedFailed
  {
    CompleteIffFits(world[k].chunks, r.limit);
    assert ResultOk(r, cs, world, k, results[k]);
  }

  // The status of every command that is reached, both ways: it passes, unexpectedly passes or fails as pinned
  // exactly when its exit code and the headlines of its whole output say so, and fails otherwise.
  lemma ReachedOutcome(r: Runner, cs: seq<Command>, world: seq<Process>, results: seq<Result>, k: nat)
    requires Completed(r, cs, world, results) && k < |results| && !HardFailure(r, cs, world, k)
    requires world[k].Exited? ==> forall i :: 0 <= i < |world[k].chunks| ==> world[k].chunks[i] != []
    ensures world[k].Exited?
    ensures var pin, code, all := cs[k].expectedFailure, world[k].exitCode, Flatten(world[k].chunks);
            && (results[k].status == Passed <==> pin.None? && code == Some(0))
            && (results[k].status == UnexpectedPass <==> pin.Some? && code == Some(0))
            && (results[k].status == ExpectedFailed <==>
                  && pin.Some? && code != Some(0) && code == Some(pin.value.exitCode)
                  && |all| <= r.limit && Headlines(TextOf(r.lenient, all)) == pin.value.diagnostics)
            && results[k].status != Skipped
  {
    assert ResultOk(r, cs, world, k, results[k]);
    CompleteIffFits(world[k].chunks, r.limit);
  }

  // ---- The whole run ----------------------------------------------------------------------------------

  datatype RunObservation = PassedIntegration | PassedWithKnownFailure | Drift | FailureUnclassified

  function Summarize(statuses: seq<ProfileStatus>): (bool, RunObservation) {
    if ProfileFailed in statuses then (true, FailureUnclassified)
    else if BaselineDrift in statuses then (true, Drift)
    else if KnownFailure in statuses then (false, PassedWithKnownFailure)
    else (false, PassedIntegration)
  }

  function StatusesOf(runs: seq<seq<Result>>): (statuses: seq<ProfileStatus>)
    ensures |statuses| == |runs|
    ensures forall i :: 0 <= i < |runs| ==> statuses[i] == ProfileStatusOf(runs[i])
  {
    seq(|runs|, i requires 0 <= i < |runs| => ProfileStatusOf(runs[i]))
  }

  function ProfileStatusOf(results: seq<Result>): ProfileStatus {
    StatusOf(AnyHas(results, Failed), AnyHas(results, UnexpectedPass), AnyHas(results, ExpectedFailed))
  }

  // The loop over the selected profiles: their results in order, and the summary of their statuses.
  method RunProfiles(r: Runner, profiles: seq<Profile>, worlds: seq<seq<Process>>)
    returns (runs: Option<seq<seq<Result>>>, failed: bool, observation: RunObservation)
    requires |worlds| == |profiles| && forall i :: 0 <= i < |profiles| ==> |worlds[i]| == |profiles[i].commands|
    ensures runs.Some? ==>
              && |runs.value| == |profiles|
              && (forall i :: 0 <= i < |profiles| ==> Completed(r, profiles[i].commands, worlds[i], runs.value[i]))
              && (failed, observation) == Summarize(StatusesOf(runs.value))
    ensures runs.None? ==> failed
  {
    var done: seq<seq<Result>>, statuses: seq<ProfileStatus> := [], [];
    for i := 0 to |profiles|
      invariant |done| == |statuses| == i
      invariant forall j :: 0 <= j < i ==> Completed(r, profiles[j].commands, worlds[j], done[j])
      invariant forall j :: 0 <= j < i ==> statuses[j] == ProfileStatusOf(done[j])
    {
      var results, status := RunProfile(r, profiles[i].commands, worlds[i]);
      if results.None? { return None, true, FailureUnclassified; }
      done, statuses := done + [results.value], statuses + [status];
    }
    assert statuses == StatusesOf(done);
    var summary := Summarize(statuses);
    return Some(done), summary.0, summary.1;
  }

  // The run fails if and only if some command of some profile failed or unexpectedly passed, and its
  // observation names the most severe outcome.
  lemma RunFailsIff(runs: seq<seq<Result>>)
    ensures var s := Summarize(StatusesOf(runs));
            && (s.0 <==> exists i :: 0 <= i < |runs| && (AnyHas(runs[i], Failed) || AnyHas(runs[i], UnexpectedPass)))
            && (s.1 == FailureUnclassified <==> exists i :: 0 <= i < |runs| && AnyHas(runs[i], Failed))
            && (s.1 == Drift <==>
                  && (forall i :: 0 <= i < |runs| ==> !AnyHas(runs[i], Failed))
                  && exists i :: 0 <= i < |runs| && AnyHas(runs[i], UnexpectedPass))
            && (s.1 == PassedWithKnownFailure <==>
                  && (forall i :: 0 <= i < |runs| ==> !AnyHas(runs[i], Failed) && !AnyHas(runs[i], UnexpectedPass))
                  && exists i :: 0 <= i < |runs| && AnyHas(runs[i], ExpectedFailed))
            && (s.1 == PassedIntegration <==>
                  forall i, k :: 0 <= i < |runs| && 0 <= k < |runs[i]| ==>
                    runs[i][k].status == Passed || runs[i][k].status == Skipped)
  {
    var statuses := StatusesOf(runs);
    forall i | 0 <= i < |runs| ensures statuses[i] in statuses {}
    forall i | 0 <= i < |runs|
      ensures ProfileStatusOf(runs[i]) == ProfilePassed <==>
              forall k :: 0 <= k < |runs[i]| ==> runs[i][k].status == Passed || runs[i][k].status == Skipped {
      PassedMeans(runs[i]);
    }
  }

  lemma PassedMeans(results: seq<Result>)
    ensures ProfileStatusOf(results) == ProfilePassed <==>
            forall k :: 0 <= k < |results| ==> results[k].status == Passed || results[k].status == Skipped
  {
    if k :| 0 <= k < |results| && results[k].status != Passed && results[k].status != Skipped {
      assert AnyHas(results, results[k].status);
    }
  }

  // The summary does not depend on the order of the profiles.
  lemma SummaryIgnoresOrder(a: seq<ProfileStatus>, b: seq<ProfileStatus>)
    requires multiset(a) == multiset(b)
    ensures Summarize(a) == Summarize(b)
  {
    forall s: ProfileStatus ensures s in a <==> s in b {
      assert s in multiset(a) <==> s in multiset(b);
    }
  }

  // An accepted profile with a passing baseline can only end passed or failed; it passes exactly when
  // every command exits with zero.
  lemma PassingBaselineOutcome(lower: string -> string, p: Profile, r: Runner, world: seq<Process>, results: seq<Result>)
    requires ProfileOk(lower, p) && p.baseline == Passing && Completed(r, p.commands, world, results)
    ensures ProfileStatusOf(results) == ProfilePassed || ProfileStatusOf(results) == ProfileFailed
    ensures ProfileStatusOf(results) == ProfilePassed <==>
            forall k :: 0 <= k < |results| ==> results[k].exitCode == Some(0)
  {
    PassingMeansUnpinned(lower, p);
    forall k | 0 <= k < |results|
      ensures results[k].status in {Passed, Failed, Skipped}
      ensures results[k].status == Passed <==> results[k].exitCode == Some(0) {
      assert p.commands[k] in p.commands && ResultOk(r, p.commands, world, k, results[k]);
    }
    PassedMeans(results);
    forall k | 0 <= k < |results| ensures results[k].status == Skipped ==> AnyHas(results, Failed) {
      SkippedAfterFailure(r, p.commands, world, results, k);
    }
  }
}
