/** The serialized dirty loop: bursts of requests collapse into runs that never overlap. */
module DirtyLoop {
  import opened Wrappers

  datatype Phase = Idle | Debouncing | Running | Closed

  // A run whose promise exists; begun once its microtask has called the host.
  datatype Active<Cause> = Active(cause: Cause, begun: bool)

  datatype Start<Cause> = Start(group: seq<Cause>, cause: Cause, at: nat, lastRequestAt: nat)

  datatype Mark<Cause> = Began(cause: Cause) | Ended(failed: bool)

  // What has happened: accepted requests, those still waiting, started runs, requests dropped by
  // close, host calls in order, and resolved waiters.
  datatype Past<Cause> = Past(
    accepted: seq<Cause>, waiting: seq<Cause>, starts: seq<Start<Cause>>, dropped: seq<Cause>,
    log: seq<Mark<Cause>>, resolved: seq<nat>)

  datatype Loop<Cause> = Loop(
    phase: Phase, pending: Option<Cause>, lastRequestAt: nat, timer: Option<nat>,
    active: Option<Active<Cause>>, waiters: seq<nat>, now: nat, past: Past<Cause>)

  datatype Event<Cause> =
    | Request(cause: Cause)
    | WaitForIdle(waiter: nat)
    | Close
    | Elapse(ms: nat)         // time passes
    | Fire                    // the timer callback runs, not before it is due
    | Begin                   // the microtask calls the host
    | Finish(failed: bool)    // the host's promise settles

  // ---- Merging ------------------------------------------------------------------------------

  function Fold<Cause>(merge: (Cause, Cause) -> Cause, causes: seq<Cause>): Cause
    requires causes != []
  {
    if |causes| == 1 then causes[0] else merge(Fold(merge, causes[..|causes| - 1]), causes[|causes| - 1])
  }

  ghost predicate Associative<Cause(!new)>(merge: (Cause, Cause) -> Cause) {
    forall a, b, c :: merge(merge(a, b), c) == merge(a, merge(b, c))
  }

  function Flatten<Cause>(starts: seq<Start<Cause>>): seq<Cause> {
    if starts == [] then [] else Flatten(starts[..|starts| - 1]) + starts[|starts| - 1].group
  }

  function Causes<Cause>(starts: seq<Start<Cause>>): (r: seq<Cause>)
    ensures |r| == |starts| && forall k :: 0 <= k < |r| ==> r[k] == starts[k].cause
  {
    seq(|starts|, k requires 0 <= k < |starts| => starts[k].cause)
  }

  // The causes handed to the host, in order.
  function Delivered<Cause>(log: seq<Mark<Cause>>): seq<Cause> {
    if log == [] then []
    else Delivered(log[..|log| - 1]) + (if log[|log| - 1].Began? then [log[|log| - 1].cause] else [])
  }

  // ---- One event ----------------------------------------------------------------------------

  function Schedule<Cause>(s: Loop<Cause>, delay: nat): Loop<Cause> {
    s.(phase := Debouncing, timer := Some(s.now + delay))
  }

  function ResolveIdle<Cause>(s: Loop<Cause>): Loop<Cause> {
    s.(waiters := [], past := s.past.(resolved := s.past.resolved + s.waiters))
  }

  function OnRequest<Cause>(merge: (Cause, Cause) -> Cause, debounceMs: nat, s: Loop<Cause>, c: Cause): Loop<Cause> {
    if s.phase.Closed? then s
    else
      var t := s.(pending := Some(if s.pending.Some? then merge(s.pending.value, c) else c), lastRequestAt := s.now,
                  past := s.past.(accepted := s.past.accepted + [c], waiting := s.past.waiting + [c]));
      if s.phase.Running? then t else Schedule(t, debounceMs)
  }

  function OnWaitForIdle<Cause>(s: Loop<Cause>, waiter: nat): Loop<Cause> {
    if s.phase.Closed? || (s.phase.Idle? && s.pending.None? && s.timer.None? && s.active.None?) then
      s.(past := s.past.(resolved := s.past.resolved + [waiter]))
    else s.(waiters := s.waiters + [waiter])
  }

  // close() up to the point where it would await the active run.
  function OnClose<Cause>(s: Loop<Cause>): Loop<Cause> {
    var t := if s.phase.Closed? then s
             else s.(phase := Closed, timer := None, pending := None,
                     past := s.past.(waiting := [], dropped := s.past.dropped + s.past.waiting));
    if t.active.Some? then t else ResolveIdle(t)
  }

  function OnStart<Cause>(s: Loop<Cause>): Loop<Cause> {
    if s.phase.Closed? || s.active.Some? then s
    else if s.pending.None? then ResolveIdle(s.(phase := Idle))
    else
      s.(pending := None, phase := Running, active := Some(Active(s.pending.value, false)),
         past := s.past.(waiting := [],
                         starts := s.past.starts + [Start(s.past.waiting, s.pending.value, s.now, s.lastRequestAt)]))
  }

  function OnFire<Cause>(s: Loop<Cause>): Loop<Cause> {
    if s.timer.Some? && s.timer.value <= s.now then OnStart(s.(timer := None)) else s
  }

  function OnBegin<Cause>(s: Loop<Cause>): Loop<Cause> {
    if s.active.Some? && !s.active.value.begun then
      s.(active := Some(s.active.value.(begun := true)),
         past := s.past.(log := s.past.log + [Began(s.active.value.cause)]))
    else s
  }

  function Max(a: int, b: int): int { if a < b then b else a }

  function OnFinish<Cause>(debounceMs: nat, s: Loop<Cause>, failed: bool): Loop<Cause> {
    if s.active.None? || !s.active.value.begun then s
    else
      var t := s.(active := None, past := s.past.(log := s.past.log + [Ended(failed)]));
      if t.phase.Closed? then ResolveIdle(t)
      else if t.pending.None? then ResolveIdle(t.(phase := Idle))
      else Schedule(t, Max(0, debounceMs - Max(0, t.now - t.lastRequestAt)))
  }

  function Step<Cause>(merge: (Cause, Cause) -> Cause, debounceMs: nat, s: Loop<Cause>, e: Event<Cause>): Loop<Cause> {
    match e
    case Request(c) => OnRequest(merge, debounceMs, s, c)
    case WaitForIdle(waiter) => OnWaitForIdle(s, waiter)
    case Close => OnClose(s)
    case Elapse(ms) => s.(now := s.now + ms)
    case Fire => OnFire(s)
    case Begin => OnBegin(s)
    case Finish(failed) => OnFinish(debounceMs, s, failed)
  }

  function Run<Cause>(merge: (Cause, Cause) -> Cause, debounceMs: nat, s: Loop<Cause>, es: seq<Event<Cause>>): Loop<Cause>
    decreases |es|
  {
    if es == [] then s else Run(merge, debounceMs, Step(merge, debounceMs, s, es[0]), es[1..])
  }

  function Initial<Cause>(now: nat): Loop<Cause> {
    Loop(Idle, None, 0, None, None, [], now, Past([], [], [], [], [], []))
  }

  // ---- The invariant ------------------------------------------------------------------------

  // Host calls alternate: run k begins only after run k - 1 has ended, with the k-th started cause.
  ghost predicate Alternates<Cause>(s: Loop<Cause>) {
    var n, log := |s.past.starts|, s.past.log;
    && |log| == 2 * n - (if s.active.None? then 0 else if s.active.value.begun then 1 else 2)
    && (forall k :: 0 <= k < |log| ==>
          if k % 2 == 0 then log[k] == Began(s.past.starts[k / 2].cause) else log[k].Ended?)
    && (s.active.Some? ==> n > 0 && s.active.value.cause == s.past.starts[n - 1].cause)
  }

  ghost predicate Control<Cause>(s: Loop<Cause>) {
    && (s.timer.Some? <==> s.phase.Debouncing?)
    && (s.phase.Running? ==> s.active.Some?)
    && (s.active.Some? ==> s.phase.Running? || s.phase.Closed?)
    && (s.phase.Debouncing? ==> s.pending.Some?)
    && (s.phase.Idle? || s.phase.Closed? ==> s.pending.None?)
    && (s.waiters != [] ==> s.timer.Some? || s.active.Some?)
  }

  ghost predicate Conserved<Cause>(merge: (Cause, Cause) -> Cause, s: Loop<Cause>) {
    && s.past.accepted == Flatten(s.past.starts) + s.past.waiting + s.past.dropped
    && (s.past.dropped != [] ==> s.phase.Closed?)
    && s.pending == (if s.past.waiting == [] then None else Some(Fold(merge, s.past.waiting)))
  }

  ghost predicate StartOk<Cause>(merge: (Cause, Cause) -> Cause, debounceMs: nat, r: Start<Cause>) {
    r.group != [] && r.cause == Fold(merge, r.group) && r.lastRequestAt + debounceMs <= r.at
  }

  ghost predicate Timely<Cause>(merge: (Cause, Cause) -> Cause, debounceMs: nat, s: Loop<Cause>) {
    && s.lastRequestAt <= s.now
    && (s.timer.Some? ==>
          && s.lastRequestAt + debounceMs <= s.timer.value
          && (s.timer.value == s.lastRequestAt + debounceMs || s.timer.value <= s.now))
    && forall k :: 0 <= k < |s.past.starts| ==> StartOk(merge, debounceMs, s.past.starts[k])
  }

  ghost predicate Inv<Cause>(merge: (Cause, Cause) -> Cause, debounceMs: nat, s: Loop<Cause>) {
    Control(s) && Conserved(merge, s) && Alternates(s) && Timely(merge, debounceMs, s)
  }

  // History is only ever appended to, and a run starts only by taking everything accepted so far.
  ghost predicate Extends<Cause>(s: Loop<Cause>, t: Loop<Cause>) {
    && s.past.accepted <= t.past.accepted && s.past.starts <= t.past.starts
    && s.past.log <= t.past.log && s.past.resolved <= t.past.resolved && s.past.dropped <= t.past.dropped
  }

  lemma FlattenSnoc<Cause>(starts: seq<Start<Cause>>, r: Start<Cause>)
    ensures Flatten(starts + [r]) == Flatten(starts) + r.group
  {
    assert (starts + [r])[..|starts|] == starts;
  }

  lemma RequestKeeps<Cause>(merge: (Cause, Cause) -> Cause, debounceMs: nat, s: Loop<Cause>, c: Cause)
    requires Inv(merge, debounceMs, s)
    ensures Inv(merge, debounceMs, OnRequest(merge, debounceMs, s, c))
    ensures Extends(s, OnRequest(merge, debounceMs, s, c))
  {
    var w := s.past.waiting;
    assert (w + [c])[..|w|] == w;
    if !s.phase.Closed? {
      assert s.past.accepted + [c] == Flatten(s.past.starts) + (w + [c]) + s.past.dropped;
    }
  }

  lemma FireKeeps<Cause>(merge: (Cause, Cause) -> Cause, debounceMs: nat, s: Loop<Cause>)
    requires Inv(merge, debounceMs, s)
    ensures Inv(merge, debounceMs, OnFire(s)) && Extends(s, OnFire(s))
  {
    if s.timer.Some? && s.timer.value <= s.now {
      FlattenSnoc(s.past.starts, Start(s.past.waiting, s.pending.value, s.now, s.lastRequestAt));
    }
  }

  lemma WaitKeeps<Cause>(merge: (Cause, Cause) -> Cause, debounceMs: nat, s: Loop<Cause>, waiter: nat)
    requires Inv(merge, debounceMs, s)
    ensures Inv(merge, debounceMs, OnWaitForIdle(s, waiter)) && Extends(s, OnWaitForIdle(s, waiter))
  {
  }

  lemma CloseKeeps<Cause>(merge: (Cause, Cause) -> Cause, debounceMs: nat, s: Loop<Cause>)
    requires Inv(merge, debounceMs, s)
    ensures Inv(merge, debounceMs, OnClose(s)) && Extends(s, OnClose(s))
  {
    if !s.phase.Closed? {
      assert Flatten(s.past.starts) + s.past.waiting + s.past.dropped
          == Flatten(s.past.starts) + [] + (s.past.dropped + s.past.waiting);
    }
  }

  lemma BeginKeeps<Cause>(merge: (Cause, Cause) -> Cause, debounceMs: nat, s: Loop<Cause>)
    requires Inv(merge, debounceMs, s)
    ensures Inv(merge, debounceMs, OnBegin(s)) && Extends(s, OnBegin(s))
  {
  }

  lemma FinishKeeps<Cause>(merge: (Cause, Cause) -> Cause, debounceMs: nat, s: Loop<Cause>, failed: bool)
    requires Inv(merge, debounceMs, s)
    ensures Inv(merge, debounceMs, OnFinish(debounceMs, s, failed)) && Extends(s, OnFinish(debounceMs, s, failed))
  {
  }

  lemma StepKeeps<Cause>(merge: (Cause, Cause) -> Cause, debounceMs: nat, s: Loop<Cause>, e: Event<Cause>)
    requires Inv(merge, debounceMs, s)
    ensures Inv(merge, debounceMs, Step(merge, debounceMs, s, e))
    ensures Extends(s, Step(merge, debounceMs, s, e))
  {
    match e
    case Request(c) => RequestKeeps(merge, debounceMs, s, c);
    case WaitForIdle(waiter) => WaitKeeps(merge, debounceMs, s, waiter);
    case Close => CloseKeeps(merge, debounceMs, s);
    case Elapse(_) =>
    case Fire => FireKeeps(merge, debounceMs, s);
    case Begin => BeginKeeps(merge, debounceMs, s);
    case Finish(failed) => FinishKeeps(merge, debounceMs, s, failed);
  }

  lemma {:induction false} RunKeeps<Cause>(merge: (Cause, Cause) -> Cause, debounceMs: nat, s: Loop<Cause>,
                                           es: seq<Event<Cause>>)
    requires Inv(merge, debounceMs, s)
    ensures Inv(merge, debounceMs, Run(merge, debounceMs, s, es))
    ensures Extends(s, Run(merge, debounceMs, s, es))
    decreases |es|
  {
    if es != [] {
      StepKeeps(merge, debounceMs, s, es[0]);
      RunKeeps(merge, debounceMs, Step(merge, debounceMs, s, es[0]), es[1..]);
    }
  }

  // ---- Conservation -------------------------------------------------------------------------

  lemma {:induction false} FoldSplit<Cause(!new)>(merge: (Cause, Cause) -> Cause, a: seq<Cause>, b: seq<Cause>)
    requires Associative(merge) && a != [] && b != []
    ensures Fold(merge, a + b) == merge(Fold(merge, a), Fold(merge, b))
    decreases |b|
  {
    var n := |b| - 1;
    assert (a + b)[..|a| + n] == a + b[..n] && (a + b)[|a| + n] == b[n];
    if n == 0 {
      assert a + b[..0] == a;
    } else {
      FoldSplit(merge, a, b[..n]);
    }
  }

  lemma CausesSnoc<Cause>(starts: seq<Start<Cause>>, r: Start<Cause>)
    ensures Causes(starts + [r]) == Causes(starts) + [r.cause]
  {
  }

  lemma FoldSnoc<Cause>(merge: (Cause, Cause) -> Cause, causes: seq<Cause>, c: Cause)
    requires causes != []
    ensures Fold(merge, causes + [c]) == merge(Fold(merge, causes), c)
  {
    assert (causes + [c])[..|causes|] == causes;
  }

  lemma FoldOneGroup<Cause>(merge: (Cause, Cause) -> Cause, r: Start<Cause>)
    ensures Causes([r]) == [r.cause] && Flatten([r]) == r.group
  {
    FlattenSnoc([], r);
    assert [] + [r] == [r];
  }

  lemma FoldOneMoreGroup<Cause>(merge: (Cause, Cause) -> Cause, starts: seq<Start<Cause>>, r: Start<Cause>)
    requires starts != [] && Flatten(starts) != [] && r.group != [] && r.cause == Fold(merge, r.group)
    requires Fold(merge, Causes(starts)) == Fold(merge, Flatten(starts))
    requires Fold(merge, Flatten(starts) + r.group) == merge(Fold(merge, Flatten(starts)), Fold(merge, r.group))
    ensures Fold(merge, Causes(starts + [r])) == Fold(merge, Flatten(starts + [r]))
  {
    CausesSnoc(starts, r);
    FlattenSnoc(starts, r);
    FoldSnoc(merge, Causes(starts), r.cause);
  }

  lemma {:induction false} FoldGroups<Cause(!new)>(merge: (Cause, Cause) -> Cause, starts: seq<Start<Cause>>)
    requires Associative(merge) && starts != []
    requires forall r :: r in starts ==> r.group != [] && r.cause == Fold(merge, r.group)
    ensures Flatten(starts) != [] && Fold(merge, Causes(starts)) == Fold(merge, Flatten(starts))
    decreases |starts|
  {
    var n := |starts| - 1;
    var init, r := starts[..n], starts[n];
    assert starts == init + [r];
    if n == 0 {
      FoldOneGroup(merge, r);
    } else {
      FoldGroups(merge, init);
      FoldSplit(merge, Flatten(init), r.group);
      FoldOneMoreGroup(merge, init, r);
    }
  }

  lemma DeliveredSnoc<Cause>(log: seq<Mark<Cause>>, m: Mark<Cause>)
    ensures Delivered(log + [m]) == Delivered(log) + (if m.Began? then [m.cause] else [])
  {
    assert (log + [m])[..|log|] == log;
  }

  lemma {:induction false} DeliveredMatches<Cause>(log: seq<Mark<Cause>>, starts: seq<Start<Cause>>, n: nat)
    requires n <= |starts| && 2 * n - 1 <= |log| <= 2 * n
    requires forall k :: 0 <= k < |log| ==>
               if k % 2 == 0 then log[k] == Began(starts[k / 2].cause) else log[k].Ended?
    ensures Delivered(log) == Causes(starts[..n])
    decreases |log|
  {
    if log != [] {
      var l := |log| - 1;
      if l % 2 == 0 {
        assert l / 2 == n - 1;
        DeliveredMatches(log[..l], starts, n - 1);
        assert Causes(starts[..n]) == Causes(starts[..n - 1]) + [starts[n - 1].cause];
      } else {
        DeliveredMatches(log[..l], starts, n);
      }
    }
  }

  // The causes requested by these events, in order.
  function Requested<Cause>(es: seq<Event<Cause>>): seq<Cause>
    decreases |es|
  {
    if es == [] then []
    else if es[0].Request? then [es[0].cause] + Requested(es[1..])
    else Requested(es[1..])
  }

  lemma AcceptsOne<Cause>(merge: (Cause, Cause) -> Cause, debounceMs: nat, s: Loop<Cause>, e: Event<Cause>)
    ensures var t := Step(merge, debounceMs, s, e);
            && (s.phase.Closed? ==> t.phase.Closed?)
            && (!s.phase.Closed? ==>
                  t.past.accepted == if e.Request? then s.past.accepted + [e.cause] else s.past.accepted)
  {
  }

  // As long as the loop is not closed, no request is refused.
  lemma {:induction false} AcceptsAll<Cause>(merge: (Cause, Cause) -> Cause, debounceMs: nat, s: Loop<Cause>,
                                             es: seq<Event<Cause>>)
    ensures var t := Run(merge, debounceMs, s, es);
            !t.phase.Closed? ==> !s.phase.Closed? && t.past.accepted == s.past.accepted + Requested(es)
    decreases |es|
  {
    if es == [] {
      assert s.past.accepted + [] == s.past.accepted;
    } else {
      AcceptsOne(merge, debounceMs, s, es[0]);
      AcceptsAll(merge, debounceMs, Step(merge, debounceMs, s, es[0]), es[1..]);
      if es[0].Request? { Reassociate(s.past.accepted, [es[0].cause], Requested(es[1..])); }
    }
  }

  // At rest, before close: every request ever made sits in exactly one started group, in order; the host
  // was called once per group, with that group merged left to right; and with an associative merge the
  // merged causes of the host equal the merged requests.
  lemma RequestsDelivered<Cause(!new)>(merge: (Cause, Cause) -> Cause, debounceMs: nat, now: nat, es: seq<Event<Cause>>)
    requires Run(merge, debounceMs, Initial(now), es).phase.Idle?
    ensures var p := Run(merge, debounceMs, Initial(now), es).past;
            && p.accepted == Requested(es) == Flatten(p.starts) && p.dropped == []
            && Delivered(p.log) == Causes(p.starts)
            && (forall k :: 0 <= k < |p.starts| ==>
                  p.starts[k].group != [] && p.starts[k].cause == Fold(merge, p.starts[k].group))
            && (Associative(merge) && p.accepted != [] ==>
                  p.starts != [] && Fold(merge, Delivered(p.log)) == Fold(merge, p.accepted))
  {
    RunKeeps(merge, debounceMs, Initial(now), es);
    AcceptsAll(merge, debounceMs, Initial(now), es);
    var s := Run(merge, debounceMs, Initial(now), es);
    var p := s.past;
    DeliveredMatches(p.log, p.starts, |p.starts|);
    assert p.starts[..|p.starts|] == p.starts;
    forall k | 0 <= k < |p.starts|
      ensures p.starts[k].group != [] && p.starts[k].cause == Fold(merge, p.starts[k].group) {
      assert StartOk(merge, debounceMs, p.starts[k]);
    }
    assert p.accepted == Flatten(p.starts);
    if Associative(merge) && p.accepted != [] { FoldGroups(merge, p.starts); }
  }

  // A run that starts takes every request accepted so far, so each request goes to a later start.
  lemma StartTakesAll<Cause>(merge: (Cause, Cause) -> Cause, debounceMs: nat, s: Loop<Cause>, e: Event<Cause>)
    requires Inv(merge, debounceMs, s)
    ensures var t := Step(merge, debounceMs, s, e);
            t.past.starts != s.past.starts ==>
              && |t.past.starts| == |s.past.starts| + 1 && s.active.None?
              && t.past.accepted == s.past.accepted == Flatten(t.past.starts)
              && s.lastRequestAt + debounceMs <= s.now
  {
    StepKeeps(merge, debounceMs, s, e);
  }

  // ---- Debouncing -----------------------------------------------------------------------------

  // The timer callback starts a run exactly when something is pending, nothing is active, and the debounce
  // time has passed since the last request: neither earlier nor later.
  lemma FireStartsIff<Cause>(merge: (Cause, Cause) -> Cause, debounceMs: nat, s: Loop<Cause>)
    requires Inv(merge, debounceMs, s)
    ensures Step(merge, debounceMs, s, Fire).past.starts != s.past.starts
            <==> s.pending.Some? && s.active.None? && s.lastRequestAt + debounceMs <= s.now
  {
  }

  lemma {:induction false} QuietSince<Cause>(merge: (Cause, Cause) -> Cause, debounceMs: nat, s: Loop<Cause>,
                                             es: seq<Event<Cause>>)
    requires NoRequestOrClose(es)
    ensures Run(merge, debounceMs, s, es).lastRequestAt == s.lastRequestAt
    decreases |es|
  {
    if es != [] { QuietSince(merge, debounceMs, Step(merge, debounceMs, s, es[0]), es[1..]); }
  }

  // So after a request, whatever else happens, the next run can start exactly from the moment at which the
  // debounce time has passed since that request, or the active run has ended, whichever is later.
  lemma RequestDebounces<Cause>(merge: (Cause, Cause) -> Cause, debounceMs: nat, s: Loop<Cause>, c: Cause,
                                es: seq<Event<Cause>>)
    requires Inv(merge, debounceMs, s) && !s.phase.Closed? && NoRequestOrClose(es)
    ensures var t := Run(merge, debounceMs, Step(merge, debounceMs, s, Request(c)), es);
            Step(merge, debounceMs, t, Fire).past.starts != t.past.starts
            <==> t.pending.Some? && t.active.None? && s.now + debounceMs <= t.now
  {
    var u := Step(merge, debounceMs, s, Request(c));
    StepKeeps(merge, debounceMs, s, Request(c));
    RunKeeps(merge, debounceMs, u, es);
    QuietSince(merge, debounceMs, u, es);
    FireStartsIff(merge, debounceMs, Run(merge, debounceMs, u, es));
  }

  // ---- How host calls end -----------------------------------------------------------------------

  // How the host calls of a log ended, in order.
  function EndsOf<Cause>(log: seq<Mark<Cause>>): seq<bool> {
    if log == [] then []
    else EndsOf(log[..|log| - 1]) + (if log[|log| - 1].Ended? then [log[|log| - 1].failed] else [])
  }

  function Settlement<Cause>(s: Loop<Cause>, e: Event<Cause>): seq<bool> {
    if e.Finish? && s.active.Some? && s.active.value.begun then [e.failed] else []
  }

  // How they really ended: the events that settle a host call in progress.
  function Settlements<Cause>(merge: (Cause, Cause) -> Cause, debounceMs: nat, s: Loop<Cause>, es: seq<Event<Cause>>): seq<bool>
    decreases |es|
  {
    if es == [] then []
    else
      Settlement(s, es[0]) + Settlements(merge, debounceMs, Step(merge, debounceMs, s, es[0]), es[1..])
  }

  lemma EndsSnoc<Cause>(log: seq<Mark<Cause>>, m: Mark<Cause>)
    ensures EndsOf(log + [m]) == EndsOf(log) + (if m.Ended? then [m.failed] else [])
  {
    assert (log + [m])[..|log|] == log;
  }

  lemma EndsStep<Cause>(merge: (Cause, Cause) -> Cause, debounceMs: nat, s: Loop<Cause>, e: Event<Cause>)
    ensures EndsOf(Step(merge, debounceMs, s, e).past.log)
            == EndsOf(s.past.log) + Settlement(s, e)
  {
    if e.Finish? { EndsSnoc(s.past.log, Ended(e.failed)); }
    if e.Begin? && s.active.Some? { EndsSnoc(s.past.log, Began(s.active.value.cause)); }
  }

  // Over every run, every host call that settles is recorded once, in order, failed or not as it was.
  lemma {:induction false} EndsAreReported<Cause>(merge: (Cause, Cause) -> Cause, debounceMs: nat, s: Loop<Cause>,
                                                  es: seq<Event<Cause>>)
    ensures EndsOf(Run(merge, debounceMs, s, es).past.log) == EndsOf(s.past.log) + Settlements(merge, debounceMs, s, es)
    decreases |es|
  {
    if es == [] {
      assert EndsOf(s.past.log) + [] == EndsOf(s.past.log);
    } else {
      var t := Step(merge, debounceMs, s, es[0]);
      EndsStep(merge, debounceMs, s, es[0]);
      EndsAreReported(merge, debounceMs, t, es[1..]);
      Reassociate(EndsOf(s.past.log), Settlement(s, es[0]), Settlements(merge, debounceMs, t, es[1..]));
    }
  }

  // ---- Bursts -------------------------------------------------------------------------------

  lemma OneWaits<Cause>(merge: (Cause, Cause) -> Cause, debounceMs: nat, s: Loop<Cause>, e: Event<Cause>)
    requires Control(s) && s.phase.Running? && !e.Finish? && !e.Close?
    ensures var t := Step(merge, debounceMs, s, e);
            && t.phase.Running? && t.past.starts == s.past.starts
            && t.past.waiting == if e.Request? then s.past.waiting + [e.cause] else s.past.waiting
  {
  }

  predicate NoEndOrClose<Cause>(es: seq<Event<Cause>>)
    decreases |es|
  {
    es != [] ==> !es[0].Finish? && !es[0].Close? && NoEndOrClose(es[1..])
  }

  predicate NoRequestOrClose<Cause>(es: seq<Event<Cause>>)
    decreases |es|
  {
    es != [] ==> !es[0].Request? && !es[0].Close? && NoRequestOrClose(es[1..])
  }

  lemma Reassociate<Cause>(a: seq<Cause>, b: seq<Cause>, c: seq<Cause>)
    ensures a + b + c == a + (b + c)
  {
  }

  // While a run is active, whatever else happens, nothing starts and every request waits.
  lemma {:induction false} RequestsWait<Cause>(merge: (Cause, Cause) -> Cause, debounceMs: nat, s: Loop<Cause>,
                                               es: seq<Event<Cause>>)
    requires Inv(merge, debounceMs, s) && s.phase.Running? && NoEndOrClose(es)
    ensures var t := Run(merge, debounceMs, s, es);
            && Inv(merge, debounceMs, t) && t.phase.Running? && t.past.starts == s.past.starts
            && t.past.waiting == s.past.waiting + Requested(es)
    decreases |es|
  {
    if es == [] {
      assert s.past.waiting + [] == s.past.waiting;
    } else {
      StepKeeps(merge, debounceMs, s, es[0]);
      OneWaits(merge, debounceMs, s, es[0]);
      RequestsWait(merge, debounceMs, Step(merge, debounceMs, s, es[0]), es[1..]);
      if es[0].Request? { Reassociate(s.past.waiting, [es[0].cause], Requested(es[1..])); }
    }
  }

  // Since u, either nothing has started, or exactly one run that took all that was waiting then.
  ghost predicate AtMostOne<Cause>(u: Loop<Cause>, t: Loop<Cause>) {
    || (t.past.starts == u.past.starts && t.past.waiting == u.past.waiting)
    || (&& u.past.waiting != [] && t.past.waiting == [] && |t.past.starts| == |u.past.starts| + 1
        && t.past.starts[..|u.past.starts|] == u.past.starts && t.past.starts[|u.past.starts|].group == u.past.waiting)
  }

  lemma AtMostOneStep<Cause>(merge: (Cause, Cause) -> Cause, debounceMs: nat, u: Loop<Cause>, t: Loop<Cause>,
                             e: Event<Cause>)
    requires Inv(merge, debounceMs, t) && AtMostOne(u, t) && !e.Request? && !e.Close?
    ensures AtMostOne(u, Step(merge, debounceMs, t, e))
  {
    var n := |u.past.starts|;
    if t.past.starts == u.past.starts && e.Fire? && OnFire(t).past.starts != t.past.starts {
      assert OnFire(t).past.starts[..n] == u.past.starts;
    }
  }

  lemma {:induction false} AtMostOneRun<Cause>(merge: (Cause, Cause) -> Cause, debounceMs: nat, u: Loop<Cause>,
                                               t: Loop<Cause>, es: seq<Event<Cause>>)
    requires Inv(merge, debounceMs, t) && AtMostOne(u, t) && NoRequestOrClose(es)
    ensures Inv(merge, debounceMs, Run(merge, debounceMs, t, es)) && AtMostOne(u, Run(merge, debounceMs, t, es))
    decreases |es|
  {
    if es != [] {
      StepKeeps(merge, debounceMs, t, es[0]);
      AtMostOneStep(merge, debounceMs, u, t, es[0]);
      AtMostOneRun(merge, debounceMs, u, Step(merge, debounceMs, t, es[0]), es[1..]);
    }
  }

  predicate AtRest<Cause>(t: Loop<Cause>) {
    t.active.None? && t.timer.None? && t.pending.None?
  }

  // Any burst during an active run - requests at any moments of it, with any waiters, timer callbacks and
  // passing time in between - starts nothing while that run lasts. Whatever happens afterwards, short of
  // new requests and close, at most one run starts, and it takes exactly what was requested since the active
  // run started; when the loop has come to rest, one has started if and only if anything was.
  lemma BurstHasOneFollowUp<Cause>(merge: (Cause, Cause) -> Cause, debounceMs: nat, s: Loop<Cause>,
                                   burst: seq<Event<Cause>>, after: seq<Event<Cause>>)
    requires Inv(merge, debounceMs, s) && s.phase.Running?
    requires NoEndOrClose(burst) && NoRequestOrClose(after)
    ensures var u := Run(merge, debounceMs, s, burst);
            var t := Run(merge, debounceMs, u, after);
            && u.past.starts == s.past.starts && u.past.waiting == s.past.waiting + Requested(burst)
            && AtMostOne(u, t)
            && (AtRest(t) ==> (t.past.starts != s.past.starts <==> s.past.waiting + Requested(burst) != []))
  {
    RequestsWait(merge, debounceMs, s, burst);
    var u := Run(merge, debounceMs, s, burst);
    AtMostOneRun(merge, debounceMs, u, u, after);
  }

  // And the follow-up comes: host runs that settle and a clock that goes on bring the loop to rest.
  lemma FollowUpComes<Cause>(merge: (Cause, Cause) -> Cause, debounceMs: nat, s: Loop<Cause>, burst: seq<Event<Cause>>)
    returns (after: seq<Event<Cause>>)
    requires Inv(merge, debounceMs, s) && s.phase.Running?
    requires NoEndOrClose(burst) && s.past.waiting + Requested(burst) != []
    ensures OnItsOwn(after)
    ensures var t := Run(merge, debounceMs, Run(merge, debounceMs, s, burst), after);
            && AtRest(t) && |t.past.starts| == |s.past.starts| + 1
            && t.past.starts[|s.past.starts|].group == s.past.waiting + Requested(burst)
            && t.past.starts[|s.past.starts|].cause == Fold(merge, s.past.waiting + Requested(burst))
  {
    RequestsWait(merge, debounceMs, s, burst);
    after := Drains(merge, debounceMs, Run(merge, debounceMs, s, burst));
    OnItsOwnIsQuiet(after);
    BurstHasOneFollowUp(merge, debounceMs, s, burst, after);
    RunKeeps(merge, debounceMs, Run(merge, debounceMs, s, burst), after);
    var t := Run(merge, debounceMs, Run(merge, debounceMs, s, burst), after);
    assert StartOk(merge, debounceMs, t.past.starts[|s.past.starts|]);
  }

  // ---- Close --------------------------------------------------------------------------------

  lemma {:induction false} ClosedStays<Cause>(merge: (Cause, Cause) -> Cause, debounceMs: nat, s: Loop<Cause>,
                                              es: seq<Event<Cause>>)
    requires Inv(merge, debounceMs, s) && s.phase.Closed?
    ensures var t := Run(merge, debounceMs, s, es);
            t.phase.Closed? && t.past.starts == s.past.starts && t.past.accepted == s.past.accepted
            && t.past.dropped == s.past.dropped
    decreases |es|
  {
    if es != [] {
      StepKeeps(merge, debounceMs, s, es[0]);
      ClosedStays(merge, debounceMs, Step(merge, debounceMs, s, es[0]), es[1..]);
    }
  }

  // After close, whatever happens, the delivered groups are those started before it. All accepted
  // requests are delivered if and only if nothing was pending when close was called.
  lemma CloseDeliversIff<Cause>(merge: (Cause, Cause) -> Cause, debounceMs: nat, s: Loop<Cause>, es: seq<Event<Cause>>)
    requires Inv(merge, debounceMs, s) && !s.phase.Closed?
    ensures var p := Run(merge, debounceMs, Step(merge, debounceMs, s, Close), es).past;
            && p.starts == s.past.starts
            && (Flatten(p.starts) == p.accepted <==> s.pending.None?)
            && p.dropped == s.past.waiting
  {
    StepKeeps(merge, debounceMs, s, Close);
    ClosedStays(merge, debounceMs, Step(merge, debounceMs, s, Close), es);
    var p := Run(merge, debounceMs, Step(merge, debounceMs, s, Close), es).past;
    assert |s.past.accepted| == |Flatten(s.past.starts)| + |s.past.waiting|;
    if s.past.waiting == [] {
      assert s.past.accepted == Flatten(s.past.starts);
    }
  }

  // One request followed by close is never delivered.
  lemma CloseDropsPending<Cause>(merge: (Cause, Cause) -> Cause, debounceMs: nat, now: nat, c: Cause,
                                 es: seq<Event<Cause>>)
    ensures var s := Step(merge, debounceMs, Initial(now), Request(c));
            var p := Run(merge, debounceMs, Step(merge, debounceMs, s, Close), es).past;
            p.accepted == [c] && p.starts == [] && p.dropped == [c]
  {
    var s := Step(merge, debounceMs, Initial(now), Request(c));
    StepKeeps(merge, debounceMs, Initial(now), Request(c));
    StepKeeps(merge, debounceMs, s, Close);
    ClosedStays(merge, debounceMs, Step(merge, debounceMs, s, Close), es);
  }

  // What the host will still be handed, if its microtask runs among these events.
  ghost function Owed<Cause>(s: Loop<Cause>, es: seq<Event<Cause>>): seq<Cause> {
    if s.active.Some? && !s.active.value.begun && Begin in es then [s.active.value.cause] else []
  }

  lemma BeginOwed<Cause>(s: Loop<Cause>, rest: seq<Event<Cause>>)
    requires s.active.Some? && !s.active.value.begun
    ensures Delivered(OnBegin(s).past.log) + Owed(OnBegin(s), rest) == Delivered(s.past.log) + Owed(s, [Begin] + rest)
  {
    DeliveredSnoc(s.past.log, Began(s.active.value.cause));
    assert ([Begin] + rest)[0] == Begin;
    assert Owed(OnBegin(s), rest) == [] && Owed(s, [Begin] + rest) == [s.active.value.cause];
  }

  lemma FinishOwed<Cause>(debounceMs: nat, s: Loop<Cause>, failed: bool, rest: seq<Event<Cause>>)
    requires s.active.Some? && s.active.value.begun && s.phase.Closed?
    ensures var t := OnFinish(debounceMs, s, failed);
            Delivered(t.past.log) + Owed(t, rest) == Delivered(s.past.log) + Owed(s, [Finish(failed)] + rest)
  {
    DeliveredSnoc(s.past.log, Ended(failed));
  }

  lemma OtherOwed<Cause>(s: Loop<Cause>, t: Loop<Cause>, e: Event<Cause>, rest: seq<Event<Cause>>)
    requires t.past.log == s.past.log && t.active == s.active
    requires e.Begin? ==> s.active.None? || s.active.value.begun
    ensures Delivered(t.past.log) + Owed(t, rest) == Delivered(s.past.log) + Owed(s, [e] + rest)
  {
    assert Begin in [e] + rest <==> e == Begin || Begin in rest;
  }

  lemma ClosedBeginsOne<Cause>(merge: (Cause, Cause) -> Cause, debounceMs: nat, s: Loop<Cause>, e: Event<Cause>,
                               rest: seq<Event<Cause>>)
    requires Control(s) && s.phase.Closed?
    ensures var t := Step(merge, debounceMs, s, e);
            Delivered(t.past.log) + Owed(t, rest) == Delivered(s.past.log) + Owed(s, [e] + rest)
  {
    if e.Begin? && s.active.Some? && !s.active.value.begun {
      BeginOwed(s, rest);
    } else if e.Finish? && s.active.Some? && s.active.value.begun {
      FinishOwed(debounceMs, s, e.failed, rest);
    } else {
      OtherOwed(s, Step(merge, debounceMs, s, e), e, rest);
    }
  }

  // After close the host can still be called once, by the run whose microtask had not called it yet.
  lemma {:induction false} ClosedBegins<Cause>(merge: (Cause, Cause) -> Cause, debounceMs: nat, s: Loop<Cause>,
                                               es: seq<Event<Cause>>)
    requires Inv(merge, debounceMs, s) && s.phase.Closed?
    ensures Delivered(Run(merge, debounceMs, s, es).past.log) == Delivered(s.past.log) + Owed(s, es)
    decreases |es|
  {
    if es == [] {
      assert Delivered(s.past.log) + [] == Delivered(s.past.log);
    } else {
      var s1 := Step(merge, debounceMs, s, es[0]);
      StepKeeps(merge, debounceMs, s, es[0]);
      StaysClosed(merge, debounceMs, s, es[0]);
      ClosedBegins(merge, debounceMs, s1, es[1..]);
      assert es == [es[0]] + es[1..];
      ClosedBeginsOne(merge, debounceMs, s, es[0], es[1..]);
    }
  }

  lemma StaysClosed<Cause>(merge: (Cause, Cause) -> Cause, debounceMs: nat, s: Loop<Cause>, e: Event<Cause>)
    requires Control(s) && s.phase.Closed?
    ensures Step(merge, debounceMs, s, e).phase.Closed?
  {
  }

  // Over every continuation of close(), the host is called after it if and only if a run had been started
  // whose microtask had not called the host yet, and that microtask runs; then exactly once.
  lemma RunBeginsAfterClose<Cause>(merge: (Cause, Cause) -> Cause, debounceMs: nat, s: Loop<Cause>, es: seq<Event<Cause>>)
    requires Inv(merge, debounceMs, s)
    ensures var t := Run(merge, debounceMs, Step(merge, debounceMs, s, Close), es);
            && Delivered(t.past.log) == Delivered(s.past.log) + Owed(s, es)
            && (Delivered(t.past.log) != Delivered(s.past.log)
                <==> s.active.Some? && !s.active.value.begun && Begin in es)
  {
    StepKeeps(merge, debounceMs, s, Close);
    ClosedBegins(merge, debounceMs, Step(merge, debounceMs, s, Close), es);
  }

  // ---- Waiting ------------------------------------------------------------------------------

  function Nudge<Cause>(s: Loop<Cause>): seq<Event<Cause>> {
    if s.active.Some? then if s.active.value.begun then [Finish(false)] else [Begin]
    else if s.timer.Some? then if s.timer.value <= s.now then [Fire] else [Elapse(s.timer.value - s.now)]
    else []
  }

  function Distance<Cause>(s: Loop<Cause>): nat {
    if s.active.Some? then (if s.active.value.begun then 1 else 2) + (if s.pending.Some? then 4 else 0)
    else if s.timer.Some? then if s.timer.value <= s.now then 3 else 4
    else 0
  }

  // The clock goes on, and what is due happens.
  predicate OnItsOwn<Cause>(es: seq<Event<Cause>>)
    decreases |es|
  {
    es != [] ==> (es[0].Elapse? || es[0].Fire? || es[0].Begin? || es[0].Finish?) && OnItsOwn(es[1..])
  }

  lemma {:induction false} OnItsOwnIsQuiet<Cause>(es: seq<Event<Cause>>)
    requires OnItsOwn(es)
    ensures NoRequestOrClose(es)
    decreases |es|
  {
    if es != [] { OnItsOwnIsQuiet(es[1..]); }
  }

  // The waiters that come with these events, in order.
  function Arrived<Cause>(es: seq<Event<Cause>>): seq<nat>
    decreases |es|
  {
    if es == [] then []
    else if es[0].WaitForIdle? then [es[0].waiter] + Arrived(es[1..])
    else Arrived(es[1..])
  }

  // Waiters are resolved only by a step that brings the loop to rest; one that comes after close, at once.
  lemma ResolvedAtRest<Cause>(merge: (Cause, Cause) -> Cause, debounceMs: nat, s: Loop<Cause>, e: Event<Cause>)
    requires Inv(merge, debounceMs, s)
    ensures var t := Step(merge, debounceMs, s, e);
            t.past.resolved != s.past.resolved ==>
              AtRest(t) || (s.phase.Closed? && e.WaitForIdle? && t.past.resolved == s.past.resolved + [e.waiter])
  {
  }

  // What one event may do to those who wait: let one more wait, release all, or let one through.
  ghost predicate Shift<Cause>(s: Loop<Cause>, t: Loop<Cause>, now: seq<nat>) {
    || (t.past.resolved == s.past.resolved && t.waiters == s.waiters + now)
    || (AtRest(t) && t.past.resolved == s.past.resolved + s.waiters && t.waiters == now == [])
    || (t.past.resolved == s.past.resolved + now && t.waiters == s.waiters && (t.phase.Closed? || s.waiters == []))
  }

  function Comer<Cause>(e: Event<Cause>): seq<nat> { if e.WaitForIdle? then [e.waiter] else [] }

  lemma StepShifts<Cause>(merge: (Cause, Cause) -> Cause, debounceMs: nat, s: Loop<Cause>, e: Event<Cause>)
    requires Control(s)
    ensures Shift(s, Step(merge, debounceMs, s, e), Comer(e))
  {
    assert s.waiters + [] == s.waiters && s.past.resolved + [] == s.past.resolved;
  }

  lemma ShiftMeans<Cause>(s: Loop<Cause>, t: Loop<Cause>, now: seq<nat>)
    requires Shift(s, t, now)
    ensures multiset(t.past.resolved) + multiset(t.waiters) == multiset(s.past.resolved) + multiset(s.waiters) + multiset(now)
    ensures !t.phase.Closed? ==> t.past.resolved + t.waiters == s.past.resolved + s.waiters + now
  {
    var r, w := s.past.resolved, s.waiters;
    assert r + (w + now) == r + w + now && r + w + [] == r + w;
    if w == [] { assert r + now + w == r + w + now; }
  }

  lemma WaitersMove<Cause>(merge: (Cause, Cause) -> Cause, debounceMs: nat, s: Loop<Cause>, e: Event<Cause>)
    requires Inv(merge, debounceMs, s)
    ensures var t := Step(merge, debounceMs, s, e);
            && multiset(t.past.resolved) + multiset(t.waiters)
               == multiset(s.past.resolved) + multiset(s.waiters) + multiset(Comer(e))
            && (!t.phase.Closed? ==> t.past.resolved + t.waiters == s.past.resolved + s.waiters + Comer(e))
            && (!AtRest(t) ==> s.waiters <= t.waiters)
  {
    StepShifts(merge, debounceMs, s, e);
    ShiftMeans(s, Step(merge, debounceMs, s, e), Comer(e));
  }

  lemma ArrivedSplit<Cause>(a: multiset<nat>, e: Event<Cause>, rest: seq<Event<Cause>>)
    ensures Comer(e) + Arrived(rest) == Arrived([e] + rest)
    ensures a + multiset(Comer(e)) + multiset(Arrived(rest)) == a + multiset(Arrived([e] + rest))
  {
    assert ([e] + rest)[0] == e && ([e] + rest)[1..] == rest;
  }

  // Over every run, every waiter that has come is either still waiting or has been resolved, exactly once;
  // before close they are resolved in the order in which they came.
  lemma {:induction false} WaitersOnce<Cause>(merge: (Cause, Cause) -> Cause, debounceMs: nat, s: Loop<Cause>,
                                              es: seq<Event<Cause>>)
    requires Inv(merge, debounceMs, s)
    ensures var t := Run(merge, debounceMs, s, es);
            && multiset(t.past.resolved) + multiset(t.waiters)
               == multiset(s.past.resolved) + multiset(s.waiters) + multiset(Arrived(es))
            && (!t.phase.Closed? ==> t.past.resolved + t.waiters == s.past.resolved + s.waiters + Arrived(es))
    decreases |es|
  {
    if es == [] {
      assert s.past.resolved + s.waiters + [] == s.past.resolved + s.waiters;
    } else {
      var e := es[0];
      StepKeeps(merge, debounceMs, s, e);
      WaitersMove(merge, debounceMs, s, e);
      WaitersOnce(merge, debounceMs, Step(merge, debounceMs, s, e), es[1..]);
      AcceptsAll(merge, debounceMs, Step(merge, debounceMs, s, e), es[1..]);
      assert es == [e] + es[1..];
      ArrivedSplit(multiset(s.past.resolved) + multiset(s.waiters), e, es[1..]);
      Reassociate(s.past.resolved + s.waiters, Comer(e), Arrived(es[1..]));
    }
  }

  // The loop is not at rest, now and after each of these events.
  predicate BusyThroughout<Cause(==)>(merge: (Cause, Cause) -> Cause, debounceMs: nat, s: Loop<Cause>, es: seq<Event<Cause>>)
    decreases |es|
  {
    !AtRest(s) && (es != [] ==> BusyThroughout(merge, debounceMs, Step(merge, debounceMs, s, es[0]), es[1..]))
  }

  lemma {:induction false} WaitersStay<Cause>(merge: (Cause, Cause) -> Cause, debounceMs: nat, s: Loop<Cause>,
                                              es: seq<Event<Cause>>)
    requires Inv(merge, debounceMs, s) && BusyThroughout(merge, debounceMs, s, es)
    ensures s.waiters <= Run(merge, debounceMs, s, es).waiters
    decreases |es|
  {
    if es != [] {
      StepKeeps(merge, debounceMs, s, es[0]);
      WaitersMove(merge, debounceMs, s, es[0]);
      WaitersStay(merge, debounceMs, Step(merge, debounceMs, s, es[0]), es[1..]);
    }
  }

  // A waiter is resolved at once exactly when the loop is closed or at rest. Otherwise it waits, whatever
  // happens, as long as the loop does not come to rest; and once it has, nobody waits.
  lemma WaiterIsHeld<Cause>(merge: (Cause, Cause) -> Cause, debounceMs: nat, s: Loop<Cause>, w: nat,
                            es: seq<Event<Cause>>)
    requires Inv(merge, debounceMs, s)
    ensures var u := Step(merge, debounceMs, s, WaitForIdle(w));
            var t := Run(merge, debounceMs, u, es);
            && (if s.phase.Closed? || AtRest(s) then u.past.resolved == s.past.resolved + [w] && u.waiters == s.waiters
                else u.past.resolved == s.past.resolved && u.waiters == s.waiters + [w])
            && (!s.phase.Closed? && BusyThroughout(merge, debounceMs, u, es) ==> s.waiters + [w] <= t.waiters)
            && (AtRest(t) ==> t.waiters == [])
  {
    var u := Step(merge, debounceMs, s, WaitForIdle(w));
    StepKeeps(merge, debounceMs, s, WaitForIdle(w));
    RunKeeps(merge, debounceMs, u, es);
    if BusyThroughout(merge, debounceMs, u, es) { WaitersStay(merge, debounceMs, u, es); }
  }

  // Without further requests and with host runs that settle, the loop comes to rest; then nobody is
  // left waiting, and every waiter has been resolved exactly once, in order.
  lemma {:induction false} Drains<Cause>(merge: (Cause, Cause) -> Cause, debounceMs: nat, s: Loop<Cause>)
    returns (es: seq<Event<Cause>>)
    requires Inv(merge, debounceMs, s)
    ensures OnItsOwn(es)
    ensures var t := Run(merge, debounceMs, s, es);
            && t.active.None? && t.timer.None? && t.pending.None? && t.waiters == []
            && t.past.accepted == s.past.accepted && (t.phase.Idle? || t.phase.Closed?)
            && t.past.resolved == s.past.resolved + s.waiters
    decreases Distance(s)
  {
    es := Nudge(s);
    if es != [] {
      var e := es[0];
      var s1 := Step(merge, debounceMs, s, e);
      StepKeeps(merge, debounceMs, s, e);
      var rest := Drains(merge, debounceMs, s1);
      assert ([e] + rest)[1..] == rest;
      es := [e] + rest;
    }
  }

  // ---- The mutable loop -----------------------------------------------------------------------

  class SerializedDirtyLoop<Cause> {
    const merge: (Cause, Cause) -> Cause
    const debounceMs: nat
    var phase: Phase
    var pending: Option<Cause>
    var lastRequestAt: nat
    var timer: Option<nat>
    var active: Option<Active<Cause>>
    var idleWaiters: seq<nat>
    var now: nat
    ghost var past: Past<Cause>

    ghost function View(): Loop<Cause>
      reads this
    {
      Loop(phase, pending, lastRequestAt, timer, active, idleWaiters, now, past)
    }

    ghost predicate Valid()
      reads this
    {
      Inv(merge, debounceMs, View())
    }

    constructor (merge: (Cause, Cause) -> Cause, debounceMs: nat, now: nat)
      ensures Valid() && View() == Initial(now)
      ensures this.merge == merge && this.debounceMs == debounceMs
    {
      this.merge, this.debounceMs, this.now := merge, debounceMs, now;
      phase, pending, lastRequestAt, timer, active, idleWaiters := Idle, None, 0, None, None, [];
      past := Past([], [], [], [], [], []);
    }

    method SetTimer(delay: nat)
      modifies this`phase, this`timer
      ensures View() == Schedule(old(View()), delay)
    {
      phase := Debouncing;
      timer := Some(now + delay);
    }

    method Resolve()
      modifies this`idleWaiters, this`past
      ensures View() == ResolveIdle(old(View()))
    {
      past := past.(resolved := past.resolved + idleWaiters);
      idleWaiters := [];
    }

    method RequestRun(cause: Cause)
      requires Valid()
      modifies this
      ensures Valid() && View() == OnRequest(merge, debounceMs, old(View()), cause)
      ensures Extends(old(View()), View())
    {
      RequestKeeps(merge, debounceMs, View(), cause);
      if phase.Closed? { return; }
      pending := Some(if pending.Some? then merge(pending.value, cause) else cause);
      lastRequestAt := now;
      past := past.(accepted := past.accepted + [cause], waiting := past.waiting + [cause]);
      if phase.Running? { return; }
      SetTimer(debounceMs);
    }

    method AwaitIdle(waiter: nat)
      requires Valid()
      modifies this
      ensures Valid() && View() == OnWaitForIdle(old(View()), waiter)
    {
      WaitKeeps(merge, debounceMs, View(), waiter);
      if phase.Closed? || (phase.Idle? && pending.None? && timer.None? && active.None?) {
        past := past.(resolved := past.resolved + [waiter]);
        return;
      }
      idleWaiters := idleWaiters + [waiter];
    }

    method CloseLoop()
      requires Valid()
      modifies this
      ensures Valid() && View() == OnClose(old(View()))
      ensures phase == Closed && past.starts == old(past.starts)
      ensures Flatten(past.starts) == past.accepted <==> past.dropped == []
    {
      CloseKeeps(merge, debounceMs, View());
      if !phase.Closed? {
        if timer.Some? { timer := None; }
        pending, phase := None, Closed;
        past := past.(waiting := [], dropped := past.dropped + past.waiting);
      }
      assert |past.accepted| == |Flatten(past.starts)| + |past.dropped|;
      if active.Some? { return; }
      Resolve();
    }

    method StartRun()
      requires timer.None?
      modifies this
      ensures View() == OnStart(old(View()))
    {
      if phase.Closed? || active.Some? { return; }
      if pending.None? {
        phase := Idle;
        Resolve();
        return;
      }
      past := past.(waiting := [],
                    starts := past.starts + [Start(past.waiting, pending.value, now, lastRequestAt)]);
      active := Some(Active(pending.value, false));
      pending, phase := None, Running;
    }

    method OnTimer()
      requires Valid()
      modifies this
      ensures Valid() && View() == OnFire(old(View()))
      ensures past.starts == old(past.starts) || (old(active).None? && Flatten(past.starts) == past.accepted)
    {
      FireKeeps(merge, debounceMs, View());
      StartTakesAll(merge, debounceMs, View(), Fire);
      if timer.Some? && timer.value <= now {
        timer := None;
        StartRun();
      }
    }

    method CallHost()
      requires Valid()
      modifies this
      ensures Valid() && View() == OnBegin(old(View()))
    {
      BeginKeeps(merge, debounceMs, View());
      if active.Some? && !active.value.begun {
        past := past.(log := past.log + [Began(active.value.cause)]);
        active := Some(active.value.(begun := true));
      }
    }

    // The catch and finally handlers of a run.
    method Settled(failed: bool)
      requires Valid()
      modifies this
      ensures Valid() && View() == OnFinish(debounceMs, old(View()), failed)
    {
      FinishKeeps(merge, debounceMs, View(), failed);
      if active.None? || !active.value.begun { return; }
      past := past.(log := past.log + [Ended(failed)]);
      active := None;
      if phase.Closed? {
        Resolve();
        return;
      }
      if pending.None? {
        phase := Idle;
        Resolve();
        return;
      }
      var elapsed := Max(0, now - lastRequestAt);
      SetTimer(Max(0, debounceMs - elapsed));
    }

    method Advance(ms: nat)
      requires Valid()
      modifies this`now
      ensures Valid() && View() == old(View()).(now := old(now) + ms)
    {
      now := now + ms;
    }
  }
}
