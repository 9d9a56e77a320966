/**
  Rate-limited recovery of a CPU runtime: at most three attempts in any five minutes, and readiness
  only for a runtime whose parity output equals the first one's, unless the ready callback throws.
 */
module Supervised {
  import opened Wrappers

  const WINDOW := 300_000
  const ATTEMPTS := 3
  const BACKOFFS := [250, 1_000, 5_000]

  // Where recovery is: not running, disposing the old runtime, in its loop, or past its end.
  datatype Phase = Idle | Disposing | AtTop | Waiting | Trying | Returned

  /**
    `parity` is the matching output measured for the current runtime, if any. `history` lists every attempt and
    `clock` is the latest reading.
   */
  datatype Supervisor = Supervisor(
    attempts: seq<int>,
    baseline: Option<string>,
    parity: Option<string>,
    ready: bool,
    phase: Phase,
    stopping: bool,
    backoff: int,
    clock: int,
    history: seq<int>)

  const INITIAL := Supervisor([], None, None, false, Idle, false, 0, 0, [])

  /**
    `Disposed` carries the clock readings taken while old attempts are forgotten; readings that a
    non-decreasing clock cannot give change nothing. `throws` tells that the ready callback throws.
   */
  datatype Event =
    | Loaded(output: string, runtimeReady: bool)
    | Unavailable
    | Disposed(readings: seq<int>)
    | Attempt(now: int)
    | WaitEnds
    | Candidate(output: string, sameIdentity: bool, runtimeReady: bool, throws: bool)
    | RecoveryRejected
    | RecoveryEnds
    | Dispose

  // ----- Forgetting old attempts -----

  predicate Recent(now: int, time: int) {
    now - time < WINDOW
  }

  // The attempts that are recent at the readings taken for them, one reading each.
  function Filtered(attempts: seq<int>, readings: seq<int>): seq<int>
    requires |readings| == |attempts|
  {
    if attempts == [] then []
    else
      var last := |attempts| - 1;
      Filtered(attempts[..last], readings[..last])
      + if Recent(readings[last], attempts[last]) then [attempts[last]] else []
  }

  method FilterAttempts(attempts: seq<int>, readings: seq<int>) returns (recent: seq<int>)
    requires |readings| == |attempts|
    ensures recent == Filtered(attempts, readings)
  {
    recent := [];
    for n := 0 to |attempts|
      invariant recent == Filtered(attempts[..n], readings[..n])
    {
      assert attempts[..n + 1][..n] == attempts[..n] && readings[..n + 1][..n] == readings[..n];
      if Recent(readings[n], attempts[n]) {
        recent := recent + [attempts[n]];
      }
    }
    assert attempts[..|attempts|] == attempts && readings[..|readings|] == readings;
  }

  // ----- Steps -----

  // A non-decreasing clock: the readings follow one another and none is earlier than the last one.
  predicate Later(clock: int, readings: seq<int>) {
    && (forall k | 0 <= k < |readings| :: clock <= readings[k])
    && (forall j, k | 0 <= j < k < |readings| :: readings[j] <= readings[k])
  }

  function LastOf(clock: int, readings: seq<int>): int {
    if readings == [] then clock else readings[|readings| - 1]
  }

  // The candidate under trial loads, has the identity of the first runtime and gives its output.
  predicate Succeeds(s: Supervisor, e: Event) {
    && s.phase == Trying && e.Candidate?
    && !s.stopping && e.sameIdentity && e.runtimeReady && Some(e.output) == s.baseline
  }

  function OnDisposed(s: Supervisor, readings: seq<int>): Supervisor {
    if s.phase != Disposing || |readings| != |s.attempts| || !Later(s.clock, readings) then s
    else s.(phase := AtTop, attempts := Filtered(s.attempts, readings), clock := LastOf(s.clock, readings))
  }

  // The guard of the loop keeps the index of the backoff in range.
  function OnAttempt(s: Supervisor, now: int): Supervisor {
    if s.phase != AtTop || s.stopping || |s.attempts| >= ATTEMPTS || now < s.clock then s
    else
      s.(phase := Waiting, backoff := BACKOFFS[|s.attempts|], attempts := s.attempts + [now],
         history := s.history + [now], clock := now)
  }

  function Step(s: Supervisor, e: Event): Supervisor {
    match e
    case Loaded(output, runtimeReady) =>
      if s.stopping || s.baseline.Some? || !runtimeReady then s
      else s.(baseline := Some(output), parity := Some(output), ready := true)
    case Unavailable =>
      if s.baseline.None? then s
      else s.(ready := false, phase := if s.phase == Idle && !s.stopping then Disposing else s.phase)
    case Disposed(readings) => OnDisposed(s, readings)
    case Attempt(now) => OnAttempt(s, now)
    case WaitEnds => // a new candidate becomes current; nothing has been measured for it
      if s.phase != Waiting then s
      else if s.stopping then s.(phase := Returned)
      else s.(phase := Trying, parity := None)
    case Candidate(output, _, _, throws) =>
      if s.phase != Trying then s
      else if !Succeeds(s, e) then s.(phase := AtTop)
      else s.(phase := if throws then AtTop else Returned, parity := Some(output), ready := true)
    case RecoveryRejected =>
      if s.phase in {Disposing, AtTop, Waiting, Trying} then s.(phase := Returned) else s
    case RecoveryEnds =>
      if s.phase == Returned || (s.phase == AtTop && (s.stopping || |s.attempts| >= ATTEMPTS)) then s.(phase := Idle)
      else s
    case Dispose => s.(stopping := true, ready := false)
  }

  // ----- At most three attempts in a window -----

  // How many of the times are recent at the given moment.
  function RecentCount(times: seq<int>, now: int): nat {
    if times == [] then 0
    else RecentCount(times[..|times| - 1], now) + if Recent(now, times[|times| - 1]) then 1 else 0
  }

  predicate Sorted(times: seq<int>) {
    forall j, k | 0 <= j < k < |times| :: times[j] <= times[k]
  }

  // Any four consecutive attempts span the window.
  predicate Spread(history: seq<int>) {
    forall k | 0 <= k < |history| - 3 :: history[k + 3] - history[k] >= WINDOW
  }

  ghost predicate Inv(s: Supervisor) {
    && |s.attempts| <= ATTEMPTS
    && Sorted(s.history) && (forall k | 0 <= k < |s.history| :: s.history[k] <= s.clock)
    && (forall now {:trigger RecentCount(s.history, now)} | now >= s.clock ::
         RecentCount(s.history, now) <= RecentCount(s.attempts, now))
    && Spread(s.history)
    && (s.phase != Idle ==> s.baseline.Some?)
    && (s.baseline.None? ==> !s.ready) && (s.stopping ==> !s.ready)
  }

  lemma {:induction false} FilterKeepsRecent(attempts: seq<int>, readings: seq<int>, now: int)
    requires |readings| == |attempts| && forall k | 0 <= k < |readings| :: readings[k] <= now
    ensures RecentCount(Filtered(attempts, readings), now) == RecentCount(attempts, now)
    ensures |Filtered(attempts, readings)| <= |attempts|
  {
    if attempts != [] {
      var last := |attempts| - 1;
      var front := Filtered(attempts[..last], readings[..last]);
      FilterKeepsRecent(attempts[..last], readings[..last], now);
      if Recent(readings[last], attempts[last]) {
        CountOne(front, attempts[last], now);
      } else {
        assert front + [] == front;
      }
    }
  }

  lemma CountOne(times: seq<int>, time: int, now: int)
    ensures RecentCount(times + [time], now) == RecentCount(times, now) + if Recent(now, time) then 1 else 0
  {
    assert (times + [time])[..|times|] == times;
  }

  lemma {:induction false} CountAtMost(times: seq<int>, now: int)
    ensures RecentCount(times, now) <= |times|
  {
    if times != [] {
      CountAtMost(times[..|times| - 1], now);
    }
  }

  // With fewer than three recent attempts, the third last one is old.
  lemma ThirdLastIsOld(history: seq<int>, now: int)
    requires |history| >= 3 && Sorted(history) && RecentCount(history, now) < 3
    ensures now - history[|history| - 3] >= WINDOW
  {
    var n := |history|;
    assert history[..n - 1][..n - 2] == history[..n - 2] && history[..n - 2][..n - 3] == history[..n - 3];
    assert RecentCount(history, now)
      == RecentCount(history[..n - 1], now) + if Recent(now, history[n - 1]) then 1 else 0;
    assert RecentCount(history[..n - 1], now)
      == RecentCount(history[..n - 2], now) + if Recent(now, history[n - 2]) then 1 else 0;
    assert RecentCount(history[..n - 2], now)
      == RecentCount(history[..n - 3], now) + if Recent(now, history[n - 3]) then 1 else 0;
  }

  lemma AttemptSpread(s: Supervisor, now: int)
    requires Inv(s) && |s.attempts| < ATTEMPTS && now >= s.clock
    ensures Sorted(s.history + [now]) && Spread(s.history + [now])
  {
    CountAtMost(s.attempts, now);
    assert RecentCount(s.history, now) <= RecentCount(s.attempts, now);
    if |s.history| >= 3 {
      ThirdLastIsOld(s.history, now);
    }
  }

  lemma AttemptInv(s: Supervisor, now: int)
    requires Inv(s)
    ensures Inv(OnAttempt(s, now))
  {
    var t := OnAttempt(s, now);
    if t != s {
      AttemptSpread(s, now);
      forall later | later >= now
        ensures RecentCount(t.history, later) <= RecentCount(t.attempts, later)
      {
        CountOne(s.history, now, later);
        CountOne(s.attempts, now, later);
        assert RecentCount(s.history, later) <= RecentCount(s.attempts, later);
      }
    }
  }

  lemma DisposedInv(s: Supervisor, readings: seq<int>)
    requires Inv(s)
    ensures Inv(OnDisposed(s, readings))
  {
    var t := OnDisposed(s, readings);
    if t != s {
      FilterKeepsRecent(s.attempts, readings, t.clock);
      forall now | now >= t.clock
        ensures RecentCount(t.history, now) <= RecentCount(t.attempts, now)
      {
        FilterKeepsRecent(s.attempts, readings, now);
        assert RecentCount(s.history, now) <= RecentCount(s.attempts, now);
      }
    }
  }

  lemma OtherInv(s: Supervisor, e: Event)
    requires Inv(s) && !e.Disposed? && !e.Attempt?
    ensures Inv(Step(s, e)) && Step(s, e).history == s.history
  {
    assert Step(s, e).attempts == s.attempts && Step(s, e).clock == s.clock;
  }

  lemma StepInv(s: Supervisor, e: Event)
    requires Inv(s)
    ensures Inv(Step(s, e)) && (s.baseline.Some? ==> Step(s, e).baseline == s.baseline)
    ensures s.history <= Step(s, e).history
  {
    if e.Disposed? {
      DisposedInv(s, e.readings);
    } else if e.Attempt? {
      AttemptInv(s, e.now);
    } else {
      OtherInv(s, e);
    }
  }

  ghost function Run(s: Supervisor, events: seq<Event>): (t: Supervisor)
    requires Inv(s)
    ensures Inv(t)
    decreases |events|
  {
    if events == [] then s
    else
      StepInv(s, events[0]);
      Run(Step(s, events[0]), events[1..])
  }

  // With a non-decreasing clock any four consecutive recovery attempts span at least five minutes.
  lemma AttemptsAreSpread(events: seq<Event>, k: nat)
    requires k + 3 < |Run(INITIAL, events).history|
    ensures Run(INITIAL, events).history[k + 3] - Run(INITIAL, events).history[k] >= WINDOW
  {
    assert Spread(Run(INITIAL, events).history);
  }

  // The baseline never changes once it is set.
  lemma {:induction false} BaselineStays(s: Supervisor, events: seq<Event>)
    requires Inv(s) && s.baseline.Some?
    ensures Run(s, events).baseline == s.baseline
    decreases |events|
  {
    if events != [] {
      StepInv(s, events[0]);
      BaselineStays(Step(s, events[0]), events[1..]);
    }
  }

  // ----- Readiness -----

  // Readiness means that the current runtime's output is the baseline's.
  predicate Matches(s: Supervisor) {
    s.ready ==> s.baseline.Some? && s.parity == s.baseline
  }

  // Readiness matches, and recovery is not about to put another runtime under it.
  predicate Guarded(s: Supervisor) {
    && Matches(s)
    && (s.ready && s.phase in {Disposing, AtTop, Waiting, Trying} ==> s.phase == AtTop && |s.attempts| >= ATTEMPTS)
  }

  // The ready callback throws for a candidate that is not the last one allowed.
  predicate Exposes(s: Supervisor, e: Event) {
    Succeeds(s, e) && e.throws && |s.attempts| < ATTEMPTS
  }

  // A step keeps readiness guarded exactly if the ready callback does not throw there.
  lemma StepGuarded(s: Supervisor, e: Event)
    requires Inv(s) && Guarded(s)
    ensures Guarded(Step(s, e)) <==> !Exposes(s, e)
  {
  }

  // After such an exception the next attempt puts an unmeasured runtime behind a set ready flag.
  lemma ThrowExposes(s: Supervisor, e: Event, now: int)
    requires Inv(s) && Exposes(s, e) && now >= s.clock
    ensures Inv(Step(s, e)) && !Matches(Run(Step(s, e), [Attempt(now), WaitEnds]))
  {
    StepInv(s, e);
    var t := Step(s, e);
    assert [Attempt(now), WaitEnds][1..] == [WaitEnds] && [WaitEnds][1..] == [];
    StepInv(t, Attempt(now));
    assert Run(t, [Attempt(now), WaitEnds]) == Run(Step(t, Attempt(now)), [WaitEnds]);
    StepInv(Step(t, Attempt(now)), WaitEnds);
    assert Run(Step(t, Attempt(now)), [WaitEnds]) == Run(Step(Step(t, Attempt(now)), WaitEnds), []);
  }

  // Nowhere in the run does the ready callback throw before the last attempt.
  predicate NeverExposed(s: Supervisor, events: seq<Event>)
    decreases |events|
  {
    events != [] ==> !Exposes(s, events[0]) && NeverExposed(Step(s, events[0]), events[1..])
  }

  // All along the run, readiness is guarded.
  predicate AlwaysGuarded(s: Supervisor, events: seq<Event>)
    decreases |events|
  {
    Guarded(s) && (events != [] ==> AlwaysGuarded(Step(s, events[0]), events[1..]))
  }

  lemma {:induction false} GuardedExactly(s: Supervisor, events: seq<Event>)
    requires Inv(s) && Guarded(s)
    ensures AlwaysGuarded(s, events) <==> NeverExposed(s, events)
    decreases |events|
  {
    if events != [] {
      StepInv(s, events[0]);
      StepGuarded(s, events[0]);
      if !Exposes(s, events[0]) {
        GuardedExactly(Step(s, events[0]), events[1..]);
      }
    }
  }

  // Readiness means that the current runtime matches the baseline, as long as no callback throws too early.
  lemma {:induction false} ReadyMatchesBaseline(s: Supervisor, events: seq<Event>)
    requires Inv(s) && Guarded(s) && NeverExposed(s, events)
    ensures Guarded(Run(s, events))
    decreases |events|
  {
    if events != [] {
      StepInv(s, events[0]);
      StepGuarded(s, events[0]);
      ReadyMatchesBaseline(Step(s, events[0]), events[1..]);
    }
  }

  // A candidate becomes current while the ready flag is set; nothing has been measured for it.
  predicate Unmeasured(s: Supervisor, e: Event) {
    e.WaitEnds? && s.phase == Waiting && !s.stopping && s.ready
  }

  // A step keeps readiness true to the baseline exactly if it puts no unmeasured candidate under a set flag.
  lemma StepMatches(s: Supervisor, e: Event)
    requires Inv(s) && Matches(s)
    ensures Matches(Step(s, e)) <==> !Unmeasured(s, e)
  {
  }

  predicate NeverUnmeasured(s: Supervisor, events: seq<Event>)
    decreases |events|
  {
    events != [] ==> !Unmeasured(s, events[0]) && NeverUnmeasured(Step(s, events[0]), events[1..])
  }

  // All along the run, readiness means the baseline's output.
  predicate AlwaysMatches(s: Supervisor, events: seq<Event>)
    decreases |events|
  {
    Matches(s) && (events != [] ==> AlwaysMatches(Step(s, events[0]), events[1..]))
  }

  lemma {:induction false} MatchesExactly(s: Supervisor, events: seq<Event>)
    requires Inv(s) && Matches(s)
    ensures AlwaysMatches(s, events) <==> NeverUnmeasured(s, events)
    decreases |events|
  {
    if events != [] {
      StepInv(s, events[0]);
      StepMatches(s, events[0]);
      if !Unmeasured(s, events[0]) {
        MatchesExactly(Step(s, events[0]), events[1..]);
      }
    }
  }

  // ----- What each event does -----

  // The first load that ends with a ready runtime gives the baseline; no other load changes anything.
  lemma FirstLoadDecides(s: Supervisor, output: string, runtimeReady: bool)
    ensures var t := Step(s, Loaded(output, runtimeReady));
            if !s.stopping && s.baseline.None? && runtimeReady then
              && t.baseline == Some(output) && t.parity == Some(output) && t.ready && !t.stopping
              && t.phase == s.phase && t.attempts == s.attempts && t.history == s.history
            else t == s
  {
  }

  // A runtime that becomes unavailable after the first load is not ready, and recovery begins unless it is under way.
  lemma UnavailableRecovers(s: Supervisor)
    requires Inv(s) && s.baseline.Some?
    ensures var t := Step(s, Unavailable);
            && !t.ready && t.baseline == s.baseline && t.attempts == s.attempts && t.history == s.history
            && t.phase == (if s.phase == Idle && !s.stopping then Disposing else s.phase)
            && t.stopping == s.stopping && t.clock == s.clock
  {
  }

  // Where the attempts that are kept stand among the old ones.
  function KeptOf(attempts: seq<int>, readings: seq<int>): seq<nat>
    requires |readings| == |attempts|
  {
    if attempts == [] then []
    else
      var last := |attempts| - 1;
      KeptOf(attempts[..last], readings[..last])
      + if readings[last] - attempts[last] < 300_000 then [last] else []
  }

  lemma {:induction false} KeptAt(attempts: seq<int>, readings: seq<int>, k: nat)
    requires |readings| == |attempts|
    ensures k in KeptOf(attempts, readings) <==> k < |attempts| && readings[k] - attempts[k] < 300_000
  {
    if attempts != [] {
      var last := |attempts| - 1;
      var front := KeptOf(attempts[..last], readings[..last]);
      KeptAt(attempts[..last], readings[..last], k);
      assert k in front + [last] <==> k in front || k == last;
    }
  }

  lemma {:induction false} KeptRise(attempts: seq<int>, readings: seq<int>)
    requires |readings| == |attempts|
    ensures forall j, k | 0 <= j < k < |KeptOf(attempts, readings)| ::
              KeptOf(attempts, readings)[j] < KeptOf(attempts, readings)[k]
  {
    if attempts != [] {
      var last := |attempts| - 1;
      var front := KeptOf(attempts[..last], readings[..last]);
      KeptRise(attempts[..last], readings[..last]);
      forall j | 0 <= j < |front|
        ensures front[j] < last
      {
        KeptAt(attempts[..last], readings[..last], front[j]);
      }
    }
  }

  lemma {:induction false} FilteredAre(attempts: seq<int>, readings: seq<int>)
    requires |readings| == |attempts|
    ensures var kept := KeptOf(attempts, readings);
            && |Filtered(attempts, readings)| == |kept|
            && forall j | 0 <= j < |kept| ::
                 kept[j] < |attempts| && Filtered(attempts, readings)[j] == attempts[kept[j]]
  {
    if attempts != [] {
      FilteredAre(attempts[..|attempts| - 1], readings[..|attempts| - 1]);
    }
  }

  /** After the old runtime is gone the attempts of the last five minutes are kept, in order, and no others. */
  lemma OldAttemptsGo(s: Supervisor, readings: seq<int>) returns (kept: seq<nat>)
    requires s.phase == Disposing && |readings| == |s.attempts| && Later(s.clock, readings)
    ensures var t := Step(s, Disposed(readings));
            && t.phase == AtTop && t.history == s.history && t.ready == s.ready && t.baseline == s.baseline
            && t.stopping == s.stopping && t.clock >= s.clock
            && (forall j, k | 0 <= j < k < |kept| :: kept[j] < kept[k])
            && (forall k: nat :: k in kept <==> k < |s.attempts| && readings[k] - s.attempts[k] < 300_000)
            && |t.attempts| == |kept|
            && (forall j | 0 <= j < |kept| :: kept[j] < |s.attempts| && t.attempts[j] == s.attempts[kept[j]])
  {
    kept := KeptOf(s.attempts, readings);
    KeptRise(s.attempts, readings);
    FilteredAre(s.attempts, readings);
    forall k: nat
      ensures k in kept <==> k < |s.attempts| && readings[k] - s.attempts[k] < 300_000
    {
      KeptAt(s.attempts, readings, k);
    }
  }

  /** The first recent attempt waits 250 milliseconds, the second 1 000, the third 5 000; there is no fourth. */
  lemma WaitsAre(s: Supervisor, now: int)
    requires Inv(s) && s.phase == AtTop && !s.stopping && now >= s.clock
    ensures var t := Step(s, Attempt(now));
            && (|s.attempts| == 0 ==> t.backoff == 250)
            && (|s.attempts| == 1 ==> t.backoff == 1_000)
            && (|s.attempts| == 2 ==> t.backoff == 5_000)
            && (if |s.attempts| < 3 then
                  && t.phase == Waiting && t.attempts == s.attempts + [now] && t.history == s.history + [now]
                  && t.ready == s.ready && t.baseline == s.baseline && !t.stopping && t.clock == now
                else t == s)
  {
  }

  // After the wait an unmeasured candidate is tried, or recovery ends because the supervisor stops.
  lemma WaitLeadsOn(s: Supervisor)
    requires s.phase == Waiting
    ensures var t := Step(s, WaitEnds);
            && t.ready == s.ready && t.baseline == s.baseline && t.attempts == s.attempts && t.history == s.history
            && t.stopping == s.stopping && t.clock == s.clock
            && (if s.stopping then t.phase == Returned && t.parity == s.parity
                else t.phase == Trying && t.parity.None?)
  {
  }

  /**
    A candidate is accepted exactly if the supervisor goes on, the candidate has the first runtime's identity, is
    ready, and gave the baseline; then recovery is over. Otherwise the loop goes on and readiness stays as it was.
   */
  lemma CandidateDecides(s: Supervisor, output: string, sameIdentity: bool, runtimeReady: bool, throws: bool)
    requires Inv(s) && s.phase == Trying
    ensures var t := Step(s, Candidate(output, sameIdentity, runtimeReady, throws));
            && t.baseline == s.baseline && t.attempts == s.attempts && t.history == s.history
            && t.stopping == s.stopping && t.clock == s.clock
            && (if !s.stopping && sameIdentity && runtimeReady && s.baseline == Some(output) then
                  t.ready && t.parity == s.baseline && t.phase == (if throws then AtTop else Returned)
                else t.phase == AtTop && t.ready == s.ready && t.parity == s.parity)
  {
  }

  // Recovery ends after an accepted candidate, and at the top of the loop when there is no further attempt.
  lemma RecoveryIsOver(s: Supervisor)
    requires Inv(s)
    ensures Step(s, RecoveryEnds)
         == if s.phase == Returned || (s.phase == AtTop && (s.stopping || |s.attempts| == 3)) then s.(phase := Idle)
            else s
    ensures Step(s, RecoveryRejected)
         == if s.phase == Idle || s.phase == Returned then s else s.(phase := Returned)
  {
  }

  // Stopping is final and ends readiness at once.
  lemma StopIsFinal(s: Supervisor, events: seq<Event>)
    requires Inv(s)
    ensures Inv(Step(s, Dispose)) && Run(Step(s, Dispose), events).stopping && !Run(Step(s, Dispose), events).ready
  {
    StepInv(s, Dispose);
    StaysStopped(Step(s, Dispose), events);
  }

  lemma {:induction false} StaysStopped(s: Supervisor, events: seq<Event>)
    requires Inv(s) && s.stopping
    ensures Run(s, events).stopping && !Run(s, events).ready
    decreases |events|
  {
    if events != [] {
      StepInv(s, events[0]);
      StaysStopped(Step(s, events[0]), events[1..]);
    }
  }

  // One round of the loop: an attempt, its wait, and a candidate.
  function Round(s: Supervisor, now: int, candidate: Event): Supervisor {
    Step(Step(Step(s, Attempt(now)), WaitEnds), candidate)
  }

  lemma RoundIs(s: Supervisor, now: int, candidate: Event)
    requires Inv(s) && s.phase == AtTop && !s.stopping && |s.attempts| < 3 && now >= s.clock && candidate.Candidate?
    ensures var t := Round(s, now, candidate);
            && Inv(t) && t.baseline == s.baseline && t.attempts == s.attempts + [now] && !t.stopping && t.clock == now
            && (if candidate.sameIdentity && candidate.runtimeReady && s.baseline == Some(candidate.output) then
                  t.ready && t.parity == s.baseline && t.phase == (if candidate.throws then AtTop else Returned)
                else t.phase == AtTop && t.ready == s.ready)
  {
    var a := Step(s, Attempt(now));
    WaitsAre(s, now);
    StepInv(s, Attempt(now));
    var b := Step(a, WaitEnds);
    WaitLeadsOn(a);
    StepInv(a, WaitEnds);
    CandidateDecides(b, candidate.output, candidate.sameIdentity, candidate.runtimeReady, candidate.throws);
    StepInv(b, candidate);
  }

  // The state at the top of the loop after a runtime that was ready has gone.
  function Lost(s: Supervisor, readings: seq<int>): Supervisor {
    Step(Step(s, Unavailable), Disposed(readings))
  }

  lemma LostIs(s: Supervisor, readings: seq<int>)
    requires Inv(s) && s.ready && s.phase == Idle && |readings| == |s.attempts| && Later(s.clock, readings)
    ensures var t := Lost(s, readings);
            && Inv(t) && !t.ready && t.phase == AtTop && !t.stopping && t.baseline == s.baseline && s.baseline.Some?
            && t.clock >= s.clock
            && ((forall k | 0 <= k < |readings| :: readings[k] - s.attempts[k] >= 300_000) ==> t.attempts == [])
  {
    UnavailableRecovers(s);
    StepInv(s, Unavailable);
    var a := Step(s, Unavailable);
    var kept := OldAttemptsGo(a, readings);
    StepInv(a, Disposed(readings));
    if kept != [] {
      assert kept[0] in kept;
    }
  }

  /** A runtime that is lost with fewer than three recent attempts is replaced by the first candidate that matches. */
  lemma RecoverySucceeds(s: Supervisor, readings: seq<int>, now: int)
    requires Inv(s) && s.ready && s.phase == Idle && |readings| == |s.attempts| && Later(s.clock, readings)
    requires now >= LastOf(s.clock, readings) && |Lost(s, readings).attempts| < 3
    ensures s.baseline.Some?
    ensures var t := Step(Round(Lost(s, readings), now, Candidate(s.baseline.value, true, true, false)), RecoveryEnds);
            t.ready && t.phase == Idle && t.parity == s.baseline == t.baseline
  {
    LostIs(s, readings);
    assert Lost(s, readings).clock == LastOf(s.clock, readings);
    var c := Candidate(s.baseline.value, true, true, false);
    RoundIs(Lost(s, readings), now, c);
    RecoveryIsOver(Round(Lost(s, readings), now, c));
  }

  /** Three candidates in a row that do not match: recovery gives up, and the supervisor is not ready. */
  lemma GivesUpAfterThree(s: Supervisor, readings: seq<int>, times: seq<int>, candidates: seq<Event>)
    requires Inv(s) && s.ready && s.phase == Idle && |readings| == |s.attempts| && Later(s.clock, readings)
    requires forall k | 0 <= k < |readings| :: readings[k] - s.attempts[k] >= 300_000
    requires |times| == 3 && LastOf(s.clock, readings) <= times[0] <= times[1] <= times[2]
    requires |candidates| == 3 && forall k | 0 <= k < 3 ::
               candidates[k].Candidate? && !candidates[k].sameIdentity
    ensures var a := Round(Lost(s, readings), times[0], candidates[0]);
            var c := Round(Round(a, times[1], candidates[1]), times[2], candidates[2]);
            c.attempts == times && !Step(c, RecoveryEnds).ready && Step(c, RecoveryEnds).phase == Idle
  {
    LostIs(s, readings);
    assert Lost(s, readings).clock == LastOf(s.clock, readings);
    var a := Round(Lost(s, readings), times[0], candidates[0]);
    RoundIs(Lost(s, readings), times[0], candidates[0]);
    var b := Round(a, times[1], candidates[1]);
    RoundIs(a, times[1], candidates[1]);
    var c := Round(b, times[2], candidates[2]);
    RoundIs(b, times[2], candidates[2]);
    RecoveryIsOver(c);
    assert times == [] + [times[0]] + [times[1]] + [times[2]];
  }

  // ----- The supervisor, updated in place -----

  class SupervisedPrivacyRuntime {
    var attempts: seq<int>
    var baseline: Option<string>
    var parity: Option<string>
    var ready: bool
    var phase: Phase
    var stopping: bool
    var backoff: int
    ghost var clock: int
    ghost var history: seq<int>

    ghost function State(): Supervisor
      reads this
    {
      Supervisor(attempts, baseline, parity, ready, phase, stopping, backoff, clock, history)
    }

    constructor ()
      ensures State() == INITIAL && Inv(State())
    {
      attempts, baseline, parity, ready, phase := [], None, None, false, Idle;
      stopping, backoff, clock, history := false, 0, 0, [];
    }

    method StartRecovery()
      requires Inv(State()) && baseline.Some?
      modifies this`ready, this`phase
      ensures State() == Step(old(State()), Unavailable) && Inv(State())
      ensures !ready
    {
      StepInv(State(), Unavailable);
      ready := false;
      if phase == Idle && !stopping {
        phase := Disposing;
      }
    }

    // The old runtime is gone: attempts of more than five minutes ago are forgotten, and the loop is entered.
    method ForgetAttempts(readings: seq<int>)
      requires Inv(State()) && phase == Disposing && |readings| == |attempts| && Later(clock, readings)
      modifies this`attempts, this`phase, this`clock
      ensures State() == Step(old(State()), Disposed(readings)) && Inv(State())
    {
      StepInv(State(), Disposed(readings));
      attempts := FilterAttempts(attempts, readings);
      phase := AtTop;
      clock := LastOf(clock, readings);
    }

    // The top of the loop: another attempt if one is allowed, else the end.
    method NextAttempt(now: int) returns (again: bool)
      requires Inv(State()) && phase == AtTop && now >= clock
      modifies this`attempts, this`phase, this`backoff, this`clock, this`history
      ensures again <==> !old(stopping) && |old(attempts)| < ATTEMPTS
      ensures State() == Step(old(State()), if again then Attempt(now) else RecoveryEnds) && Inv(State())
      ensures again ==> backoff == if |old(attempts)| == 0 then 250 else if |old(attempts)| == 1 then 1_000 else 5_000
    {
      again := !stopping && |attempts| < ATTEMPTS;
      StepInv(State(), if again then Attempt(now) else RecoveryEnds);
      if again {
        backoff := BACKOFFS[|attempts|];
        attempts := attempts + [now];
        history := history + [now];
        clock := now;
        phase := Waiting;
      } else {
        phase := Idle;
      }
    }

    method EndWait()
      requires Inv(State()) && phase == Waiting
      modifies this`phase, this`parity
      ensures State() == Step(old(State()), WaitEnds) && Inv(State())
    {
      StepInv(State(), WaitEnds);
      if stopping {
        phase := Returned;
      } else {
        phase := Trying;
        parity := None;
      }
    }

    // The candidate has been loaded and measured; `throws` tells what the ready callback does.
    method TryCandidate(output: string, sameIdentity: bool, runtimeReady: bool, throws: bool) returns (restored: bool)
      requires Inv(State()) && phase == Trying
      modifies this`phase, this`parity, this`ready
      ensures State() == Step(old(State()), Candidate(output, sameIdentity, runtimeReady, throws)) && Inv(State())
      ensures restored <==> old(Succeeds(State(), Candidate(output, sameIdentity, runtimeReady, throws)))
      ensures restored ==> ready && parity == baseline
    {
      StepInv(State(), Candidate(output, sameIdentity, runtimeReady, throws));
      restored := !stopping && sameIdentity && runtimeReady && baseline == Some(output);
      if restored {
        ready := true;
        parity := Some(output);
      }
      phase := if restored && !throws then Returned else AtTop;
    }

    method Stop()
      requires Inv(State())
      modifies this`stopping, this`ready
      ensures State() == Step(old(State()), Dispose) && Inv(State())
    {
      StepInv(State(), Dispose);
      stopping := true;
      ready := false;
    }
  }
}
