/**
  Admission of requests in front of the two-worker pool.

  The server hands out at most two reservations, the runtime prepares at most two requests at a
  time, and each request runs at most two runners, each waiting for one pool job at a time. Whatever
  the order of arrivals, aborts, completions and releases, the limits inside the runtime and the
  pool are then never what refuses an admitted request.
 */
module Admission {
  import opened Sequences
  import P = OnnxPool

  const MAXIMUM_REQUESTS := 2
  const CONCURRENT_FIELDS := 2

  // A runner of one request: about to ask for an inference, waiting for one, or done.
  datatype Runner = Stepping | Awaiting(job: P.Job) | Ended

  // A request, from its reservation to the release of it.
  datatype Phase = Reserved | Claimed | Working(runners: seq<Runner>) | Released

  /**
    `activeRequests` is the server's counter and `batchRequests` the size of the runtime's set.
    `poolRefused` and `preparationRefused` remember that a capacity limit refused a request.
   */
  datatype System = System(
    pool: P.Pool,
    requests: seq<Phase>,
    activeRequests: int,
    batchRequests: int,
    poolRefused: bool,
    preparationRefused: bool)

  const INITIAL := System(P.INITIAL, [], 0, 0, false, false)

  datatype Event =
    | Reserve
    | Claim(request: nat)
    | BeginWork(request: nat)
    | StartRunners(request: nat, tasks: nat)
    | Infer(request: nat, runner: nat, positions: int, signalAborted: bool, throws: P.Job -> bool)
    | Resume(request: nat, runner: nat)
    | EndRunner(request: nat, runner: nat)
    | EndWork(request: nat)
    | Release(request: nat)
    | PoolActs(action: P.Action)

  // ----- Steps -----

  function Advertised(pool: P.Pool): nat {
    if forall i | 0 <= i < |pool.slots| :: pool.slots[i].ready then 2 else 1
  }

  predicate InPhase(s: System, r: nat) {
    r < |s.requests| && s.requests[r].Working?
  }

  predicate HasRunner(s: System, r: nat, i: nat) {
    InPhase(s, r) && i < |s.requests[r].runners|
  }

  function SetRunner(s: System, r: nat, i: nat, runner: Runner): System
    requires HasRunner(s, r, i)
  {
    s.(requests := s.requests[r := Working(s.requests[r].runners[i := runner])])
  }

  predicate AllEnded(runners: seq<Runner>) {
    forall i | 0 <= i < |runners| :: runners[i].Ended?
  }

  function Starting(tasks: nat): (runners: seq<Runner>)
    ensures |runners| == Min(CONCURRENT_FIELDS, tasks)
    ensures forall i | 0 <= i < |runners| :: runners[i] == Stepping
  {
    seq(Min(CONCURRENT_FIELDS, tasks), _ => Stepping)
  }

  // The signal of a request, which is also its group in the pool.
  function SignalOf(r: nat): P.Group {
    P.Request(r)
  }

  function Ask(s: System, r: nat, i: nat, positions: int, signalAborted: bool, throws: P.Job -> bool): System
    requires HasRunner(s, r, i) && P.Inv(s.pool)
  {
    var action := P.Action(P.Event.Enqueue(SignalOf(r), positions, signalAborted), throws);
    if signalAborted then SetRunner(s, r, i, Ended)
    else if !P.Accepts(s.pool, positions) then
      SetRunner(s, r, i, Ended).(poolRefused := s.poolRefused || s.pool.outstanding >= P.MAXIMUM_OUTSTANDING)
    else
      SetRunner(s, r, i, Awaiting(P.Job(|s.pool.accepted|, positions, SignalOf(r)))).(pool := P.Step(s.pool, action))
  }

  predicate HasSettled(pool: P.Pool, job: P.Job) {
    exists n :: 0 <= n < |pool.settled| && pool.settled[n].job == job
  }

  /**
    One step; an event that cannot happen now changes nothing. A request leaves `Working` only when
    every runner has ended, and its reservation is given back only after that.
   */
  ghost function Step(s: System, e: Event): System
    requires P.Inv(s.pool)
  {
    match e
    case Reserve =>
      if !P.IsReady(s.pool) || s.activeRequests >= Min(MAXIMUM_REQUESTS, Advertised(s.pool)) then s
      else s.(requests := s.requests + [Reserved], activeRequests := s.activeRequests + 1)
    case Claim(r) =>
      if r < |s.requests| && s.requests[r].Reserved? then s.(requests := s.requests[r := Claimed]) else s
    case BeginWork(r) =>
      if !(r < |s.requests| && s.requests[r].Claimed?) then s
      else if s.batchRequests >= CONCURRENT_FIELDS then s.(preparationRefused := true)
      else s.(requests := s.requests[r := Working([])], batchRequests := s.batchRequests + 1)
    case StartRunners(r, tasks) =>
      if InPhase(s, r) && AllEnded(s.requests[r].runners) then
        s.(requests := s.requests[r := Working(Starting(tasks))])
      else s
    case Infer(r, i, positions, signalAborted, throws) =>
      if HasRunner(s, r, i) && s.requests[r].runners[i].Stepping?
      then Ask(s, r, i, positions, signalAborted, throws) else s
    case Resume(r, i) =>
      if HasRunner(s, r, i) && s.requests[r].runners[i].Awaiting? && HasSettled(s.pool, s.requests[r].runners[i].job)
      then SetRunner(s, r, i, Stepping) else s
    case EndRunner(r, i) =>
      if HasRunner(s, r, i) && s.requests[r].runners[i].Stepping? then SetRunner(s, r, i, Ended) else s
    case EndWork(r) =>
      if InPhase(s, r) && AllEnded(s.requests[r].runners)
      then s.(requests := s.requests[r := Claimed], batchRequests := s.batchRequests - 1) else s
    case Release(r) =>
      if r < |s.requests| && (s.requests[r].Reserved? || s.requests[r].Claimed?)
      then s.(requests := s.requests[r := Released], activeRequests := s.activeRequests - 1) else s
    case PoolActs(action) =>
      if action.event.Enqueue? then s else s.(pool := P.Step(s.pool, action))
  }

  // ----- What the counters count -----

  function Holds(p: Phase): nat {
    if p.Released? then 0 else 1
  }

  function Works(p: Phase): nat {
    if p.Working? then 1 else 0
  }

  function Held(requests: seq<Phase>): nat {
    if requests == [] then 0 else Holds(requests[0]) + Held(requests[1..])
  }

  function AtWork(requests: seq<Phase>): nat {
    if requests == [] then 0 else Works(requests[0]) + AtWork(requests[1..])
  }

  function RunnersAwait(runners: seq<Runner>): seq<P.Job> {
    if runners == [] then [] else (if runners[0].Awaiting? then [runners[0].job] else []) + RunnersAwait(runners[1..])
  }

  function Awaits(p: Phase): seq<P.Job> {
    if p.Working? then RunnersAwait(p.runners) else []
  }

  // Every pool job some runner waits for.
  function Awaited(requests: seq<Phase>): seq<P.Job> {
    if requests == [] then [] else Awaits(requests[0]) + Awaited(requests[1..])
  }

  function Live(pool: P.Pool): seq<P.Job>
    requires |pool.slots| == P.SLOTS
  {
    P.QueuedJobs(pool.queues) + P.RunningJobs(pool.slots)
  }

  predicate FewRunners(p: Phase) {
    p.Working? ==> |p.runners| <= CONCURRENT_FIELDS
  }

  ghost predicate Covered(live: seq<P.Job>, awaited: seq<P.Job>) {
    forall x {:trigger P.Count(live, x)} {:trigger P.Count(awaited, x)} :: P.Count(live, x) <= P.Count(awaited, x)
  }

  /**
    The counters are right, at most two requests are held, and every job in the pool is one that a
    runner waits for.
   */
  ghost predicate Inv(s: System) {
    && P.Inv(s.pool)
    && s.activeRequests == Held(s.requests) <= MAXIMUM_REQUESTS
    && s.batchRequests == AtWork(s.requests)
    && (forall r | 0 <= r < |s.requests| :: FewRunners(s.requests[r]))
    && Covered(Live(s.pool), Awaited(s.requests))
    && !s.poolRefused && !s.preparationRefused
  }

  // ----- Sums over the requests -----

  lemma {:induction false} HeldChanged(requests: seq<Phase>, r: nat, p: Phase)
    requires r < |requests|
    ensures Held(requests[r := p]) + Holds(requests[r]) == Held(requests) + Holds(p)
    ensures AtWork(requests[r := p]) + Works(requests[r]) == AtWork(requests) + Works(p)
  {
    var after := requests[r := p];
    if r > 0 {
      HeldChanged(requests[1..], r - 1, p);
      assert after[1..] == requests[1..][r - 1 := p];
    } else {
      assert after[1..] == requests[1..];
    }
  }

  lemma {:induction false} HeldAppended(requests: seq<Phase>)
    ensures Held(requests + [Reserved]) == Held(requests) + 1
    ensures AtWork(requests + [Reserved]) == AtWork(requests)
    ensures Awaited(requests + [Reserved]) == Awaited(requests)
  {
    if requests == [] {
      assert requests + [Reserved] == [Reserved];
    } else {
      HeldAppended(requests[1..]);
      assert (requests + [Reserved])[1..] == requests[1..] + [Reserved];
    }
  }

  lemma {:induction false} AwaitedChanged(requests: seq<Phase>, r: nat, p: Phase, x: P.Job)
    requires r < |requests|
    ensures P.Count(Awaited(requests[r := p]), x) + P.Count(Awaits(requests[r]), x)
        == P.Count(Awaited(requests), x) + P.Count(Awaits(p), x)
  {
    var after := requests[r := p];
    P.CountAppend(Awaits(requests[0]), Awaited(requests[1..]), x);
    P.CountAppend(Awaits(after[0]), Awaited(after[1..]), x);
    if r > 0 {
      AwaitedChanged(requests[1..], r - 1, p, x);
      assert after[1..] == requests[1..][r - 1 := p];
    } else {
      assert after[1..] == requests[1..];
    }
  }

  lemma {:induction false} RunnerChanged(runners: seq<Runner>, i: nat, runner: Runner, x: P.Job)
    requires i < |runners|
    ensures P.Count(RunnersAwait(runners[i := runner]), x) + P.Count(RunnersAwait([runners[i]]), x)
         == P.Count(RunnersAwait(runners), x) + P.Count(RunnersAwait([runner]), x)
  {
    var after := runners[i := runner];
    HeadAwaits(runners, x);
    HeadAwaits(after, x);
    if i > 0 {
      RunnerChanged(runners[1..], i - 1, runner, x);
      assert after[1..] == runners[1..][i - 1 := runner];
    } else {
      assert after[1..] == runners[1..];
    }
  }

  lemma HeadAwaits(runners: seq<Runner>, x: P.Job)
    requires runners != []
    ensures P.Count(RunnersAwait(runners), x)
        == P.Count(RunnersAwait([runners[0]]), x) + P.Count(RunnersAwait(runners[1..]), x)
  {
    var own := if runners[0].Awaiting? then [runners[0].job] else [];
    assert RunnersAwait([runners[0]]) == own + RunnersAwait([]) == own;
    P.CountAppend(own, RunnersAwait(runners[1..]), x);
  }

  lemma {:induction false} NobodyAwaits(runners: seq<Runner>)
    requires forall i | 0 <= i < |runners| :: !runners[i].Awaiting?
    ensures RunnersAwait(runners) == []
  {
    if runners != [] {
      NobodyAwaits(runners[1..]);
    }
  }

  // What one runner's change does to the awaited jobs.
  lemma SetRunnerAwaits(s: System, r: nat, i: nat, runner: Runner, x: P.Job)
    requires HasRunner(s, r, i)
    ensures P.Count(Awaited(SetRunner(s, r, i, runner).requests), x)
        + P.Count(RunnersAwait([s.requests[r].runners[i]]), x)
         == P.Count(Awaited(s.requests), x) + P.Count(RunnersAwait([runner]), x)
  {
    RunnerChanged(s.requests[r].runners, i, runner, x);
    AwaitedChanged(s.requests, r, Working(s.requests[r].runners[i := runner]), x);
  }

  // ----- Fewer jobs than runners -----

  lemma {:induction false} CoveredLength(live: seq<P.Job>, awaited: seq<P.Job>)
    requires Covered(live, awaited)
    ensures |live| <= |awaited|
    decreases |live|
  {
    if live != [] {
      var job := live[0];
      P.CountPositive(awaited, job);
      assert P.Count(live, job) >= 1;
      var rest := P.Without(awaited, job);
      P.WithoutJobs(awaited, job, job);
      forall x ensures P.Count(live[1..], x) <= P.Count(rest, x) {
        P.WithoutJobs(awaited, job, x);
        assert P.Count(live, x) <= P.Count(awaited, x);
      }
      CoveredLength(live[1..], rest);
    }
  }

  lemma {:induction false} AwaitsFew(runners: seq<Runner>)
    ensures |RunnersAwait(runners)| <= |runners|
    ensures (exists i :: 0 <= i < |runners| && runners[i].Stepping?) ==> |RunnersAwait(runners)| < |runners|
  {
    if runners != [] {
      AwaitsFew(runners[1..]);
      if i :| 0 < i < |runners| && runners[i].Stepping? {
        assert runners[1..][i - 1].Stepping?;
      }
    }
  }

  lemma {:induction false} AwaitedFew(requests: seq<Phase>)
    requires forall r | 0 <= r < |requests| :: FewRunners(requests[r])
    ensures |Awaited(requests)| <= CONCURRENT_FIELDS * AtWork(requests) && AtWork(requests) <= Held(requests)
  {
    if requests != [] {
      assert FewRunners(requests[0]);
      AwaitedFew(requests[1..]);
      if requests[0].Working? {
        AwaitsFew(requests[0].runners);
      }
    }
  }

  lemma {:induction false} SomeoneSteps(requests: seq<Phase>, r: nat, i: nat)
    requires forall k | 0 <= k < |requests| :: FewRunners(requests[k])
    requires r < |requests| && requests[r].Working? && i < |requests[r].runners| && requests[r].runners[i].Stepping?
    ensures |Awaited(requests)| < CONCURRENT_FIELDS * AtWork(requests)
  {
    assert FewRunners(requests[0]);
    if r > 0 {
      assert FewRunners(requests[1..][r - 1]);
      SomeoneSteps(requests[1..], r - 1, i);
      if requests[0].Working? {
        AwaitsFew(requests[0].runners);
      }
    } else {
      AwaitsFew(requests[0].runners);
      AwaitedFew(requests[1..]);
    }
  }

  // An admitted request always finds room in the pool.
  lemma RoomForInference(s: System, r: nat, i: nat)
    requires Inv(s) && HasRunner(s, r, i) && s.requests[r].runners[i].Stepping?
    ensures s.pool.outstanding < P.MAXIMUM_OUTSTANDING
    ensures forall positions | P.IsReady(s.pool) && 1 <= positions <= P.BATCH_POSITIONS :: P.Accepts(s.pool, positions)
  {
    CoveredLength(Live(s.pool), Awaited(s.requests));
    SomeoneSteps(s.requests, r, i);
    AwaitedFew(s.requests);
  }

  // ----- What a pool step does to the jobs in the pool -----

  lemma LiveIs(pool: P.Pool, x: P.Job)
    requires P.Inv(pool)
    ensures P.Count(Live(pool), x) + P.Count(P.SettledJobs(pool.settled), x) == P.Count(pool.accepted, x)
  {
    assert P.Placed(pool, x);
    P.CountAppend(P.QueuedJobs(pool.queues), P.RunningJobs(pool.slots), x);
  }

  // Whether this step brings the job into the pool.
  function Entering(pool: P.Pool, a: P.Action, x: P.Job): nat {
    if a.event.Enqueue? && !a.event.signalAborted && P.Accepts(pool, a.event.positions)
    then P.One(P.Job(|pool.accepted|, a.event.positions, a.event.group), x)
    else 0
  }

  lemma LiveAfter(pool: P.Pool, a: P.Action, x: P.Job)
    requires P.Inv(pool)
    ensures P.Inv(P.Step(pool, a))
    ensures P.Count(Live(P.Step(pool, a)), x) <= P.Count(Live(pool), x) + Entering(pool, a, x)
  {
    P.StepInv(pool, a);
    P.StepAccepted(pool, a);
    LiveIs(pool, x);
    LiveIs(P.Step(pool, a), x);
    P.SettledGrows(pool.settled, P.Step(pool, a).settled, x);
    if a.event.Enqueue? {
      P.CountAppend(pool.accepted, [P.Job(|pool.accepted|, a.event.positions, a.event.group)], x);
    }
  }

  lemma SettledIsNotLive(pool: P.Pool, job: P.Job)
    requires P.Inv(pool) && HasSettled(pool, job)
    ensures P.Count(Live(pool), job) == 0
  {
    var n :| 0 <= n < |pool.settled| && pool.settled[n].job == job;
    P.SettledAt(pool.settled, n);
    P.NumberedOnce(pool.accepted, job);
    LiveIs(pool, job);
  }

  // ----- Every step keeps the invariant -----

  // A request that nobody's job belongs to moves to another phase in which it awaits none.
  lemma PhaseCovered(s: System, r: nat, p: Phase)
    requires Inv(s) && r < |s.requests| && Awaits(s.requests[r]) == [] && Awaits(p) == []
    ensures Covered(Live(s.pool), Awaited(s.requests[r := p]))
  {
    forall x ensures P.Count(Live(s.pool), x) <= P.Count(Awaited(s.requests[r := p]), x) {
      AwaitedChanged(s.requests, r, p, x);
      assert P.Count(Live(s.pool), x) <= P.Count(Awaited(s.requests), x);
    }
  }

  // The request moves to another phase, and the counters follow.
  function Move(s: System, r: nat, p: Phase): System
    requires r < |s.requests|
  {
    s.(requests := s.requests[r := p],
       activeRequests := s.activeRequests + Holds(p) - Holds(s.requests[r]),
       batchRequests := s.batchRequests + Works(p) - Works(s.requests[r]))
  }

  lemma MoveInv(s: System, r: nat, p: Phase)
    requires Inv(s) && r < |s.requests| && Awaits(s.requests[r]) == [] && Awaits(p) == []
    requires FewRunners(p) && Holds(p) <= Holds(s.requests[r])
    ensures Inv(Move(s, r, p))
  {
    PhaseCovered(s, r, p);
    HeldChanged(s.requests, r, p);
  }

  lemma ClaimInv(s: System, e: Event)
    requires Inv(s) && (e.Claim? || e.Release?)
    ensures Inv(Step(s, e))
  {
    var r := e.request;
    if r < |s.requests| && e.Claim? && s.requests[r].Reserved? {
      MoveInv(s, r, Claimed);
      assert Step(s, e) == Move(s, r, Claimed);
    } else if r < |s.requests| && e.Release? && (s.requests[r].Reserved? || s.requests[r].Claimed?) {
      MoveInv(s, r, Released);
      assert Step(s, e) == Move(s, r, Released);
    } else {
      assert Step(s, e) == s;
    }
  }

  // Preparation is never refused: whoever asks for it is held and not at work.
  lemma BeginWorkInv(s: System, e: Event)
    requires Inv(s) && e.BeginWork?
    ensures Inv(Step(s, e))
  {
    var r := e.request;
    if r < |s.requests| && s.requests[r].Claimed? {
      IdleHolder(s.requests, r);
      assert s.batchRequests < CONCURRENT_FIELDS;
      MoveInv(s, r, Working([]));
      assert Step(s, e) == Move(s, r, Working([]));
    } else {
      assert Step(s, e) == s;
    }
  }

  lemma StartRunnersInv(s: System, e: Event)
    requires Inv(s) && e.StartRunners? && InPhase(s, e.request) && AllEnded(s.requests[e.request].runners)
    ensures Inv(Step(s, e))
  {
    var r, runners := e.request, Starting(e.tasks);
    NobodyAwaits(s.requests[r].runners);
    NobodyAwaits(runners);
    MoveInv(s, r, Working(runners));
    assert Step(s, e) == Move(s, r, Working(runners));
  }

  lemma EndWorkInv(s: System, e: Event)
    requires Inv(s) && e.EndWork? && InPhase(s, e.request) && AllEnded(s.requests[e.request].runners)
    ensures Inv(Step(s, e))
  {
    NobodyAwaits(s.requests[e.request].runners);
    MoveInv(s, e.request, Claimed);
    assert Step(s, e) == Move(s, e.request, Claimed);
  }

  lemma WorkInv(s: System, e: Event)
    requires Inv(s) && (e.StartRunners? || e.EndWork?)
    ensures Inv(Step(s, e))
  {
    if !InPhase(s, e.request) || !AllEnded(s.requests[e.request].runners) {
      assert Step(s, e) == s;
    } else if e.EndWork? {
      EndWorkInv(s, e);
    } else {
      StartRunnersInv(s, e);
    }
  }

  lemma PhaseInv(s: System, e: Event)
    requires Inv(s) && (e.Claim? || e.BeginWork? || e.StartRunners? || e.EndWork? || e.Release?)
    ensures Inv(Step(s, e))
  {
    if e.Claim? || e.Release? {
      ClaimInv(s, e);
    } else if e.BeginWork? {
      BeginWorkInv(s, e);
    } else {
      WorkInv(s, e);
    }
  }

  // A request that is held but not at work leaves room for its own preparation.
  lemma {:induction false} IdleHolder(requests: seq<Phase>, r: nat)
    requires r < |requests| && requests[r].Claimed?
    ensures AtWork(requests) < Held(requests)
  {
    if r > 0 {
      IdleHolder(requests[1..], r - 1);
    } else {
      WorkersHold(requests[1..]);
    }
  }

  lemma {:induction false} WorkersHold(requests: seq<Phase>)
    ensures AtWork(requests) <= Held(requests)
  {
    if requests != [] {
      WorkersHold(requests[1..]);
    }
  }

  lemma SetRunnerInv(s: System, r: nat, i: nat, runner: Runner)
    requires Inv(s) && HasRunner(s, r, i)
    requires !runner.Awaiting?
    requires s.requests[r].runners[i].Stepping?
        || (s.requests[r].runners[i].Awaiting? && HasSettled(s.pool, s.requests[r].runners[i].job))
    ensures Inv(SetRunner(s, r, i, runner))
  {
    var t := SetRunner(s, r, i, runner);
    var before := s.requests[r].runners[i];
    assert FewRunners(s.requests[r]);
    HeldChanged(s.requests, r, t.requests[r]);
    forall x ensures P.Count(Live(t.pool), x) <= P.Count(Awaited(t.requests), x) {
      SetRunnerAwaits(s, r, i, runner, x);
      NobodyAwaits([runner]);
      assert P.Count(Live(s.pool), x) <= P.Count(Awaited(s.requests), x);
      OneAwaits(before, x);
      if before.Awaiting? && before.job == x {
        SettledIsNotLive(s.pool, x);
      }
    }
  }

  lemma OneAwaits(runner: Runner, x: P.Job)
    ensures P.Count(RunnersAwait([runner]), x) == if runner.Awaiting? && runner.job == x then 1 else 0
  {
    assert RunnersAwait([runner]) == (if runner.Awaiting? then [runner.job] else []) + RunnersAwait([]);
    if runner.Awaiting? {
      assert RunnersAwait([runner]) == [runner.job];
    }
  }

  lemma InferInv(s: System, e: Event)
    requires Inv(s) && e.Infer?
    ensures Inv(Step(s, e))
  {
    var Infer(r, i, positions, signalAborted, throws) := e;
    if HasRunner(s, r, i) && s.requests[r].runners[i].Stepping? {
      RoomForInference(s, r, i);
      if signalAborted || !P.Accepts(s.pool, positions) {
        SetRunnerInv(s, r, i, Ended);
      } else {
        InferAcceptedInv(s, r, i, positions, throws);
      }
    }
  }

  lemma InferAcceptedInv(s: System, r: nat, i: nat, positions: int, throws: P.Job -> bool)
    requires Inv(s) && HasRunner(s, r, i) && s.requests[r].runners[i].Stepping? && P.Accepts(s.pool, positions)
    ensures Inv(Ask(s, r, i, positions, false, throws))
  {
    var t := Ask(s, r, i, positions, false, throws);
    var action := P.Action(P.Event.Enqueue(SignalOf(r), positions, false), throws);
    var job := P.Job(|s.pool.accepted|, positions, SignalOf(r));
    P.StepInv(s.pool, action);
    assert FewRunners(s.requests[r]);
    HeldChanged(s.requests, r, t.requests[r]);
    forall x ensures P.Count(Live(t.pool), x) <= P.Count(Awaited(t.requests), x) {
      LiveAfter(s.pool, action, x);
      SetRunnerAwaits(s, r, i, Awaiting(job), x);
      OneAwaits(Awaiting(job), x);
      OneAwaits(Stepping, x);
      assert P.Count(Live(s.pool), x) <= P.Count(Awaited(s.requests), x);
    }
  }

  lemma PoolInv(s: System, e: Event)
    requires Inv(s) && e.PoolActs?
    ensures Inv(Step(s, e))
  {
    if !e.action.event.Enqueue? {
      P.StepInv(s.pool, e.action);
      forall x ensures P.Count(Live(Step(s, e).pool), x) <= P.Count(Awaited(s.requests), x) {
        LiveAfter(s.pool, e.action, x);
        assert P.Count(Live(s.pool), x) <= P.Count(Awaited(s.requests), x);
      }
    }
  }

  lemma ReserveInv(s: System)
    requires Inv(s)
    ensures Inv(Step(s, Reserve))
  {
    HeldAppended(s.requests);
  }

  lemma StepInv(s: System, e: Event)
    requires Inv(s)
    ensures Inv(Step(s, e))
  {
    match e
    case Reserve => ReserveInv(s);
    case Claim(_) => PhaseInv(s, e);
    case BeginWork(_) => PhaseInv(s, e);
    case StartRunners(_, _) => PhaseInv(s, e);
    case Infer(_, _, _, _, _) => InferInv(s, e);
    case Resume(r, i) =>
      if HasRunner(s, r, i) && s.requests[r].runners[i].Awaiting? && HasSettled(s.pool, s.requests[r].runners[i].job) {
        SetRunnerInv(s, r, i, Stepping);
      }
    case EndRunner(r, i) =>
      if HasRunner(s, r, i) && s.requests[r].runners[i].Stepping? {
        SetRunnerInv(s, r, i, Ended);
      }
    case EndWork(_) => PhaseInv(s, e);
    case Release(_) => PhaseInv(s, e);
    case PoolActs(_) => PoolInv(s, e);
  }

  ghost function Run(s: System, events: seq<Event>): (t: System)
    requires Inv(s)
    ensures Inv(t)
    decreases |events|
  {
    if events == [] then s
    else
      StepInv(s, events[0]);
      Run(Step(s, events[0]), events[1..])
  }

  lemma InitialInv()
    ensures Inv(INITIAL)
  {
  }

  // The state of the system after a run from the start.
  ghost function Reached(events: seq<Event>): (s: System)
    ensures Inv(s)
  {
    InitialInv();
    Run(INITIAL, events)
  }

  /**
    In every run, with any aborts, completions, worker failures and releases: at most two requests
    are admitted, the preparation limit never refuses an admitted request, and the pool never
    refuses one of its inferences for lack of capacity.
   */
  lemma AdmittedIsServed(events: seq<Event>)
    ensures var s := Reached(events);
            && s.activeRequests <= MAXIMUM_REQUESTS && s.batchRequests <= CONCURRENT_FIELDS
            && !s.poolRefused && !s.preparationRefused
  {
    WorkersHold(Reached(events).requests);
  }
}
