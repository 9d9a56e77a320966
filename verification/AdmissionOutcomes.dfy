/**
  What each event does to a request: when one is admitted, how it gets to work, what becomes of its
  inferences, and that the advertised load is reached.
 */
module AdmissionOutcomes {
  import opened Sequences
  import opened Admission
  import P = OnnxPool
  import O = PoolOutcomes

  // ----- Admission -----

  function NotReleased(requests: seq<Phase>): set<nat> {
    set r: nat | r < |requests| && !requests[r].Released?
  }

  lemma {:induction false} HeldLast(requests: seq<Phase>, p: Phase)
    ensures Held(requests + [p]) == Held(requests) + Holds(p)
  {
    if requests == [] {
      assert requests + [p] == [p];
    } else {
      HeldLast(requests[1..], p);
      assert (requests + [p])[1..] == requests[1..] + [p];
    }
  }

  lemma {:induction false} HeldIs(requests: seq<Phase>)
    ensures Held(requests) == |NotReleased(requests)|
    decreases |requests|
  {
    if requests == [] {
      assert NotReleased(requests) == {};
    } else {
      var last := |requests| - 1;
      HeldIs(requests[..last]);
      HeldLast(requests[..last], requests[last]);
      assert requests == requests[..last] + [requests[last]];
      assert NotReleased(requests)
          == NotReleased(requests[..last]) + if requests[last].Released? then {} else {last};
    }
  }

  // The pool is up, and fewer than two requests are unreleased, or none if only one worker is ready.
  ghost predicate MayAdmit(s: System)
    requires |s.pool.slots| == 2
  {
    && s.pool.loaded && !s.pool.stopping
    && (if s.pool.slots[0].ready && s.pool.slots[1].ready then |NotReleased(s.requests)| < 2
        else (s.pool.slots[0].ready || s.pool.slots[1].ready) && |NotReleased(s.requests)| == 0)
  }

  /** A request is admitted exactly if the pool is up and a place is free, and otherwise nothing changes. */
  lemma ReserveAdmits(s: System)
    requires Inv(s)
    ensures var t := Step(s, Reserve);
            && t.pool == s.pool
            && t.requests == (if MayAdmit(s) then s.requests + [Reserved] else s.requests)
            && NotReleased(t.requests)
               == (if MayAdmit(s) then NotReleased(s.requests) + {|s.requests|} else NotReleased(s.requests))
  {
    MayAdmitIs(s);
    assert NotReleased(s.requests + [Reserved]) == NotReleased(s.requests) + {|s.requests|};
  }

  lemma MayAdmitIs(s: System)
    requires Inv(s)
    ensures MayAdmit(s) <==> P.IsReady(s.pool) && s.activeRequests < Min(MAXIMUM_REQUESTS, Advertised(s.pool))
  {
    HeldIs(s.requests);
    ReadyIs(s.pool);
  }

  lemma ReadyIs(pool: P.Pool)
    requires |pool.slots| == 2
    ensures P.IsReady(pool) <==> pool.loaded && !pool.stopping && (pool.slots[0].ready || pool.slots[1].ready)
    ensures Advertised(pool) == if pool.slots[0].ready && pool.slots[1].ready then 2 else 1
  {
  }

  // Every other request is as before.
  predicate OnlyRequest(s: System, t: System, r: nat) {
    |t.requests| == |s.requests| && forall k | 0 <= k < |s.requests| && k != r :: t.requests[k] == s.requests[k]
  }

  /** Releasing gives the place back, unless the request is at work: then it keeps it. */
  lemma ReleaseFrees(s: System, r: nat)
    requires Inv(s) && r < |s.requests| && !s.requests[r].Released?
    ensures var t := Step(s, Release(r));
            && t.pool == s.pool && OnlyRequest(s, t, r)
            && t.requests[r] == (if s.requests[r].Working? then s.requests[r] else Released)
            && NotReleased(t.requests)
               == (if s.requests[r].Working? then NotReleased(s.requests) else NotReleased(s.requests) - {r})
  {
  }

  // ----- Work -----

  lemma ClaimClaims(s: System, r: nat)
    requires Inv(s) && r < |s.requests|
    ensures var t := Step(s, Claim(r));
            && t.pool == s.pool && OnlyRequest(s, t, r)
            && t.requests[r] == (if s.requests[r].Reserved? then Claimed else s.requests[r])
  {
  }

  /** A claimed request always gets to work: the limit on requests in preparation never stops it. */
  lemma ClaimedWorks(s: System, r: nat)
    requires Inv(s) && r < |s.requests| && s.requests[r].Claimed?
    ensures var t := Step(s, BeginWork(r));
            t.pool == s.pool && OnlyRequest(s, t, r) && t.requests[r] == Working([]) && !t.preparationRefused
  {
    IdleHolder(s.requests, r);
  }

  /**
    A round of one task gets one runner and a longer one two, all about to ask, as soon as the runners of
    the round before have ended.
   */
  lemma RunnersStart(s: System, r: nat, tasks: nat)
    requires Inv(s) && r < |s.requests| && s.requests[r].Working?
    ensures var t := Step(s, StartRunners(r, tasks));
            && t.pool == s.pool && OnlyRequest(s, t, r)
            && t.requests[r]
               == (if exists i :: 0 <= i < |s.requests[r].runners| && !s.requests[r].runners[i].Ended?
                   then s.requests[r]
                   else Working(if tasks == 0 then [] else if tasks == 1 then [Stepping] else [Stepping, Stepping]))
  {
    var runners := Starting(tasks);
    assert runners == if tasks == 0 then [] else if tasks == 1 then [Stepping] else [Stepping, Stepping];
  }

  // A request stops working exactly when all its runners have ended, and can then be released.
  lemma WorkEnds(s: System, r: nat)
    requires Inv(s) && r < |s.requests| && s.requests[r].Working?
    ensures var t := Step(s, EndWork(r));
            && t.pool == s.pool && OnlyRequest(s, t, r)
            && t.requests[r]
               == (if exists i :: 0 <= i < |s.requests[r].runners| && !s.requests[r].runners[i].Ended?
                   then s.requests[r] else Claimed)
  {
  }

  // ----- Inferences -----

  // One runner is now this; every other runner and request is as before.
  predicate OnlyRunner(s: System, t: System, r: nat, i: nat, now: Runner)
    requires HasRunner(s, r, i)
  {
    && OnlyRequest(s, t, r) && HasRunner(t, r, i) && t.requests[r].runners[i] == now
    && |t.requests[r].runners| == |s.requests[r].runners|
    && forall k | 0 <= k < |s.requests[r].runners| && k != i :: t.requests[r].runners[k] == s.requests[r].runners[k]
  }

  /**
    An inference of a request at work: with a live signal, a pool that is up and 1 to 2048 positions the pool
    always takes it, under the next number and in the request's own group. Otherwise the runner ends.
   */
  lemma InferenceIsTaken(s: System, r: nat, i: nat, positions: int, signalAborted: bool, throws: P.Job -> bool)
    requires Inv(s) && HasRunner(s, r, i) && s.requests[r].runners[i].Stepping?
    ensures var t := Step(s, Infer(r, i, positions, signalAborted, throws));
            var job := P.Job(|s.pool.accepted|, positions, P.Request(r));
            if !signalAborted && s.pool.loaded && !s.pool.stopping
               && (s.pool.slots[0].ready || s.pool.slots[1].ready) && 1 <= positions <= 2048
            then OnlyRunner(s, t, r, i, Awaiting(job)) && t.pool.accepted == s.pool.accepted + [job]
            else OnlyRunner(s, t, r, i, Ended) && t.pool == s.pool
  {
    RoomForInference(s, r, i);
    O.EnqueueAccepts(s.pool, P.Request(r), positions, signalAborted, throws);
    ReadyIs(s.pool);
  }

  // A runner waits exactly as long as its job is unsettled.
  lemma ResumesWhenSettled(s: System, r: nat, i: nat)
    requires Inv(s) && HasRunner(s, r, i) && s.requests[r].runners[i].Awaiting?
    ensures var t, job := Step(s, Resume(r, i)), s.requests[r].runners[i].job;
            && t.pool == s.pool
            && OnlyRunner(s, t, r, i,
                 if exists n :: 0 <= n < |s.pool.settled| && s.pool.settled[n].job == job then Stepping
                 else Awaiting(job))
  {
  }

  // Only a runner that is not waiting ends.
  lemma RunnerEnds(s: System, r: nat, i: nat)
    requires Inv(s) && HasRunner(s, r, i)
    ensures var t, runner := Step(s, EndRunner(r, i)), s.requests[r].runners[i];
            t.pool == s.pool && OnlyRunner(s, t, r, i, if runner.Awaiting? then runner else Ended)
  {
  }

  // The job was accepted for this request.
  predicate Its(pool: P.Pool, r: nat, runner: Runner) {
    runner.Awaiting? ==> runner.job in pool.accepted && runner.job.group == P.Request(r)
  }

  ghost predicate EachIts(s: System) {
    forall r: nat, i: nat | HasRunner(s, r, i) :: Its(s.pool, r, s.requests[r].runners[i])
  }

  lemma SameRunners(s: System, t: System)
    requires EachIts(s) && s.pool.accepted <= t.pool.accepted && |t.requests| >= |s.requests|
    requires forall r: nat | InPhase(t, r) :: InPhase(s, r) && t.requests[r] == s.requests[r]
    ensures EachIts(t)
  {
    forall r: nat, i: nat | HasRunner(t, r, i)
      ensures Its(t.pool, r, t.requests[r].runners[i])
    {
      assert HasRunner(s, r, i) && Its(s.pool, r, s.requests[r].runners[i]);
    }
  }

  lemma NewRunners(s: System, t: System, r: nat)
    requires EachIts(s) && t.pool == s.pool && OnlyRequest(s, t, r) && r < |s.requests|
    requires t.requests[r].Working? ==>
               forall i | 0 <= i < |t.requests[r].runners| :: !t.requests[r].runners[i].Awaiting?
    ensures EachIts(t)
  {
    forall k: nat, i: nat | HasRunner(t, k, i)
      ensures Its(t.pool, k, t.requests[k].runners[i])
    {
      if k != r {
        assert HasRunner(s, k, i) && Its(s.pool, k, s.requests[k].runners[i]);
      }
    }
  }

  lemma NewRunner(s: System, t: System, r: nat, i: nat, now: Runner)
    requires EachIts(s) && s.pool.accepted <= t.pool.accepted && HasRunner(s, r, i)
    requires OnlyRunner(s, t, r, i, now) && Its(t.pool, r, now)
    ensures EachIts(t)
  {
    forall k: nat, j: nat | HasRunner(t, k, j)
      ensures Its(t.pool, k, t.requests[k].runners[j])
    {
      if k != r || j != i {
        assert HasRunner(s, k, j) && Its(s.pool, k, s.requests[k].runners[j]);
      }
    }
  }

  lemma PhaseKeepsIts(s: System, e: Event)
    requires Inv(s) && EachIts(s) && (e.Claim? || e.BeginWork? || e.StartRunners? || e.EndWork? || e.Release?)
    ensures EachIts(Step(s, e))
  {
    var r, t := e.request, Step(s, e);
    if r < |s.requests| && t.requests != s.requests {
      NewRunners(s, t, r);
    } else {
      SameRunners(s, t);
    }
  }

  lemma RunnerKeepsIts(s: System, e: Event)
    requires Inv(s) && EachIts(s) && (e.Resume? || e.EndRunner?)
    ensures EachIts(Step(s, e))
  {
    var r, i, t := e.request, e.runner, Step(s, e);
    if HasRunner(s, r, i) {
      assert Its(s.pool, r, s.requests[r].runners[i]);
      NewRunner(s, t, r, i, if t == s then s.requests[r].runners[i] else t.requests[r].runners[i]);
    }
  }

  lemma InferKeepsIts(s: System, e: Event)
    requires Inv(s) && EachIts(s) && e.Infer?
    ensures EachIts(Step(s, e))
  {
    var r, i, t := e.request, e.runner, Step(s, e);
    if HasRunner(s, r, i) && s.requests[r].runners[i].Stepping? {
      InferenceIsTaken(s, r, i, e.positions, e.signalAborted, e.throws);
      NewRunner(s, t, r, i, t.requests[r].runners[i]);
    }
  }

  lemma PoolKeepsIts(s: System, e: Event)
    requires Inv(s) && EachIts(s) && e.PoolActs?
    ensures EachIts(Step(s, e))
  {
    if !e.action.event.Enqueue? {
      P.StepAccepted(s.pool, e.action);
    }
    SameRunners(s, Step(s, e));
  }

  lemma StepKeepsIts(s: System, e: Event)
    requires Inv(s) && EachIts(s)
    ensures EachIts(Step(s, e))
  {
    match e
    case Reserve => SameRunners(s, Step(s, e));
    case Infer(_, _, _, _, _) => InferKeepsIts(s, e);
    case Resume(_, _) => RunnerKeepsIts(s, e);
    case EndRunner(_, _) => RunnerKeepsIts(s, e);
    case PoolActs(_) => PoolKeepsIts(s, e);
    case _ => PhaseKeepsIts(s, e);
  }

  lemma {:induction false} RunKeepsIts(s: System, events: seq<Event>)
    requires Inv(s) && EachIts(s)
    ensures EachIts(Run(s, events))
    decreases |events|
  {
    if events != [] {
      StepInv(s, events[0]);
      StepKeepsIts(s, events[0]);
      RunKeepsIts(Step(s, events[0]), events[1..]);
    }
  }

  /** In every run, the job a runner waits for is one of its own request, and it waits, runs, or is settled. */
  lemma AwaitedIsInPool(events: seq<Event>, r: nat, i: nat)
    requires HasRunner(Reached(events), r, i) && Reached(events).requests[r].runners[i].Awaiting?
    ensures var s := Reached(events);
            var job := s.requests[r].runners[i].job;
            && job.group == P.Request(r)
            && (job in P.QueuedJobs(s.pool.queues) || job in P.RunningJobs(s.pool.slots) || HasSettled(s.pool, job))
  {
    var s := Reached(events);
    var job := s.requests[r].runners[i].job;
    InitialInv();
    RunKeepsIts(INITIAL, events);
    assert Its(s.pool, r, s.requests[r].runners[i]);
    Somewhere(s.pool, job);
  }

  lemma Somewhere(pool: P.Pool, job: P.Job)
    requires P.Inv(pool) && job in pool.accepted
    ensures job in P.QueuedJobs(pool.queues) || job in P.RunningJobs(pool.slots) || HasSettled(pool, job)
  {
    assert P.Placed(pool, job);
    P.CountPositive(pool.accepted, job);
    P.CountPositive(P.QueuedJobs(pool.queues), job);
    P.CountPositive(P.RunningJobs(pool.slots), job);
    P.CountPositive(P.SettledJobs(pool.settled), job);
    if job in P.SettledJobs(pool.settled) {
      SettlementOf(pool.settled, job);
    }
  }

  lemma {:induction false} SettlementOf(settled: seq<P.Settlement>, job: P.Job)
    requires job in P.SettledJobs(settled)
    ensures exists n :: 0 <= n < |settled| && settled[n].job == job
    decreases |settled|
  {
    var last := |settled| - 1;
    if settled[last].job != job {
      SettlementOf(settled[..last], job);
      var n :| 0 <= n < last && settled[..last][n].job == job;
      assert settled[n].job == job;
    }
  }

  // ----- Full load -----

  // The jobs accepted and not yet settled are the outstanding ones.
  lemma OutstandingIs(pool: P.Pool)
    requires P.Inv(pool)
    ensures pool.outstanding + |pool.settled| == |pool.accepted|
  {
    var all := Live(pool) + P.SettledJobs(pool.settled);
    forall x: P.Job
      ensures P.Count(all, x) == P.Count(pool.accepted, x)
    {
      LiveIs(pool, x);
      P.CountAppend(Live(pool), P.SettledJobs(pool.settled), x);
    }
    CoveredLength(all, pool.accepted);
    CoveredLength(pool.accepted, all);
    SettledLength(pool.settled);
  }

  lemma {:induction false} SettledLength(settled: seq<P.Settlement>)
    ensures |P.SettledJobs(settled)| == |settled|
    decreases |settled|
  {
    if settled != [] {
      SettledLength(settled[..|settled| - 1]);
    }
  }

  // Nobody throws.
  predicate Throws(job: P.Job) {
    false
  }

  lemma Next(events: seq<Event>, e: Event) returns (longer: seq<Event>)
    ensures longer == events + [e] && Reached(longer) == Step(Reached(events), e)
  {
    longer := events + [e];
    InitialInv();
    RunAppend(INITIAL, events, [e]);
  }

  lemma {:induction false} RunAppend(s: System, a: seq<Event>, b: seq<Event>)
    requires Inv(s)
    ensures Run(s, a + b) == Run(Run(s, a), b)
    decreases |a|
  {
    if a == [] {
      assert a + b == b;
    } else {
      StepInv(s, a[0]);
      assert (a + b)[1..] == a[1..] + b;
      RunAppend(Step(s, a[0]), a[1..], b);
    }
  }

  // The pool is up with both workers, has accepted that many jobs and settled none.
  predicate Up(s: System, jobs: nat) {
    && |s.pool.slots| == 2 && s.pool.slots[0].ready && s.pool.slots[1].ready && s.pool.loaded && !s.pool.stopping
    && |s.pool.accepted| == jobs && s.pool.settled == []
  }

  lemma OpeningStep(s: System, a: P.Action)
    requires Inv(s) && s.requests == [] && s.pool.accepted == [] && s.pool.settled == []
    requires a.event.WorkerUp? || a.event.LoadEnds?
    ensures var t := Step(s, PoolActs(a));
            t.requests == [] && t.pool == P.Step(s.pool, a) && t.pool.accepted == [] && t.pool.settled == []
  {
    StepInv(s, PoolActs(a));
    P.StepAccepted(s.pool, a);
    OutstandingIs(Step(s, PoolActs(a)).pool);
  }

  lemma WorkerComesUp(before: seq<Event>, i: nat) returns (events: seq<Event>)
    requires i < 2
    requires var s := Reached(before);
             && s.requests == [] && s.pool.accepted == [] && s.pool.settled == []
             && !s.pool.loaded && !s.pool.failed && !s.pool.stopping
    ensures var s, t := Reached(before), Reached(events);
            && t.requests == [] && t.pool.accepted == [] && t.pool.settled == []
            && !t.pool.loaded && !t.pool.failed && !t.pool.stopping
            && t.pool.slots[i].ready && (s.pool.slots[1 - i].ready ==> t.pool.slots[1 - i].ready)
  {
    var s, a := Reached(before), P.Action(P.WorkerUp(i), Throws);
    events := Next(before, PoolActs(a));
    OpeningStep(s, a);
    O.WorkerIsReady(s.pool, a, i);
    O.WorkerIsReady(s.pool, a, 1 - i);
    O.LoadDecides(s.pool, a);
  }

  lemma Opens() returns (events: seq<Event>)
    ensures Up(Reached(events), 0) && Reached(events).requests == []
  {
    assert Reached([]) == INITIAL;
    var first := WorkerComesUp([], 0);
    var both := WorkerComesUp(first, 1);
    var s, a := Reached(both), P.Action(P.LoadEnds(true, []), Throws);
    events := Next(both, PoolActs(a));
    OpeningStep(s, a);
    O.WorkerIsReady(s.pool, a, 0);
    O.WorkerIsReady(s.pool, a, 1);
    O.LoadDecides(s.pool, a);
  }

  // A place is free: one more request arrives and is claimed.
  lemma Arrives(before: seq<Event>) returns (events: seq<Event>)
    requires Up(Reached(before), 0) && |NotReleased(Reached(before).requests)| < 2
    ensures var s, t := Reached(before), Reached(events); t.pool == s.pool && t.requests == s.requests + [Claimed]
  {
    var s := Reached(before);
    ReserveAdmits(s);
    var reserved := Next(before, Reserve);
    ClaimClaims(Reached(reserved), |s.requests|);
    events := Next(reserved, Claim(|s.requests|));
  }

  // A claimed request gets to work with two runners.
  lemma SetsToWork(before: seq<Event>, r: nat) returns (events: seq<Event>)
    requires r < |Reached(before).requests| && Reached(before).requests[r] == Claimed
    ensures var s, t := Reached(before), Reached(events);
            t.pool == s.pool && t.requests == s.requests[r := Working([Stepping, Stepping])]
  {
    ClaimedWorks(Reached(before), r);
    var working := Next(before, BeginWork(r));
    RunnersStart(Reached(working), r, 2);
    events := Next(working, StartRunners(r, 2));
  }

  lemma JobAccepted(s: System, r: nat, i: nat, jobs: nat)
    requires Inv(s) && Up(s, jobs) && HasRunner(s, r, i) && s.requests[r].runners[i].Stepping?
    ensures Up(Step(s, Infer(r, i, 512, false, Throws)), jobs + 1)
  {
    var a := P.Action(P.Enqueue(P.Request(r), 512, false), Throws);
    var t := Step(s, Infer(r, i, 512, false, Throws));
    InferenceIsTaken(s, r, i, 512, false, Throws);
    StepInv(s, Infer(r, i, 512, false, Throws));
    O.WorkerIsReady(s.pool, a, 0);
    O.WorkerIsReady(s.pool, a, 1);
    O.LoadDecides(s.pool, a);
    if t.pool.settled != [] {
      O.StepSettles(s.pool, a, 0);
    }
  }

  lemma Asks(before: seq<Event>, r: nat, i: nat, jobs: nat) returns (events: seq<Event>)
    requires var s := Reached(before);
             Up(s, jobs) && HasRunner(s, r, i) && s.requests[r].runners[i].Stepping?
    ensures var s, t := Reached(before), Reached(events);
            && Up(t, jobs + 1) && OnlyRunner(s, t, r, i, Awaiting(P.Job(jobs, 512, P.Request(r))))
  {
    var s := Reached(before);
    InferenceIsTaken(s, r, i, 512, false, Throws);
    JobAccepted(s, r, i, jobs);
    events := Next(before, Infer(r, i, 512, false, Throws));
  }

  // The request's two runners wait for the jobs with these numbers.
  predicate BothAwait(p: Phase, r: nat, jobs: nat) {
    p == Working([Awaiting(P.Job(jobs, 512, P.Request(r))), Awaiting(P.Job(jobs + 1, 512, P.Request(r)))])
  }

  lemma BothAsk(before: seq<Event>, r: nat, jobs: nat) returns (events: seq<Event>)
    requires var s := Reached(before);
             Up(s, jobs) && r < |s.requests| && s.requests[r] == Working([Stepping, Stepping])
    ensures var s, t := Reached(before), Reached(events);
            Up(t, jobs + 2) && OnlyRequest(s, t, r) && BothAwait(t.requests[r], r, jobs)
  {
    var one := Asks(before, r, 0, jobs);
    events := Asks(one, r, 1, jobs + 1);
    var runners := Reached(events).requests[r].runners;
    assert runners == [Awaiting(P.Job(jobs, 512, P.Request(r))), Awaiting(P.Job(jobs + 1, 512, P.Request(r)))];
  }

  lemma TwoArrive() returns (events: seq<Event>)
    ensures Up(Reached(events), 0) && Reached(events).requests == [Claimed, Claimed]
  {
    var none := Opens();
    assert NotReleased(Reached(none).requests) == {};
    var one := Arrives(none);
    assert NotReleased(Reached(one).requests) == {0};
    events := Arrives(one);
  }

  lemma TwoSetToWork() returns (events: seq<Event>)
    ensures Up(Reached(events), 0)
    ensures Reached(events).requests == [Working([Stepping, Stepping]), Working([Stepping, Stepping])]
  {
    var arrived := TwoArrive();
    var one := SetsToWork(arrived, 0);
    events := SetsToWork(one, 1);
  }

  /**
    The full load is reached: in some run two requests work at once, each of their two runners waits for a job,
    and the pool holds four, which is all it takes. A third request is refused.
   */
  lemma TwoWorkAtOnce() returns (events: seq<Event>)
    ensures var s := Reached(events);
            && |s.requests| == 2 && BothAwait(s.requests[0], 0, 0) && BothAwait(s.requests[1], 1, 2)
            && s.activeRequests == 2 && s.batchRequests == 2 && s.pool.outstanding == 4
            && Step(s, Reserve).requests == s.requests
  {
    var working := TwoSetToWork();
    var half := BothAsk(working, 0, 0);
    events := BothAsk(half, 1, 2);
    var s := Reached(events);
    OutstandingIs(s.pool);
    Counters(s);
    ReserveAdmits(s);
  }

  lemma Counters(s: System)
    requires Inv(s) && |s.requests| == 2 && s.requests[0].Working? && s.requests[1].Working?
    ensures s.activeRequests == 2 && s.batchRequests == 2 && |NotReleased(s.requests)| == 2
  {
    HeldIs(s.requests);
    assert NotReleased(s.requests) == {0, 1};
    assert s.requests[1..][1..] == [];
    assert AtWork(s.requests) == 1 + AtWork(s.requests[1..]) == 2;
  }
}
