/**
  What becomes of each job of the worker pool: which outcome it is settled with and why, in which order the
  jobs of a group start, and where a started job is.
 */
module PoolOutcomes {
  import opened Wrappers
  import opened Sequences
  import opened OnnxPool

  // ----- Outcomes -----

  // What is settled besides the job that finishes: executions that throw synchronously are rejected.
  ghost predicate OnlyThrown(before: seq<Settlement>, after: seq<Settlement>, throws: Job -> bool) {
    && before <= after
    && forall n | |before| <= n < |after| :: after[n].outcome == Rejected && throws(after[n].job)
  }

  lemma {:induction false} ThrownTrans(a: seq<Settlement>, b: seq<Settlement>, c: seq<Settlement>, throws: Job -> bool)
    requires OnlyThrown(a, b, throws) && OnlyThrown(b, c, throws)
    ensures OnlyThrown(a, c, throws)
  {
  }

  // The job is settled last with this outcome; before it only jobs that throw are settled.
  ghost predicate SettledLast(before: seq<Settlement>, after: seq<Settlement>, st: Settlement, throws: Job -> bool) {
    && after != [] && after[|after| - 1] == st
    && OnlyThrown(before, after[..|after| - 1], throws)
  }

  lemma {:induction false} SettledLastAt(
      before: seq<Settlement>, after: seq<Settlement>, st: Settlement, throws: Job -> bool, n: nat)
    requires SettledLast(before, after, st, throws) && |before| <= n < |after|
    ensures after[n] == st || (after[n].outcome == Rejected && throws(after[n].job))
  {
    var front := after[..|after| - 1];
    assert n < |front| ==> after[n] == front[n];
  }

  lemma {:induction false} FinishOutcome(s: Pool, i: nat, outcome: Outcome, throws: Job -> bool)
    requires |s.slots| == SLOTS && i < SLOTS && s.slots[i].running.Some? && NonEmptyQueues(s.queues)
    ensures SettledLast(s.settled, Finish(s, i, outcome, throws).settled,
                        Settlement(s.slots[i].running.value, outcome), throws)
    decreases |QueuedJobs(s.queues)|, 2, 0
  {
    PumpOutcome(Complete(s, i), 0, throws);
    var pumped := PumpFrom(Complete(s, i), 0, throws);
    var st := Settlement(s.slots[i].running.value, outcome);
    assert pumped.finishing == s.finishing + [s.slots[i].running.value];
    assert (pumped.settled + [st])[..|pumped.settled|] == pumped.settled;
  }

  lemma {:induction false} StartOutcome(s: Pool, i: nat, throws: Job -> bool)
    requires |s.slots| == SLOTS && i < SLOTS && NonEmptyQueues(s.queues) && s.queues != []
    ensures OnlyThrown(s.settled, Start(s, i, throws).settled, throws)
    decreases |QueuedJobs(s.queues)|, 0, 0
  {
    RotatedJobs(s.queues);
    if throws(s.queues[0].jobs[0]) {
      FinishOutcome(Dispatch(s, i), i, Rejected, throws);
      var after := Start(s, i, throws).settled;
      assert after == after[..|after| - 1] + [after[|after| - 1]];
    }
  }

  lemma {:induction false} PumpOutcome(s: Pool, i: nat, throws: Job -> bool)
    requires |s.slots| == SLOTS && i <= SLOTS && NonEmptyQueues(s.queues)
    ensures OnlyThrown(s.settled, PumpFrom(s, i, throws).settled, throws)
    decreases |QueuedJobs(s.queues)|, 1, SLOTS - i
  {
    if s.loaded && !s.stopping && i < SLOTS {
      if Unavailable(s.slots[i]) {
        PumpOutcome(s, i + 1, throws);
      } else if s.queues != [] && Fits(s) {
        StartOutcome(s, i, throws);
        var t := Start(s, i, throws);
        PumpOutcome(t, i + 1, throws);
        ThrownTrans(s.settled, t.settled, PumpFrom(t, i + 1, throws).settled, throws);
      }
    }
  }

  /**
    The end of an execution settles its job with that very outcome, after the jobs that the pump started and
    that threw. The slot was the job's.
   */
  lemma {:induction false} FinishedSettles(s: Pool, i: nat, outcome: Outcome, throws: Job -> bool)
    requires Inv(s) && i < 2 && s.slots[i].running.Some?
    ensures SettledLast(s.settled, Step(s, Action(Finished(i, outcome), throws)).settled,
                        Settlement(s.slots[i].running.value, outcome), throws)
  {
    FinishOutcome(s, i, outcome, throws);
  }

  // A signal that aborts settles its job as aborted if it waits, and otherwise nothing.
  lemma {:induction false} SignalSettles(s: Pool, job: Job, throws: Job -> bool)
    requires Inv(s)
    ensures var t := Step(s, Action(SignalAborts(job), throws));
            && t.settled == (if job in QueuedJobs(s.queues) then s.settled + [Settlement(job, Aborted)] else s.settled)
            && t.slots == s.slots && t.dispatched == s.dispatched
            && (job in QueuedJobs(s.queues) ==> t.pumpQueued && job !in QueuedJobs(t.queues))
            && (job !in QueuedJobs(s.queues) ==> t == s)
  {
    if job in QueuedJobs(s.queues) {
      RemoveJobs(s.queues, job, job);
      CountPositive(QueuedJobs(s.queues), job);
      CountPositive(QueuedJobs(Remove(s.queues, job)), job);
      assert Placed(s, job);
      NumberedOnce(s.accepted, job);
    }
  }

  // An enqueue, a microtask and a worker that comes up settle only jobs that throw; a worker that goes down nothing.
  lemma {:induction false} PumpSettles(s: Pool, a: Action)
    requires Inv(s) && (a.event.Enqueue? || a.event.Microtask? || a.event.WorkerUp? || a.event.WorkerDown?)
    ensures OnlyThrown(s.settled, Step(s, a).settled, a.throws)
  {
    match a.event
    case Enqueue(group, positions, signalAborted) =>
      if !signalAborted && Accepts(s, positions) {
        AdmitSound(s, group, positions);
        PumpOutcome(Admit(s, group, positions), 0, a.throws);
      }
    case Microtask => PumpOutcome(s.(pumpQueued := false), 0, a.throws);
    case WorkerUp(i) =>
      if i < SLOTS {
        PumpOutcome(SetReady(s, i, true), 0, a.throws);
      }
    case WorkerDown(_) =>
  }

  // Unloading, and a load that fails, abort the jobs that wait; a load that succeeds settles nothing.
  lemma {:induction false} StoppedSettles(s: Pool, a: Action)
    requires Inv(s) && (a.event.Unload? || a.event.LoadEnds?)
    ensures var t := Step(s, a);
            && s.settled <= t.settled
            && forall n | |s.settled| <= n < |t.settled| ::
                 t.settled[n].outcome == Aborted && t.settled[n].job in QueuedJobs(s.queues)
  {
    var order := a.event.order;
    FlagsSound(s, s.(failed := true));
    StopSettles(s, order);
    StopSettles(s.(failed := true), order);
    var jobs := AbortOrder(QueuedJobs(s.queues), order);
    forall n | 0 <= n < |AbortsOf(jobs)|
      ensures AbortsOf(jobs)[n].outcome == Aborted && AbortsOf(jobs)[n].job in QueuedJobs(s.queues)
    {
      AbortsAre(jobs, n);
      CountPositive(jobs, jobs[n]);
      CountPositive(QueuedJobs(s.queues), jobs[n]);
      assert Count(jobs, jobs[n]) == Count(QueuedJobs(s.queues), jobs[n]);
    }
  }

  lemma {:induction false} AbortsAre(jobs: seq<Job>, n: nat)
    requires n < |AbortsOf(jobs)|
    ensures n < |jobs| && AbortsOf(jobs)[n] == Settlement(jobs[n], Aborted)
  {
    if n > 0 {
      AbortsAre(jobs[1..], n - 1);
    }
  }

  // Why a step settles a job so: its execution ended, it threw, or it was aborted while it waited.
  ghost predicate Because(s: Pool, a: Action, st: Settlement) {
    || (&& a.event.Finished? && a.event.slot < |s.slots| && s.slots[a.event.slot].running == Some(st.job)
        && st.outcome == a.event.outcome)
    || (st.outcome == Rejected && a.throws(st.job))
    || (&& st.outcome == Aborted && st.job in QueuedJobs(s.queues)
        && (a.event == SignalAborts(st.job) || a.event.Unload? || a.event.LoadEnds?))
  }

  lemma {:induction false} StepSettles(s: Pool, a: Action, n: nat)
    requires Inv(s) && |s.settled| <= n < |Step(s, a).settled|
    ensures Because(s, a, Step(s, a).settled[n])
  {
    match a.event
    case Finished(i, outcome) =>
      if i < SLOTS && s.slots[i].running.Some? {
        FinishedSettles(s, i, outcome, a.throws);
        SettledLastAt(s.settled, Step(s, a).settled, Settlement(s.slots[i].running.value, outcome), a.throws, n);
      }
    case SignalAborts(job) => SignalSettles(s, job, a.throws);
    case Unload(_) => StoppedSettles(s, a);
    case LoadEnds(_, _) => StoppedSettles(s, a);
    case _ => PumpSettles(s, a);
  }

  // ----- The jobs of a group, in order -----

  // The waiting jobs of a group.
  function WaitsOf(queues: seq<Queue>, group: Group): seq<Job> {
    var p := Position(queues, group);
    if p < |queues| then queues[p].jobs else []
  }

  function OfGroup(jobs: seq<Job>, group: Group): seq<Job> {
    if jobs == [] then []
    else OfGroup(jobs[..|jobs| - 1], group)
         + if jobs[|jobs| - 1].group == group then [jobs[|jobs| - 1]] else []
  }

  // The jobs of a group that have started, and behind them those that wait.
  function Line(s: Pool, group: Group): seq<Job> {
    OfGroup(s.dispatched, group) + WaitsOf(s.queues, group)
  }

  lemma {:induction false} OfGroupSnoc(jobs: seq<Job>, job: Job, group: Group)
    ensures OfGroup(jobs + [job], group) == OfGroup(jobs, group) + if job.group == group then [job] else []
  {
    assert (jobs + [job])[..|jobs|] == jobs;
  }

  lemma {:induction false} RotatedWaits(queues: seq<Queue>, group: Group)
    requires WellQueued(queues) && queues != []
    ensures queues[0].jobs != []
    ensures WaitsOf(Rotated(queues), group)
         == if group == queues[0].group then queues[0].jobs[1..] else WaitsOf(queues, group)
  {
    assert Filled(queues[0]);
    var rotated := Rotated(queues);
    var p := Position(queues, group);
    assert forall k | 0 <= k < |queues| - 1 :: rotated[k] == queues[k + 1];
    forall k | 0 < k < |queues|
      ensures queues[k].group != queues[0].group
    {
      GroupsDiffer(queues, k, 0);
    }
    if group == queues[0].group {
      if |queues[0].jobs| > 1 {
        PositionIs(rotated, group, |queues| - 1);
      }
    } else if p < |queues| {
      PositionIs(rotated, group, p - 1);
    } else {
      assert forall k | 0 <= k < |rotated| :: rotated[k].group != group;
    }
  }

  lemma {:induction false} DispatchLine(s: Pool, i: nat, group: Group)
    requires WellQueued(s.queues) && i < |s.slots| && s.queues != [] && s.queues[0].jobs != []
    ensures Line(Dispatch(s, i), group) == Line(s, group)
  {
    var job := s.queues[0].jobs[0];
    assert Filled(s.queues[0]);
    RotatedWaits(s.queues, group);
    OfGroupSnoc(s.dispatched, job, group);
    if group == s.queues[0].group {
      assert WaitsOf(s.queues, group) == [job] + s.queues[0].jobs[1..];
      Regroup(OfGroup(s.dispatched, group), [job], s.queues[0].jobs[1..]);
    } else {
      assert OfGroup(s.dispatched, group) + [] == OfGroup(s.dispatched, group);
    }
  }

  lemma {:induction false} StartLine(s: Pool, i: nat, throws: Job -> bool, group: Group)
    requires Sound(s) && i < SLOTS && s.slots[i].running.None? && s.queues != [] && Fits(s)
    ensures Line(Start(s, i, throws), group) == Line(s, group)
    decreases |QueuedJobs(s.queues)|, 0, 0
  {
    RotatedJobs(s.queues);
    DispatchSound(s, i);
    DispatchLine(s, i, group);
    if throws(s.queues[0].jobs[0]) {
      var t := Dispatch(s, i);
      CompleteSound(t, i);
      PumpLine(Complete(t, i), 0, throws, group);
    }
  }

  // A pump starts the jobs of a group from the front of its queue, in order.
  lemma {:induction false} PumpLine(s: Pool, i: nat, throws: Job -> bool, group: Group)
    requires Sound(s) && i <= SLOTS
    ensures Line(PumpFrom(s, i, throws), group) == Line(s, group)
    decreases |QueuedJobs(s.queues)|, 1, SLOTS - i
  {
    if s.loaded && !s.stopping && i < SLOTS {
      if Unavailable(s.slots[i]) {
        PumpLine(s, i + 1, throws, group);
      } else if s.queues != [] && Fits(s) {
        StartSound(s, i, throws);
        StartLine(s, i, throws, group);
        PumpLine(Start(s, i, throws), i + 1, throws, group);
      }
    }
  }

  lemma {:induction false} PushWaits(queues: seq<Queue>, job: Job, group: Group)
    requires WellQueued(queues)
    ensures WaitsOf(Push(queues, job), group)
         == if group == job.group then WaitsOf(queues, group) + [job] else WaitsOf(queues, group)
  {
    var pushed := Push(queues, job);
    var p, q := Position(queues, group), Position(queues, job.group);
    if p < |queues| {
      PositionIs(pushed, group, p);
    } else if group == job.group {
      PositionIs(pushed, group, |queues|);
      assert [] + [job] == [job];
    } else {
      assert forall k | 0 <= k < |pushed| :: pushed[k].group != group;
    }
  }

  lemma {:induction false} ShorterWaits(queues: seq<Queue>, q: nat, shorter: seq<Job>, group: Group)
    requires WellQueued(queues) && q < |queues|
    ensures WaitsOf(queues[q := Queue(queues[q].group, shorter)], group)
         == if group == queues[q].group then shorter else WaitsOf(queues, group)
  {
    var changed := queues[q := Queue(queues[q].group, shorter)];
    var p := Position(queues, group);
    assert forall k | 0 <= k < |queues| :: changed[k].group == queues[k].group;
    if p < |queues| {
      PositionIs(changed, group, p);
    }
    ItsPosition(queues, q);
  }

  lemma {:induction false} GoneWaits(queues: seq<Queue>, q: nat, group: Group)
    requires WellQueued(queues) && q < |queues|
    ensures WaitsOf(queues[..q] + queues[q + 1..], group)
         == if group == queues[q].group then [] else WaitsOf(queues, group)
  {
    var gone := queues[..q] + queues[q + 1..];
    var p := Position(queues, group);
    assert forall k | 0 <= k < |gone| :: gone[k] == queues[if k < q then k else k + 1];
    if group == queues[q].group {
      GoneIsGone(queues, q);
    } else if p < |queues| {
      PositionIs(gone, group, if p < q then p else p - 1);
    }
  }

  lemma {:induction false} RemoveWaits(queues: seq<Queue>, job: Job, group: Group)
    requires WellQueued(queues)
    ensures WaitsOf(Remove(queues, job), group)
         == if group == job.group then Without(WaitsOf(queues, group), job) else WaitsOf(queues, group)
  {
    var q := Position(queues, job.group);
    if q < |queues| {
      var rest := Without(queues[q].jobs, job);
      if rest == [] {
        GoneWaits(queues, q, group);
      } else {
        ShorterWaits(queues, q, rest, group);
      }
    }
  }

  predicate Later(line: seq<Job>, m: nat, n: nat)
    requires m < n < |line|
  {
    line[m].id < line[n].id
  }

  predicate Below(line: seq<Job>, n: nat, next: nat)
    requires n < |line|
  {
    line[n].id < next
  }

  // Later jobs of a group have larger numbers, below that of the next job.
  ghost predicate Rising(line: seq<Job>, next: nat) {
    && (forall m: nat, n: nat {:trigger Later(line, m, n)} | m < n < |line| :: Later(line, m, n))
    && (forall n: nat {:trigger Below(line, n, next)} | n < |line| :: Below(line, n, next))
  }

  lemma {:induction false} RisingSnoc(line: seq<Job>, job: Job, next: nat)
    requires Rising(line, next) && job.id == next
    ensures Rising(line + [job], next + 1)
  {
    var more := line + [job];
    forall m: nat, n: nat {:trigger Later(more, m, n)} | m < n < |more|
      ensures Later(more, m, n)
    {
      assert Below(line, m, next);
      assert n < |line| ==> Later(line, m, n);
    }
    forall n: nat {:trigger Below(more, n, next + 1)} | n < |more|
      ensures Below(more, n, next + 1)
    {
      assert n < |line| ==> Below(line, n, next);
    }
  }

  lemma {:induction false} RisingMore(line: seq<Job>, next: nat)
    requires Rising(line, next)
    ensures Rising(line, next + 1)
  {
    forall n: nat {:trigger Below(line, n, next + 1)} | n < |line|
      ensures Below(line, n, next + 1)
    {
      assert Below(line, n, next);
    }
  }

  ghost predicate InLine(s: Pool, group: Group) {
    Rising(Line(s, group), |s.accepted|)
  }

  lemma {:induction false} WithoutIs(jobs: seq<Job>, job: Job) returns (k: nat)
    requires job in jobs
    ensures k < |jobs| && jobs[k] == job && Without(jobs, job) == jobs[..k] + jobs[k + 1..]
  {
    if jobs[0] == job {
      k := 0;
    } else {
      k := WithoutIs(jobs[1..], job);
      assert jobs[..k + 1] == [jobs[0]] + jobs[1..][..k];
      k := k + 1;
    }
  }

  lemma {:induction false} WithoutAbsent(jobs: seq<Job>, job: Job)
    requires job !in jobs
    ensures Without(jobs, job) == jobs
  {
    if jobs != [] {
      WithoutAbsent(jobs[1..], job);
    }
  }

  lemma {:induction false} LeavesFront(started: seq<Job>, waits: seq<Job>, job: Job, next: nat)
    requires Rising(started + waits, next) && job in waits
    ensures Rising(started + Without(waits, job), next) && job !in started + Without(waits, job)
    ensures forall x | x in started + Without(waits, job) :: x in started + waits
  {
    var k := WithoutIs(waits, job);
    var line := started + waits;
    LeaveLine(line, |started| + k, next);
    assert line[..|started| + k] == started + waits[..k] && line[|started| + k + 1..] == waits[k + 1..];
    Regroup(started, waits[..k], waits[k + 1..]);
    assert line[|started| + k] == job;
  }

  // A job leaves the line without moving the others.
  lemma {:induction false} AbortLine(s: Pool, job: Job, group: Group)
    requires WellQueued(s.queues) && InLine(s, group)
    ensures InLine(AbortJob(s, job), group)
    ensures forall x | x in Line(AbortJob(s, job), group) :: x in Line(s, group)
    ensures job in QueuedJobs(s.queues) && group == job.group ==> job !in Line(AbortJob(s, job), group)
  {
    if job in QueuedJobs(s.queues) {
      RemoveWaits(s.queues, job, group);
      if group == job.group {
        QueuedInItsGroup(s.queues, job);
        LeavesFront(OfGroup(s.dispatched, group), WaitsOf(s.queues, group), job, |s.accepted|);
      }
    }
  }

  lemma {:induction false} LeaveLine(line: seq<Job>, k: nat, next: nat)
    requires Rising(line, next) && k < |line|
    ensures Rising(line[..k] + line[k + 1..], next) && line[k] !in line[..k] + line[k + 1..]
    ensures forall x | x in line[..k] + line[k + 1..] :: x in line
  {
    var rest := line[..k] + line[k + 1..];
    forall m: nat, n: nat | m < n < |rest|
      ensures Later(rest, m, n)
    {
      assert Later(line, if m < k then m else m + 1, if n < k then n else n + 1);
    }
    forall n: nat | n < |rest|
      ensures Below(rest, n, next) && rest[n] != line[k]
    {
      assert Below(line, if n < k then n else n + 1, next);
      assert if n < k then Later(line, n, k) else Later(line, k, n + 1);
    }
  }

  lemma {:induction false} AbortAllLine(s: Pool, jobs: seq<Job>, group: Group)
    requires Sound(s) && InLine(s, group)
    ensures InLine(AbortAll(s, jobs), group)
    ensures forall x | x in Line(AbortAll(s, jobs), group) :: x in Line(s, group)
    decreases |jobs|
  {
    if jobs != [] {
      AbortLine(s, jobs[0], group);
      if jobs[0] in QueuedJobs(s.queues) {
        AbortSound(s, jobs[0]);
      }
      AbortAllLine(AbortJob(s, jobs[0]), jobs[1..], group);
    }
  }

  // Only a newly accepted job joins a line.
  ghost predicate LineKept(s: Pool, t: Pool, group: Group) {
    && InLine(t, group)
    && forall x | x in Line(t, group) :: x in Line(s, group) || x.id == |s.accepted|
  }

  lemma {:induction false} AdmitLine(s: Pool, g: Group, positions: int, group: Group)
    requires WellQueued(s.queues) && InLine(s, group)
    ensures LineKept(s, Admit(s, g, positions), group)
  {
    var job, t := Job(|s.accepted|, positions, g), Admit(s, g, positions);
    PushWaits(s.queues, job, group);
    if group == g {
      Regroup(OfGroup(s.dispatched, group), WaitsOf(s.queues, group), [job]);
      assert Line(t, group) == Line(s, group) + [job];
      RisingSnoc(Line(s, group), job, |s.accepted|);
    } else {
      RisingMore(Line(s, group), |s.accepted|);
    }
  }

  lemma {:induction false} EnqueueLine(s: Pool, a: Action, group: Group)
    requires Inv(s) && InLine(s, group) && a.event.Enqueue?
    ensures LineKept(s, Step(s, a), group)
  {
    var Enqueue(g, positions, signalAborted) := a.event;
    if !signalAborted && Accepts(s, positions) {
      AdmitSound(s, g, positions);
      AdmitLine(s, g, positions, group);
      PumpLine(Admit(s, g, positions), 0, a.throws, group);
      PumpStanding(Admit(s, g, positions), 0, a.throws);
    }
  }

  lemma {:induction false} FinishLine(s: Pool, i: nat, outcome: Outcome, throws: Job -> bool, group: Group)
    requires Sound(s) && i < SLOTS && s.slots[i].running.Some?
    ensures Line(Finish(s, i, outcome, throws), group) == Line(s, group)
    ensures Finish(s, i, outcome, throws).accepted == s.accepted
  {
    CompleteSound(s, i);
    PumpLine(Complete(s, i), 0, throws, group);
    FinishStanding(s, i, outcome, throws);
  }

  lemma {:induction false} FinishedLine(s: Pool, a: Action, group: Group)
    requires Inv(s) && InLine(s, group) && a.event.Finished?
    ensures LineKept(s, Step(s, a), group)
  {
    var i := a.event.slot;
    if i < SLOTS && s.slots[i].running.Some? {
      FinishLine(s, i, a.event.outcome, a.throws, group);
    }
  }

  lemma {:induction false} StopLine(s: Pool, order: seq<Job>, group: Group)
    requires Sound(s) && InLine(s, group)
    ensures LineKept(s, Stop(s, order), group)
  {
    var jobs, t := AbortOrder(QueuedJobs(s.queues), order), s.(stopping := true);
    FlagsSound(s, t);
    AbortAllLine(t, jobs, group);
    AbortAllStanding(t, jobs);
  }

  predicate LoadFails(s: Pool, workersLoaded: bool) {
    !s.loaded && !s.failed && (!workersLoaded || s.stopping || exists i :: 0 <= i < |s.slots| && !s.slots[i].ready)
  }

  // A load that does not fail only sets a flag.
  lemma {:induction false} LoadKeeps(s: Pool, a: Action)
    requires Inv(s) && a.event.LoadEnds? && !LoadFails(s, a.event.workersLoaded)
    ensures Step(s, a).(loaded := s.loaded) == s
  {
  }

  lemma {:induction false} LoadFailure(s: Pool, a: Action)
    requires |s.slots| == SLOTS && NonEmptyQueues(s.queues)
    requires a.event.LoadEnds? && LoadFails(s, a.event.workersLoaded)
    ensures Step(s, a) == Stop(s.(failed := true), a.event.order)
  {
  }

  lemma {:induction false} LoadedLine(s: Pool, a: Action, group: Group)
    requires Inv(s) && InLine(s, group) && a.event.LoadEnds? && !LoadFails(s, a.event.workersLoaded)
    ensures LineKept(s, Step(s, a), group)
  {
    LoadKeeps(s, a);
  }

  lemma {:induction false} StoppedLine(s: Pool, a: Action, group: Group)
    requires Inv(s) && InLine(s, group) && (a.event.Unload? || a.event.LoadEnds?)
    ensures LineKept(s, Step(s, a), group)
  {
    if a.event.Unload? {
      UnloadLine(s, a, group);
    } else if LoadFails(s, a.event.workersLoaded) {
      FailedLine(s, a, group);
    } else {
      LoadedLine(s, a, group);
    }
  }

  lemma {:induction false} UnloadLine(s: Pool, a: Action, group: Group)
    requires Inv(s) && InLine(s, group) && a.event.Unload?
    ensures LineKept(s, Step(s, a), group)
  {
    var t := Stop(s, a.event.order);
    assert LineKept(s, t, group) by {
      StopLine(s, a.event.order, group);
    }
    assert t == Step(s, a);
  }

  lemma {:induction false} FailedLine(s: Pool, a: Action, group: Group)
    requires Inv(s) && InLine(s, group) && a.event.LoadEnds? && LoadFails(s, a.event.workersLoaded)
    ensures LineKept(s, Step(s, a), group)
  {
    LoadFailure(s, a);
    FlagsSound(s, s.(failed := true));
    StopLine(s.(failed := true), a.event.order, group);
  }

  lemma {:induction false} PumpedLine(s: Pool, t: Pool, throws: Job -> bool, group: Group)
    requires Sound(t) && InLine(s, group) && Line(t, group) == Line(s, group) && t.accepted == s.accepted
    ensures LineKept(s, Pump(t, throws), group)
  {
    PumpLine(t, 0, throws, group);
    PumpStanding(t, 0, throws);
  }

  lemma {:induction false} OtherLine(s: Pool, a: Action, group: Group)
    requires Inv(s) && InLine(s, group)
    requires a.event.SignalAborts? || a.event.Microtask? || a.event.WorkerUp? || a.event.WorkerDown?
    ensures LineKept(s, Step(s, a), group)
  {
    if a.event.SignalAborts? {
      AbortLine(s, a.event.job, group);
    } else if a.event.Microtask? {
      FlagsSound(s, s.(pumpQueued := false));
      PumpedLine(s, s.(pumpQueued := false), a.throws, group);
    } else if a.event.WorkerUp? && a.event.slot < SLOTS {
      UpLine(s, a, group);
    }
  }

  lemma {:induction false} UpLine(s: Pool, a: Action, group: Group)
    requires Inv(s) && InLine(s, group) && a.event.WorkerUp? && a.event.slot < SLOTS
    ensures LineKept(s, Step(s, a), group)
  {
    FlagsSound(s, SetReady(s, a.event.slot, true));
    PumpedLine(s, SetReady(s, a.event.slot, true), a.throws, group);
  }

  lemma {:induction false} StepLine(s: Pool, a: Action, group: Group)
    requires Inv(s) && InLine(s, group)
    ensures LineKept(s, Step(s, a), group)
  {
    if a.event.Enqueue? {
      EnqueueLine(s, a, group);
    } else if a.event.Finished? {
      FinishedLine(s, a, group);
    } else if a.event.Unload? || a.event.LoadEnds? {
      StoppedLine(s, a, group);
    } else {
      OtherLine(s, a, group);
    }
  }

  lemma {:induction false} RunLine(s: Pool, actions: seq<Action>, group: Group)
    requires Inv(s) && InLine(s, group)
    ensures InLine(Run(s, actions), group)
    decreases |actions|
  {
    if actions != [] {
      StepInv(s, actions[0]);
      StepLine(s, actions[0], group);
      RunLine(Step(s, actions[0]), actions[1..], group);
    }
  }

  lemma {:induction false} RisingParts(started: seq<Job>, waiting: seq<Job>, next: nat)
    requires Rising(started + waiting, next)
    ensures forall m, n | 0 <= m < n < |started| :: started[m].id < started[n].id
    ensures forall m, n | 0 <= m < |started| && 0 <= n < |waiting| :: started[m].id < waiting[n].id
    ensures forall m, n | 0 <= m < n < |waiting| :: waiting[m].id < waiting[n].id
  {
    var line := started + waiting;
    forall m: nat, n: nat | m < n < |started|
      ensures started[m].id < started[n].id
    {
      assert Later(line, m, n);
    }
    forall m: nat, n: nat | m < |started| && n < |waiting|
      ensures started[m].id < waiting[n].id
    {
      assert Later(line, m, |started| + n);
    }
    forall m: nat, n: nat | m < n < |waiting|
      ensures waiting[m].id < waiting[n].id
    {
      assert Later(line, |started| + m, |started| + n);
    }
  }

  // The jobs of the group have started in the order of their numbers, and those that wait follow in that order.
  ghost predicate ServedInOrder(s: Pool, group: Group) {
    var started, waiting := OfGroup(s.dispatched, group), WaitsOf(s.queues, group);
    && (forall m, n | 0 <= m < n < |started| :: started[m].id < started[n].id)
    && (forall m, n | 0 <= m < |started| && 0 <= n < |waiting| :: started[m].id < waiting[n].id)
    && (forall m, n | 0 <= m < n < |waiting| :: waiting[m].id < waiting[n].id)
  }

  lemma {:induction false} InLineParts(s: Pool, group: Group)
    requires InLine(s, group)
    ensures ServedInOrder(s, group)
  {
    RisingParts(OfGroup(s.dispatched, group), WaitsOf(s.queues, group), |s.accepted|);
  }

  /**
    First come, first served: in every run the jobs of a group start in the order in which they were accepted,
    each at most once, and those that wait came later.
   */
  lemma {:induction false} FirstComeFirstServed(actions: seq<Action>, group: Group)
    ensures ServedInOrder(Run(INITIAL, actions), group)
  {
    RunLine(INITIAL, actions, group);
    InLineParts(Run(INITIAL, actions), group);
  }

  // ----- Why a job was settled -----

  lemma {:induction false} InGroup(jobs: seq<Job>, job: Job)
    ensures job in OfGroup(jobs, job.group) <==> job in jobs
  {
    if jobs != [] {
      InGroup(jobs[..|jobs| - 1], job);
      assert jobs == jobs[..|jobs| - 1] + [jobs[|jobs| - 1]];
    }
  }

  // A job that has left its line never starts.
  lemma {:induction false} NeverStarts(s: Pool, actions: seq<Action>, job: Job)
    requires Inv(s) && InLine(s, job.group) && job !in Line(s, job.group) && job.id < |s.accepted|
    ensures job !in Run(s, actions).dispatched
    decreases |actions|
  {
    if actions == [] {
      InGroup(s.dispatched, job);
    } else {
      var t := Step(s, actions[0]);
      StepInv(s, actions[0]);
      StepLine(s, actions[0], job.group);
      StepAccepted(s, actions[0]);
      NeverStarts(t, actions[1..], job);
    }
  }

  lemma {:induction false} RunSplit(s: Pool, a: seq<Action>, b: seq<Action>)
    requires Inv(s)
    ensures Run(s, a + b) == Run(Run(s, a), b)
    decreases |a|
  {
    if a == [] {
      assert a + b == b;
    } else {
      StepInv(s, a[0]);
      assert (a + b)[1..] == a[1..] + b;
      RunSplit(Step(s, a[0]), a[1..], b);
    }
  }

  lemma {:induction false} RunOne(s: Pool, a: Action)
    requires Inv(s)
    ensures Run(s, [a]) == Step(s, a)
  {
    StepInv(s, a);
    assert [a][1..] == [];
    assert Run(Step(s, a), []) == Step(s, a);
  }

  lemma {:induction false} RunSnoc(front: seq<Action>, last: Action)
    ensures Run(INITIAL, front + [last]) == Step(Run(INITIAL, front), last)
  {
    RunSplit(INITIAL, front, [last]);
    RunOne(Run(INITIAL, front), last);
  }

  lemma {:induction false} RunUpTo(actions: seq<Action>, m: nat)
    requires m < |actions|
    ensures Run(INITIAL, actions[..m + 1]) == Step(Run(INITIAL, actions[..m]), actions[m])
  {
    assert actions[..m + 1] == actions[..m] + [actions[m]];
    RunSnoc(actions[..m], actions[m]);
  }

  /**
    Behind every settlement of a run there is the step that made it: the execution of the job ended with that
    outcome on the slot that ran it, or the job threw and was rejected, or it was aborted while it waited.
   */
  lemma {:induction false} SettledBecause(actions: seq<Action>, n: nat) returns (m: nat)
    requires n < |Run(INITIAL, actions).settled|
    ensures m < |actions| && MadeAt(INITIAL, actions, m, n, Run(INITIAL, actions).settled[n])
  {
    m := SettledAfter(INITIAL, actions, n);
  }

  // The same from any state, for what is settled after it.
  lemma {:induction false} SettledAfter(s: Pool, actions: seq<Action>, n: nat) returns (m: nat)
    requires Inv(s) && |s.settled| <= n < |Run(s, actions).settled|
    ensures m < |actions| && MadeAt(s, actions, m, n, Run(s, actions).settled[n])
    decreases |actions|
  {
    StepInv(s, actions[0]);
    var t, rest := Step(s, actions[0]), actions[1..];
    if n < |t.settled| {
      m := 0;
      StepSettles(s, actions[0], n);
      RunKeeps(t, rest);
    } else {
      var k := SettledAfter(t, rest, n);
      m := k + 1;
      MadeLater(s, actions, k, n, Run(t, rest).settled[n]);
    }
  }

  lemma {:induction false} MadeLater(s: Pool, actions: seq<Action>, k: nat, n: nat, st: Settlement)
    requires Inv(s) && k + 1 < |actions| && Inv(Step(s, actions[0]))
    requires MadeAt(Step(s, actions[0]), actions[1..], k, n, st)
    ensures MadeAt(s, actions, k + 1, n, st)
  {
    assert actions[..k + 1] == [actions[0]] + actions[1..][..k];
    RunSplit(s, [actions[0]], actions[1..][..k]);
    RunOne(s, actions[0]);
  }

  // The step made the settlement with this number, and for a reason.
  ghost predicate MadeAt(s: Pool, actions: seq<Action>, m: nat, n: nat, st: Settlement)
    requires Inv(s) && m < |actions|
  {
    var t := Run(s, actions[..m]);
    && |t.settled| <= n < |Step(t, actions[m]).settled| && Step(t, actions[m]).settled[n] == st
    && Because(t, actions[m], st)
  }

  // A job is resolved only because its execution ended so on its slot.
  lemma {:induction false} ResolvedByItsWorker(actions: seq<Action>, n: nat) returns (m: nat)
    requires n < |Run(INITIAL, actions).settled| && Run(INITIAL, actions).settled[n].outcome == Resolved
    ensures m < |actions| && actions[m].event.Finished? && actions[m].event.outcome == Resolved
    ensures var s := Run(INITIAL, actions[..m]);
            && actions[m].event.slot < |s.slots|
            && s.slots[actions[m].event.slot].running == Some(Run(INITIAL, actions).settled[n].job)
  {
    m := SettledBecause(actions, n);
  }

  // A job that is aborted while it waits leaves its line.
  lemma {:induction false} AbortedLeaves(s: Pool, a: Action, n: nat)
    requires Inv(s) && |s.settled| <= n < |Step(s, a).settled| && !a.event.Finished?
    requires var st := Step(s, a).settled[n];
             st.outcome == Aborted && st.job in QueuedJobs(s.queues) && InLine(s, st.job.group)
    ensures var job := Step(s, a).settled[n].job; job !in Line(Step(s, a), job.group)
  {
    if a.event.SignalAborts? {
      SignalSettles(s, a.event.job, a.throws);
      AbortLine(s, a.event.job, a.event.job.group);
    } else if a.event.Unload? {
      StopLeaves(s, a.event.order, Step(s, a).settled[n].job);
    } else if a.event.LoadEnds? {
      LoadSettlesNothing(s, a);
    } else {
      PumpSettles(s, a);
    }
  }

  lemma {:induction false} StopLeaves(s: Pool, order: seq<Job>, job: Job)
    requires Sound(s) && InLine(s, job.group) && job in QueuedJobs(s.queues)
    ensures job !in Line(Stop(s, order), job.group)
  {
    var jobs := AbortOrder(QueuedJobs(s.queues), order);
    StopSettles(s, order);
    AbortAllStanding(s.(stopping := true), jobs);
    NotYetStarted(s, job);
    InGroup(s.dispatched, job);
    var started := OfGroup(s.dispatched, job.group);
    assert started + [] == started;
  }

  // While the first load is under way nothing can wait.
  lemma {:induction false} LoadSettlesNothing(s: Pool, a: Action)
    requires Inv(s) && a.event.LoadEnds? && QueuedJobs(s.queues) != []
    ensures Step(s, a).settled == s.settled
  {
    assert s.queues != [];
    LoadKeeps(s, a);
  }

  // A waiting job has not started.
  lemma {:induction false} NotYetStarted(s: Pool, job: Job)
    requires WellQueued(s.queues) && InLine(s, job.group) && job in QueuedJobs(s.queues)
    ensures job !in s.dispatched
  {
    QueuedInItsGroup(s.queues, job);
    var started, waits := OfGroup(s.dispatched, job.group), WaitsOf(s.queues, job.group);
    InGroup(s.dispatched, job);
    LeavesFront(started, waits, job, |s.accepted|);
  }

  /** A job is aborted only if its execution ended so, or if it never starts in the whole run. */
  lemma {:induction false} AbortedNeverStarted(actions: seq<Action>, n: nat)
    requires n < |Run(INITIAL, actions).settled| && Run(INITIAL, actions).settled[n].outcome == Aborted
    ensures var job := Run(INITIAL, actions).settled[n].job;
            || job !in Run(INITIAL, actions).dispatched
            || (exists m :: 0 <= m < |actions| && EndsAborted(actions, m, job))
  {
    var st := Run(INITIAL, actions).settled[n];
    var m := SettledBecause(actions, n);
    if actions[m].event.Finished? {
      FinishedAborts(Run(INITIAL, actions[..m]), actions[m], n, st);
      assert EndsAborted(actions, m, st.job);
    } else {
      RunCut(actions, m);
      RunLine(INITIAL, actions[..m], st.job.group);
      LeftNeverStarts(Run(INITIAL, actions[..m]), actions[m], n, actions[m + 1..]);
    }
  }

  lemma {:induction false} RunFrom(actions: seq<Action>, m: nat)
    requires m <= |actions|
    ensures Run(INITIAL, actions) == Run(Run(INITIAL, actions[..m]), actions[m..])
  {
    assert actions == actions[..m] + actions[m..];
    RunSplit(INITIAL, actions[..m], actions[m..]);
  }

  lemma {:induction false} RunCut(actions: seq<Action>, m: nat)
    requires m < |actions|
    ensures var s := Run(INITIAL, actions[..m]);
            Inv(Step(s, actions[m])) && Run(INITIAL, actions) == Run(Step(s, actions[m]), actions[m + 1..])
  {
    RunUpTo(actions, m);
    RunFrom(actions, m + 1);
  }

  lemma {:induction false} LeftNeverStarts(s: Pool, a: Action, n: nat, rest: seq<Action>)
    requires Inv(s) && |s.settled| <= n < |Step(s, a).settled| && !a.event.Finished?
    requires var st := Step(s, a).settled[n];
             st.outcome == Aborted && Because(s, a, st) && InLine(s, st.job.group)
    ensures Inv(Step(s, a)) && Step(s, a).settled[n].job !in Run(Step(s, a), rest).dispatched
  {
    var job := Step(s, a).settled[n].job;
    AbortedLeaves(s, a, n);
    StepInv(s, a);
    StepAccepted(s, a);
    StepLine(s, a, job.group);
    QueuedIsNumbered(s, job);
    NeverStarts(Step(s, a), rest, job);
  }

  lemma {:induction false} QueuedIsNumbered(s: Pool, job: Job)
    requires WellQueued(s.queues) && InLine(s, job.group) && job in QueuedJobs(s.queues)
    ensures job.id < |s.accepted|
  {
    QueuedInItsGroup(s.queues, job);
    var started, waits := OfGroup(s.dispatched, job.group), WaitsOf(s.queues, job.group);
    var k: nat :| k < |waits| && waits[k] == job;
    assert Below(started + waits, |started| + k, |s.accepted|);
  }

  // At this step of the run the execution of the job ends as aborted.
  ghost predicate EndsAborted(actions: seq<Action>, m: nat, job: Job)
    requires m < |actions|
  {
    var s, e := Run(INITIAL, actions[..m]), actions[m].event;
    e.Finished? && e.outcome == Aborted && e.slot < |s.slots| && s.slots[e.slot].running == Some(job)
  }

  lemma {:induction false} FinishedAborts(s: Pool, a: Action, n: nat, st: Settlement)
    requires Inv(s) && a.event.Finished? && |s.settled| <= n < |Step(s, a).settled|
    requires Step(s, a).settled[n] == st && st.outcome == Aborted
    ensures a.event.outcome == Aborted && a.event.slot < |s.slots| && s.slots[a.event.slot].running == Some(st.job)
  {
    var i := a.event.slot;
    if i < SLOTS && s.slots[i].running.Some? {
      FinishedSettles(s, i, a.event.outcome, a.throws);
      SettledLastAt(s.settled, Step(s, a).settled, Settlement(s.slots[i].running.value, a.event.outcome), a.throws, n);
    }
  }

  // ----- Where a started job is -----

  // A job that throws has been rejected since; any other runs on a slot.
  ghost predicate Handled(r: Pool, settledBefore: nat, job: Job, throws: Job -> bool) {
    if throws(job) then exists m :: settledBefore <= m < |r.settled| && r.settled[m] == Settlement(job, Rejected)
    else exists k :: 0 <= k < |r.slots| && r.slots[k].running == Some(job)
  }

  ghost predicate AllHandled(s: Pool, r: Pool, throws: Job -> bool) {
    && s.dispatched <= r.dispatched && s.settled <= r.settled
    && forall n | |s.dispatched| <= n < |r.dispatched| :: Handled(r, |s.settled|, r.dispatched[n], throws)
  }

  // Every slot but this one still runs its job, if it ran one.
  predicate KeepsRunning(s: Pool, r: Pool, except: nat) {
    && |s.slots| == |r.slots| == SLOTS
    && forall k: nat | k < SLOTS && k != except && s.slots[k].running.Some? :: r.slots[k].running == s.slots[k].running
  }

  lemma {:induction false} HandledOn(r: Pool, u: Pool, settledBefore: nat, job: Job, throws: Job -> bool)
    requires Handled(r, settledBefore, job, throws) && KeepsRunning(r, u, SLOTS) && r.settled <= u.settled
    ensures Handled(u, settledBefore, job, throws)
  {
    if throws(job) {
      var m :| settledBefore <= m < |r.settled| && r.settled[m] == Settlement(job, Rejected);
      assert u.settled[m] == Settlement(job, Rejected);
    } else {
      var k :| 0 <= k < |r.slots| && r.slots[k].running == Some(job);
      assert u.slots[k].running == Some(job);
    }
  }

  lemma {:induction false} HandledTrans(s: Pool, t: Pool, u: Pool, throws: Job -> bool)
    requires AllHandled(s, t, throws) && AllHandled(t, u, throws) && KeepsRunning(t, u, SLOTS)
    ensures AllHandled(s, u, throws)
  {
    forall n | |s.dispatched| <= n < |u.dispatched|
      ensures Handled(u, |s.settled|, u.dispatched[n], throws)
    {
      if n < |t.dispatched| {
        HandledOn(t, u, |s.settled|, t.dispatched[n], throws);
      } else {
        assert Handled(u, |t.settled|, u.dispatched[n], throws);
      }
    }
  }

  lemma {:induction false} FinishHandles(s: Pool, i: nat, outcome: Outcome, throws: Job -> bool)
    requires |s.slots| == SLOTS && i < SLOTS && s.slots[i].running.Some? && NonEmptyQueues(s.queues)
    ensures AllHandled(s, Finish(s, i, outcome, throws), throws)
    ensures KeepsRunning(s, Finish(s, i, outcome, throws), i)
    decreases |QueuedJobs(s.queues)|, 2, 0
  {
    PumpHandles(Complete(s, i), 0, throws);
    var pumped := PumpFrom(Complete(s, i), 0, throws);
    var r := Finish(s, i, outcome, throws);
    forall n | |s.dispatched| <= n < |r.dispatched|
      ensures Handled(r, |s.settled|, r.dispatched[n], throws)
    {
      HandledOn(pumped, r, |s.settled|, r.dispatched[n], throws);
    }
  }

  lemma {:induction false} StartHandles(s: Pool, i: nat, throws: Job -> bool)
    requires |s.slots| == SLOTS && i < SLOTS && NonEmptyQueues(s.queues) && s.queues != []
    requires s.slots[i].running.None?
    ensures AllHandled(s, Start(s, i, throws), throws) && KeepsRunning(s, Start(s, i, throws), SLOTS)
    decreases |QueuedJobs(s.queues)|, 0, 0
  {
    RotatedJobs(s.queues);
    var t, job := Dispatch(s, i), s.queues[0].jobs[0];
    if throws(job) {
      FinishHandles(t, i, Rejected, throws);
      FinishOutcome(t, i, Rejected, throws);
      ThrownHandled(s, t, Start(s, i, throws), job, throws);
    } else {
      assert t.slots[i].running == Some(job);
    }
  }

  lemma {:induction false} ThrownHandled(s: Pool, t: Pool, r: Pool, job: Job, throws: Job -> bool)
    requires t.dispatched == s.dispatched + [job] && t.settled == s.settled && throws(job)
    requires AllHandled(t, r, throws) && SettledLast(t.settled, r.settled, Settlement(job, Rejected), throws)
    ensures AllHandled(s, r, throws)
  {
    assert r.settled[|r.settled| - 1] == Settlement(job, Rejected);
    forall n | |s.dispatched| <= n < |r.dispatched|
      ensures Handled(r, |s.settled|, r.dispatched[n], throws)
    {
      if n == |s.dispatched| {
        assert r.dispatched[n] == t.dispatched[n] == job;
      }
    }
  }

  // Each job that a pump starts runs on a slot afterwards, or threw and has been rejected; running jobs stay.
  lemma {:induction false} PumpHandles(s: Pool, i: nat, throws: Job -> bool)
    requires |s.slots| == SLOTS && i <= SLOTS && NonEmptyQueues(s.queues)
    ensures AllHandled(s, PumpFrom(s, i, throws), throws) && KeepsRunning(s, PumpFrom(s, i, throws), SLOTS)
    decreases |QueuedJobs(s.queues)|, 1, SLOTS - i
  {
    if s.loaded && !s.stopping && i < SLOTS {
      if Unavailable(s.slots[i]) {
        PumpHandles(s, i + 1, throws);
      } else if s.queues != [] && Fits(s) {
        var t := Start(s, i, throws);
        StartHandles(s, i, throws);
        PumpHandles(t, i + 1, throws);
        HandledTrans(s, t, PumpFrom(t, i + 1, throws), throws);
      }
    }
  }

  // The events that end in a pump.
  predicate Pumps(s: Pool, a: Action) {
    || (a.event.Enqueue? && !a.event.signalAborted && Accepts(s, a.event.positions))
    || a.event.Microtask?
    || (a.event.WorkerUp? && a.event.slot < SLOTS)
  }

  // The state before that pump.
  function Prepared(s: Pool, a: Action): Pool
    requires |s.slots| == SLOTS && Pumps(s, a)
  {
    match a.event
    case Enqueue(group, positions, _) => Admit(s, group, positions)
    case Microtask => s.(pumpQueued := false)
    case WorkerUp(i) => SetReady(s, i, true)
  }

  lemma {:induction false} PumpsAre(s: Pool, a: Action)
    requires Inv(s) && Pumps(s, a)
    ensures var t := Prepared(s, a);
            && Sound(t) && NonEmptyQueues(t.queues) && Step(s, a) == Pump(t, a.throws)
            && t.dispatched == s.dispatched && t.settled == s.settled && KeepsRunning(s, t, SLOTS)
            && t.loaded == s.loaded && t.stopping == s.stopping && t.failed == s.failed
            && (!a.event.WorkerUp? ==> t.slots == s.slots)
  {
    match a.event
    case Enqueue(group, positions, _) => AdmitSound(s, group, positions);
    case Microtask => FlagsSound(s, s.(pumpQueued := false));
    case WorkerUp(i) => FlagsSound(s, SetReady(s, i, true));
  }

  // The other events leave what runs and what has started alone, apart from a finished execution.
  lemma {:induction false} OthersAre(s: Pool, a: Action)
    requires Inv(s) && !Pumps(s, a)
    requires a.event.Finished? ==> a.event.slot >= SLOTS || s.slots[a.event.slot].running.None?
    ensures var t := Step(s, a);
            && t.dispatched == s.dispatched && s.settled <= t.settled && KeepsRunning(s, t, SLOTS)
            && (!a.event.WorkerDown? ==> t.slots == s.slots)
  {
    if a.event.Unload? || a.event.LoadEnds? {
      StopsAre(s, a);
    }
  }

  lemma {:induction false} StopIs(s: Pool, order: seq<Job>)
    ensures var t := Stop(s, order);
            && t.dispatched == s.dispatched && s.settled <= t.settled && t.slots == s.slots
            && t.loaded == s.loaded && t.failed == s.failed && t.stopping
  {
    AbortAllStanding(s.(stopping := true), AbortOrder(QueuedJobs(s.queues), order));
  }

  lemma {:induction false} StopsAre(s: Pool, a: Action)
    requires a.event.Unload? || a.event.LoadEnds?
    requires |s.slots| == SLOTS && NonEmptyQueues(s.queues)
    ensures var t := Step(s, a); t.dispatched == s.dispatched && s.settled <= t.settled && t.slots == s.slots
    ensures a.event.Unload? ==> Step(s, a).loaded == s.loaded && Step(s, a).failed == s.failed && Step(s, a).stopping
    ensures a.event.LoadEnds? && LoadFails(s, a.event.workersLoaded) ==>
              Step(s, a).loaded == s.loaded && Step(s, a).failed && Step(s, a).stopping
  {
    if a.event.Unload? {
      StopIs(s, a.event.order);
    } else if LoadFails(s, a.event.workersLoaded) {
      LoadFailure(s, a);
      StopIs(s.(failed := true), a.event.order);
    }
  }

  /**
    Whatever a step starts runs on a slot afterwards, or threw and has been rejected in the step; and a
    running job stays on its slot until its own execution ends.
   */
  lemma {:induction false} StepHandles(s: Pool, a: Action)
    requires Inv(s)
    ensures AllHandled(s, Step(s, a), a.throws)
    ensures KeepsRunning(s, Step(s, a), if a.event.Finished? then a.event.slot else SLOTS)
  {
    if Pumps(s, a) {
      PumpsAre(s, a);
      PumpHandles(Prepared(s, a), 0, a.throws);
    } else if a.event.Finished? && a.event.slot < SLOTS && s.slots[a.event.slot].running.Some? {
      FinishHandles(s, a.event.slot, a.event.outcome, a.throws);
    } else {
      OthersAre(s, a);
    }
  }

  // ----- Accepting, workers, loading -----

  /**
    A job is accepted exactly if its signal is live, the pool is loaded and not stopping, some worker is ready,
    fewer than four jobs wait or run, and it takes between 1 and 2048 positions. It gets the next number.
   */
  lemma {:induction false} EnqueueAccepts(
      s: Pool, group: Group, positions: int, signalAborted: bool, throws: Job -> bool)
    requires Inv(s)
    ensures var t := Step(s, Action(Event.Enqueue(group, positions, signalAborted), throws));
            if !signalAborted && s.loaded && !s.stopping && (s.slots[0].ready || s.slots[1].ready)
               && |QueuedJobs(s.queues)| + |RunningJobs(s.slots)| < 4 && 1 <= positions <= 2048
            then t.accepted == s.accepted + [Job(|s.accepted|, positions, group)]
            else t == s
  {
    var a := Action(Event.Enqueue(group, positions, signalAborted), throws);
    StepAccepted(s, a);
    assert IsReady(s) <==> s.loaded && !s.stopping && (s.slots[0].ready || s.slots[1].ready);
  }

  // The same workers are ready.
  predicate SameReady(s: Pool, t: Pool) {
    && |s.slots| == |t.slots| == SLOTS
    && t.slots[0].ready == s.slots[0].ready && t.slots[1].ready == s.slots[1].ready
  }

  lemma {:induction false} StartReady(s: Pool, i: nat, throws: Job -> bool)
    requires |s.slots| == SLOTS && i < SLOTS && NonEmptyQueues(s.queues) && s.queues != []
    ensures SameReady(s, Start(s, i, throws))
    decreases |QueuedJobs(s.queues)|, 0, 0
  {
    RotatedJobs(s.queues);
    if throws(s.queues[0].jobs[0]) {
      PumpReady(Complete(Dispatch(s, i), i), 0, throws);
    }
  }

  lemma {:induction false} PumpReady(s: Pool, i: nat, throws: Job -> bool)
    requires |s.slots| == SLOTS && i <= SLOTS && NonEmptyQueues(s.queues)
    ensures SameReady(s, PumpFrom(s, i, throws))
    decreases |QueuedJobs(s.queues)|, 1, SLOTS - i
  {
    if s.loaded && !s.stopping && i < SLOTS {
      if Unavailable(s.slots[i]) {
        PumpReady(s, i + 1, throws);
      } else if s.queues != [] && Fits(s) {
        StartReady(s, i, throws);
        PumpReady(Start(s, i, throws), i + 1, throws);
      }
    }
  }

  lemma {:induction false} PumpedReady(s: Pool, a: Action, k: nat)
    requires Inv(s) && k < 2 && Pumps(s, a)
    ensures var t := Step(s, a);
            |t.slots| == 2 && t.slots[k].ready == (a.event == WorkerUp(k) || s.slots[k].ready)
  {
    PumpsAre(s, a);
    PumpReady(Prepared(s, a), 0, a.throws);
  }

  lemma {:induction false} FinishedReady(s: Pool, a: Action, k: nat)
    requires Inv(s) && k < 2 && a.event.Finished? && a.event.slot < SLOTS && s.slots[a.event.slot].running.Some?
    ensures var t := Step(s, a); |t.slots| == 2 && t.slots[k].ready == s.slots[k].ready
  {
    PumpReady(Complete(s, a.event.slot), 0, a.throws);
  }

  // Only a worker's own events change whether it is ready, and its readiness is what the last of them said.
  lemma {:induction false} WorkerIsReady(s: Pool, a: Action, k: nat)
    requires Inv(s) && k < 2
    ensures var t := Step(s, a);
            && |t.slots| == 2
            && t.slots[k].ready
               == if a.event == WorkerUp(k) then true else if a.event == WorkerDown(k) then false else s.slots[k].ready
  {
    if Pumps(s, a) {
      PumpedReady(s, a, k);
    } else if a.event.WorkerDown? {
    } else if a.event.Finished? && a.event.slot < SLOTS && s.slots[a.event.slot].running.Some? {
      FinishedReady(s, a, k);
    } else {
      OthersAre(s, a);
    }
  }

  /**
    The first load that ends decides: with both workers loaded and ready and no unload in between the pool is
    loaded, otherwise it has failed and stops for good. Nothing else loads it, and only unloading stops it.
   */
  lemma {:induction false} LoadDecides(s: Pool, a: Action)
    requires Inv(s)
    ensures var t := Step(s, a);
            var first := a.event.LoadEnds? && !s.loaded && !s.failed;
            var succeeds := first && a.event.workersLoaded && !s.stopping && s.slots[0].ready && s.slots[1].ready;
            && (t.loaded <==> s.loaded || succeeds)
            && (t.failed <==> s.failed || (first && !succeeds))
            && (t.stopping <==> s.stopping || a.event.Unload? || (first && !succeeds))
  {
    if Pumps(s, a) {
      PumpsAre(s, a);
      PumpStanding(Prepared(s, a), 0, a.throws);
    } else if a.event.Finished? && a.event.slot < SLOTS && s.slots[a.event.slot].running.Some? {
      PumpStanding(Complete(s, a.event.slot), 0, a.throws);
    } else if a.event.Unload? || a.event.LoadEnds? {
      StopsAre(s, a);
    }
  }
}
