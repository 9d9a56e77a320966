/**
  The two-slot worker pool with one round-robin queue per request.

  The pool's atomic steps are functions from state to state; the class below them updates the same
  state in place and is proved equal to them step by step.
 */
module OnnxPool {
  import opened Wrappers
  import opened Sequences

  const SLOTS := 2
  const MAXIMUM_OUTSTANDING := 4
  const BATCH_POSITIONS := 2048

  // The request's abort signal, or the pool's own group.
  datatype Group = Startup | Request(signal: nat)

  datatype Job = Job(id: nat, positions: int, group: Group)

  datatype Slot = Slot(ready: bool, running: Option<Job>)

  datatype Queue = Queue(group: Group, jobs: seq<Job>)

  datatype Outcome = Resolved | Rejected | Aborted

  datatype Settlement = Settlement(job: Job, outcome: Outcome)

  /**
    `queues` is an insertion-ordered map from group to waiting jobs. `finishing` holds jobs whose
    promise is about to be settled; `accepted`, `dispatched` and `settled` record what happened.
   */
  datatype Pool = Pool(
    slots: seq<Slot>,
    queues: seq<Queue>,
    outstanding: int,
    activePositions: int,
    loaded: bool,
    stopping: bool,
    failed: bool,
    pumpQueued: bool,
    finishing: seq<Job>,
    accepted: seq<Job>,
    dispatched: seq<Job>,
    settled: seq<Settlement>)

  const INITIAL := Pool([Slot(false, None), Slot(false, None)], [], 0, 0, false, false, false, false, [], [], [], [])

  // ----- Queues -----

  function QueuedJobs(queues: seq<Queue>): seq<Job> {
    if queues == [] then [] else queues[0].jobs + QueuedJobs(queues[1..])
  }

  // Where a group waits; the number of queues if it does not.
  function Position(queues: seq<Queue>, group: Group): (p: nat)
    ensures p <= |queues|
    ensures p < |queues| ==> queues[p].group == group
    ensures forall i | 0 <= i < p :: queues[i].group != group
  {
    if queues == [] then 0
    else if queues[0].group == group then 0
    else 1 + Position(queues[1..], group)
  }

  predicate Waiting(queues: seq<Queue>, group: Group) {
    Position(queues, group) < |queues|
  }

  function Push(queues: seq<Queue>, job: Job): seq<Queue> {
    var p := Position(queues, job.group);
    if p < |queues| then queues[p := Queue(job.group, queues[p].jobs + [job])]
    else queues + [Queue(job.group, [job])]
  }

  // The jobs without the first one equal to `job`.
  function Without(jobs: seq<Job>, job: Job): seq<Job> {
    if jobs == [] then []
    else if jobs[0] == job then jobs[1..]
    else [jobs[0]] + Without(jobs[1..], job)
  }

  // Takes the job out of its group's queue, and the queue away when it becomes empty.
  function Remove(queues: seq<Queue>, job: Job): seq<Queue> {
    var p := Position(queues, job.group);
    if p == |queues| then queues
    else
      var rest := Without(queues[p].jobs, job);
      if rest == [] then queues[..p] + queues[p + 1..]
      else queues[p := Queue(job.group, rest)]
  }

  function Rotated(queues: seq<Queue>): seq<Queue>
    requires queues != [] && queues[0].jobs != []
  {
    var head := queues[0];
    queues[1..] + if |head.jobs| > 1 then [Queue(head.group, head.jobs[1..])] else []
  }

  // ----- Steps -----

  predicate SomeReady(slots: seq<Slot>) {
    exists i :: 0 <= i < |slots| && slots[i].ready
  }

  predicate IsReady(s: Pool) {
    s.loaded && !s.stopping && SomeReady(s.slots)
  }

  predicate NonEmptyQueues(queues: seq<Queue>) {
    forall p | 0 <= p < |queues| :: queues[p].jobs != []
  }

  predicate Fits(s: Pool)
    requires s.queues != [] && s.queues[0].jobs != []
  {
    s.activePositions + s.queues[0].jobs[0].positions <= BATCH_POSITIONS
  }

  function Dispatch(s: Pool, i: nat): Pool
    requires i < |s.slots| && s.queues != [] && s.queues[0].jobs != []
  {
    var job := s.queues[0].jobs[0];
    s.(queues := Rotated(s.queues),
       slots := s.slots[i := s.slots[i].(running := Some(job))],
       activePositions := s.activePositions + job.positions,
       dispatched := s.dispatched + [job])
  }

  function Complete(s: Pool, i: nat): Pool
    requires i < |s.slots| && s.slots[i].running.Some?
  {
    var job := s.slots[i].running.value;
    s.(slots := s.slots[i := s.slots[i].(running := None)],
       outstanding := s.outstanding - 1,
       activePositions := s.activePositions - job.positions,
       finishing := s.finishing + [job])
  }

  function Settle(s: Pool, outcome: Outcome): Pool
    requires s.finishing != []
  {
    var last := |s.finishing| - 1;
    s.(finishing := s.finishing[..last], settled := s.settled + [Settlement(s.finishing[last], outcome)])
  }

  lemma {:induction false} QueuedAppend(a: seq<Queue>, b: seq<Queue>)
    ensures QueuedJobs(a + b) == QueuedJobs(a) + QueuedJobs(b)
  {
    if a == [] {
      assert a + b == b;
    } else {
      assert (a + b)[1..] == a[1..] + b;
      QueuedAppend(a[1..], b);
    }
  }

  lemma RotatedJobs(queues: seq<Queue>)
    requires queues != [] && queues[0].jobs != []
    ensures QueuedJobs(Rotated(queues)) == QueuedJobs(queues[1..]) + queues[0].jobs[1..]
    ensures |QueuedJobs(queues)| == |QueuedJobs(Rotated(queues))| + 1
    ensures NonEmptyQueues(queues) ==> NonEmptyQueues(Rotated(queues))
  {
    var head := queues[0];
    if |head.jobs| > 1 {
      var tail := [Queue(head.group, head.jobs[1..])];
      QueuedAppend(queues[1..], tail);
      assert tail[1..] == [];
    } else {
      assert queues[1..] + [] == queues[1..];
    }
  }

  predicate Unavailable(slot: Slot) {
    slot.running.Some? || !slot.ready
  }

  // finish: free the slot, let waiting requests in, then settle the promise.
  function Finish(s: Pool, i: nat, outcome: Outcome, throws: Job -> bool): (r: Pool)
    requires |s.slots| == SLOTS && i < SLOTS && s.slots[i].running.Some? && NonEmptyQueues(s.queues)
    ensures |r.slots| == SLOTS && NonEmptyQueues(r.queues) && r.finishing == s.finishing
    ensures |QueuedJobs(r.queues)| <= |QueuedJobs(s.queues)|
    decreases |QueuedJobs(s.queues)|, 2, 0
  {
    var pumped := PumpFrom(Complete(s, i), 0, throws);
    Settle(pumped, outcome)
  }

  // The head of the first queue starts on an idle slot. `throws` tells which jobs throw before they return a promise.
  function Start(s: Pool, i: nat, throws: Job -> bool): (r: Pool)
    requires |s.slots| == SLOTS && i < SLOTS && NonEmptyQueues(s.queues) && s.queues != []
    ensures |r.slots| == SLOTS && NonEmptyQueues(r.queues) && r.finishing == s.finishing
    ensures |QueuedJobs(r.queues)| < |QueuedJobs(s.queues)|
    decreases |QueuedJobs(s.queues)|, 0, 0
  {
    RotatedJobs(s.queues);
    var started := Dispatch(s, i);
    if throws(s.queues[0].jobs[0]) then Finish(started, i, Rejected, throws) else started
  }

  // pump, from slot i on.
  function PumpFrom(s: Pool, i: nat, throws: Job -> bool): (r: Pool)
    requires |s.slots| == SLOTS && i <= SLOTS && NonEmptyQueues(s.queues)
    ensures |r.slots| == SLOTS && NonEmptyQueues(r.queues) && r.finishing == s.finishing
    ensures |QueuedJobs(r.queues)| <= |QueuedJobs(s.queues)|
    decreases |QueuedJobs(s.queues)|, 1, SLOTS - i
  {
    if !s.loaded || s.stopping || i == SLOTS then s
    else if Unavailable(s.slots[i]) then PumpFrom(s, i + 1, throws)
    else if s.queues == [] || !Fits(s) then s
    else PumpFrom(Start(s, i, throws), i + 1, throws)
  }

  function Pump(s: Pool, throws: Job -> bool): Pool
    requires |s.slots| == SLOTS && NonEmptyQueues(s.queues)
  {
    PumpFrom(s, 0, throws)
  }

  predicate Accepts(s: Pool, positions: int) {
    IsReady(s) && s.outstanding < MAXIMUM_OUTSTANDING && 1 <= positions <= BATCH_POSITIONS
  }

  function Admit(s: Pool, group: Group, positions: int): Pool {
    var job := Job(|s.accepted|, positions, group);
    s.(outstanding := s.outstanding + 1, queues := Push(s.queues, job), accepted := s.accepted + [job])
  }

  // onAbort of one job.
  function AbortJob(s: Pool, job: Job): Pool {
    if job !in QueuedJobs(s.queues) then s
    else
      s.(queues := Remove(s.queues, job),
         outstanding := s.outstanding - 1,
         pumpQueued := true,
         settled := s.settled + [Settlement(job, Aborted)])
  }

  function AbortAll(s: Pool, jobs: seq<Job>): Pool
    decreases |jobs|
  {
    if jobs == [] then s else AbortAll(AbortJob(s, jobs[0]), jobs[1..])
  }

  // The queued jobs in the order in which the listeners of the shutdown signal run.
  function AbortOrder(queued: seq<Job>, order: seq<Job>): seq<Job> {
    if multiset(order) == multiset(queued) then order else queued
  }

  function Stop(s: Pool, order: seq<Job>): Pool {
    AbortAll(s.(stopping := true), AbortOrder(QueuedJobs(s.queues), order))
  }

  // ----- The invariant -----

  // What one slot contributes to the running jobs, and to the positions they occupy.
  function Holds(slot: Slot): seq<Job> {
    if slot.running.Some? then [slot.running.value] else []
  }

  function Occupies(slot: Slot): int {
    if slot.running.Some? then slot.running.value.positions else 0
  }

  function RunningJobs(slots: seq<Slot>): seq<Job>
    requires |slots| == SLOTS
  {
    Holds(slots[0]) + Holds(slots[1])
  }

  function RunningPositions(slots: seq<Slot>): int
    requires |slots| == SLOTS
  {
    Occupies(slots[0]) + Occupies(slots[1])
  }

  function SettledJobs(settled: seq<Settlement>): seq<Job> {
    if settled == [] then [] else SettledJobs(settled[..|settled| - 1]) + [settled[|settled| - 1].job]
  }

  predicate Sized(job: Job) {
    1 <= job.positions <= BATCH_POSITIONS
  }

  predicate Filled(q: Queue) {
    q.jobs != [] && forall n | 0 <= n < |q.jobs| :: q.jobs[n].group == q.group && Sized(q.jobs[n])
  }

  predicate OtherGroups(queues: seq<Queue>, p: nat, q: nat)
    requires p < q < |queues|
  {
    queues[p].group != queues[q].group
  }

  // No queue is empty, each holds its own group's jobs, and no group has two queues.
  ghost predicate WellQueued(queues: seq<Queue>) {
    && (forall p | 0 <= p < |queues| :: Filled(queues[p]))
    && (forall p: nat, q: nat {:trigger OtherGroups(queues, p, q)} | p < q < |queues| :: OtherGroups(queues, p, q))
  }

  // Nothing more can start: nothing waits, no ready slot is idle, or the head needs more room.
  predicate Quiet(s: Pool) {
    || s.queues == []
    || (forall i | 0 <= i < |s.slots| :: Unavailable(s.slots[i]))
    || (s.queues[0].jobs != [] && !Fits(s))
  }

  // How often a job occurs in a list.
  function Count(jobs: seq<Job>, job: Job): nat {
    if jobs == [] then 0 else One(jobs[0], job) + Count(jobs[1..], job)
  }

  function One(a: Job, b: Job): nat {
    if a == b then 1 else 0
  }

  // The job is in the pool as often as it was accepted: waiting, running, being settled or settled.
  predicate Placed(s: Pool, job: Job)
    requires |s.slots| == SLOTS
  {
    Count(QueuedJobs(s.queues), job) + Count(RunningJobs(s.slots), job) + Count(s.finishing, job)
      + Count(SettledJobs(s.settled), job)
    == Count(s.accepted, job)
  }

  ghost predicate Booked(s: Pool) {
    |s.slots| == SLOTS && forall job {:trigger Placed(s, job)} :: Placed(s, job)
  }

  predicate Numbered(accepted: seq<Job>) {
    forall n | 0 <= n < |accepted| :: accepted[n].id == n
  }

  predicate Counted(s: Pool) {
    && |s.slots| == SLOTS
    && s.outstanding == |QueuedJobs(s.queues)| + |RunningJobs(s.slots)|
    && s.activePositions == RunningPositions(s.slots)
  }

  predicate Bounded(s: Pool) {
    && s.outstanding <= MAXIMUM_OUTSTANDING && s.activePositions <= BATCH_POSITIONS
    && forall i | 0 <= i < |s.slots| && s.slots[i].running.Some? :: Sized(s.slots[i].running.value)
  }

  ghost predicate Sound(s: Pool) {
    Booked(s) && Numbered(s.accepted) && Counted(s) && Bounded(s) && WellQueued(s.queues)
  }

  ghost predicate Inv(s: Pool) {
    && Sound(s) && s.finishing == []
    && (!s.loaded || s.stopping ==> s.queues == [])
    && (s.loaded && !s.stopping && !s.pumpQueued ==> Quiet(s))
  }

  // ----- Queues keep their jobs -----

  lemma {:induction false} QueuedSplit(queues: seq<Queue>, p: nat)
    requires p < |queues|
    ensures QueuedJobs(queues) == QueuedJobs(queues[..p]) + queues[p].jobs + QueuedJobs(queues[p + 1..])
  {
    assert queues == queues[..p] + queues[p..];
    QueuedAppend(queues[..p], queues[p..]);
    assert queues[p..][1..] == queues[p + 1..];
  }

  lemma QueuedReplaced(queues: seq<Queue>, p: nat, q: Queue)
    requires p < |queues|
    ensures QueuedJobs(queues[p := q]) == QueuedJobs(queues[..p]) + q.jobs + QueuedJobs(queues[p + 1..])
  {
    var after := queues[p := q];
    QueuedSplit(after, p);
    assert after[..p] == queues[..p] && after[p + 1..] == queues[p + 1..];
  }

  lemma {:induction false} InSomeQueue(queues: seq<Queue>, job: Job) returns (p: nat)
    requires job in QueuedJobs(queues)
    ensures p < |queues| && job in queues[p].jobs
  {
    if job in queues[0].jobs {
      p := 0;
    } else {
      var q := InSomeQueue(queues[1..], job);
      p := q + 1;
    }
  }

  lemma {:induction false} PositionIs(queues: seq<Queue>, group: Group, p: nat)
    requires p < |queues| && queues[p].group == group && forall i | 0 <= i < p :: queues[i].group != group
    ensures Position(queues, group) == p
  {
  }

  lemma GroupsDiffer(queues: seq<Queue>, p: nat, q: nat)
    requires WellQueued(queues) && p < |queues| && q < |queues| && p != q
    ensures queues[p].group != queues[q].group
  {
    assert if p < q then OtherGroups(queues, p, q) else OtherGroups(queues, q, p);
  }

  lemma ItsPosition(queues: seq<Queue>, q: nat)
    requires WellQueued(queues) && q < |queues|
    ensures Position(queues, queues[q].group) == q
  {
    var p := Position(queues, queues[q].group);
    if p < q {
      GroupsDiffer(queues, p, q);
    }
  }

  lemma QueuedInItsGroup(queues: seq<Queue>, job: Job)
    requires WellQueued(queues) && job in QueuedJobs(queues)
    ensures Waiting(queues, job.group) && job in queues[Position(queues, job.group)].jobs
  {
    var q := InSomeQueue(queues, job);
    assert Filled(queues[q]);
    ItsPosition(queues, q);
  }

  lemma {:induction false} CountAppend(a: seq<Job>, b: seq<Job>, job: Job)
    ensures Count(a + b, job) == Count(a, job) + Count(b, job)
  {
    if a == [] {
      assert a + b == b;
    } else {
      assert (a + b)[1..] == a[1..] + b;
      CountAppend(a[1..], b, job);
    }
  }

  lemma {:induction false} CountPositive(jobs: seq<Job>, job: Job)
    ensures job in jobs <==> Count(jobs, job) > 0
  {
    if jobs != [] {
      CountPositive(jobs[1..], job);
    }
  }

  lemma CountInside(before: seq<Job>, jobs: seq<Job>, after: seq<Job>, job: Job)
    ensures Count(before + jobs + after, job) == Count(before, job) + Count(jobs, job) + Count(after, job)
  {
    CountAppend(before + jobs, after, job);
    CountAppend(before, jobs, job);
  }

  lemma PushJobs(queues: seq<Queue>, job: Job, x: Job)
    ensures Count(QueuedJobs(Push(queues, job)), x) == Count(QueuedJobs(queues), x) + One(job, x)
    ensures |QueuedJobs(Push(queues, job))| == |QueuedJobs(queues)| + 1
  {
    var p := Position(queues, job.group);
    if p < |queues| {
      var jobs := queues[p].jobs;
      QueuedSplit(queues, p);
      QueuedReplaced(queues, p, Queue(job.group, jobs + [job]));
      CountInside(QueuedJobs(queues[..p]), jobs, QueuedJobs(queues[p + 1..]), x);
      CountInside(QueuedJobs(queues[..p]), jobs + [job], QueuedJobs(queues[p + 1..]), x);
      CountAppend(jobs, [job], x);
      assert Count([job], x) == One(job, x);
    } else {
      QueuedAppend(queues, [Queue(job.group, [job])]);
      assert QueuedJobs([Queue(job.group, [job])]) == [job] by {
        assert [job] + QueuedJobs([]) == [job];
      }
      CountAppend(QueuedJobs(queues), [job], x);
    }
  }

  lemma PushWell(queues: seq<Queue>, job: Job)
    requires WellQueued(queues) && Sized(job)
    ensures WellQueued(Push(queues, job))
  {
    var p, pushed := Position(queues, job.group), Push(queues, job);
    if p < |queues| {
      assert Filled(queues[p]);
    }
    forall m: nat, n: nat {:trigger OtherGroups(pushed, m, n)} | m < n < |pushed|
      ensures OtherGroups(pushed, m, n)
    {
      if n < |queues| {
        GroupsDiffer(queues, m, n);
      }
    }
  }

  lemma {:induction false} WithoutJobs(jobs: seq<Job>, job: Job, x: Job)
    requires job in jobs
    ensures Count(jobs, x) == Count(Without(jobs, job), x) + One(job, x)
    ensures |jobs| == |Without(jobs, job)| + 1
  {
    if jobs[0] != job {
      WithoutJobs(jobs[1..], job, x);
    }
  }

  lemma {:induction false} WithoutFilled(group: Group, jobs: seq<Job>, job: Job)
    requires forall n | 0 <= n < |jobs| :: jobs[n].group == group && Sized(jobs[n])
    ensures forall n | 0 <= n < |Without(jobs, job)| ::
        Without(jobs, job)[n].group == group && Sized(Without(jobs, job)[n])
  {
    if jobs != [] && jobs[0] != job {
      WithoutFilled(group, jobs[1..], job);
    }
  }

  lemma RemoveJobs(queues: seq<Queue>, job: Job, x: Job)
    requires WellQueued(queues) && job in QueuedJobs(queues)
    ensures Count(QueuedJobs(queues), x) == Count(QueuedJobs(Remove(queues, job)), x) + One(job, x)
    ensures |QueuedJobs(queues)| == |QueuedJobs(Remove(queues, job))| + 1
  {
    QueuedInItsGroup(queues, job);
    var p := Position(queues, job.group);
    var rest := Without(queues[p].jobs, job);
    WithoutJobs(queues[p].jobs, job, x);
    QueuedSplit(queues, p);
    CountInside(QueuedJobs(queues[..p]), queues[p].jobs, QueuedJobs(queues[p + 1..]), x);
    CountInside(QueuedJobs(queues[..p]), rest, QueuedJobs(queues[p + 1..]), x);
    if rest == [] {
      QueuedAppend(queues[..p], queues[p + 1..]);
      assert QueuedJobs(queues[..p]) + rest == QueuedJobs(queues[..p]);
    } else {
      QueuedReplaced(queues, p, Queue(job.group, rest));
    }
  }

  lemma RemoveWell(queues: seq<Queue>, job: Job)
    requires WellQueued(queues) && job in QueuedJobs(queues)
    ensures WellQueued(Remove(queues, job))
  {
    QueuedInItsGroup(queues, job);
    var p := Position(queues, job.group);
    assert Filled(queues[p]);
    WithoutFilled(job.group, queues[p].jobs, job);
    var removed, gone := Remove(queues, job), Without(queues[p].jobs, job) == [];
    forall m: nat, n: nat {:trigger OtherGroups(removed, m, n)} | m < n < |removed|
      ensures OtherGroups(removed, m, n)
    {
      GroupsDiffer(queues, if gone && m >= p then m + 1 else m, if gone && n >= p then n + 1 else n);
    }
  }

  lemma RotatedWell(queues: seq<Queue>)
    requires WellQueued(queues) && queues != []
    ensures queues[0].jobs != [] && Sized(queues[0].jobs[0]) && WellQueued(Rotated(queues))
  {
    assert Filled(queues[0]);
    var rotated := Rotated(queues);
    forall p | 0 <= p < |rotated|
      ensures Filled(rotated[p])
    {
      if p < |queues| - 1 {
        assert Filled(queues[p + 1]);
      }
    }
    forall m: nat, n: nat {:trigger OtherGroups(rotated, m, n)} | m < n < |rotated|
      ensures OtherGroups(rotated, m, n)
    {
      GroupsDiffer(queues, m + 1, if n < |queues| - 1 then n + 1 else 0);
    }
  }

  // A busy slot adds its job to what runs while it is idle.
  lemma SlotChange(idle: seq<Slot>, i: nat, busy: seq<Slot>, job: Job, x: Job)
    requires |idle| == |busy| == SLOTS && i < SLOTS
    requires idle[i].running.None? && busy[i].running == Some(job) && idle[1 - i] == busy[1 - i]
    ensures Count(RunningJobs(busy), x) == Count(RunningJobs(idle), x) + One(job, x)
    ensures |RunningJobs(busy)| == |RunningJobs(idle)| + 1
    ensures RunningPositions(busy) == RunningPositions(idle) + job.positions
  {
    CountAppend(Holds(idle[0]), Holds(idle[1]), x);
    CountAppend(Holds(busy[0]), Holds(busy[1]), x);
    assert Holds(busy[i]) == [job];
  }

  // ----- Each step keeps the books -----

  // Only the flags and the workers' readiness differ.
  predicate SameJobsHeld(s: Pool, t: Pool) {
    && |s.slots| == |t.slots| == SLOTS && t.slots[0].running == s.slots[0].running
       && t.slots[1].running == s.slots[1].running
    && t.queues == s.queues && t.finishing == s.finishing && t.settled == s.settled && t.accepted == s.accepted
    && t.outstanding == s.outstanding && t.activePositions == s.activePositions
  }

  lemma FlagsSound(s: Pool, t: Pool)
    requires Sound(s) && SameJobsHeld(s, t)
    ensures Sound(t)
  {
    assert RunningJobs(t.slots) == RunningJobs(s.slots) by {
      assert Holds(t.slots[0]) == Holds(s.slots[0]) && Holds(t.slots[1]) == Holds(s.slots[1]);
    }
    forall x ensures Placed(t, x) {
      assert Placed(s, x);
    }
  }

  lemma DispatchCounted(s: Pool, i: nat, x: Job)
    requires Counted(s) && s.queues != [] && i < SLOTS && s.slots[i].running.None? && s.queues[0].jobs != []
    ensures Counted(Dispatch(s, i)) && (Placed(s, x) ==> Placed(Dispatch(s, i), x))
  {
    var job := s.queues[0].jobs[0];
    RotatedJobs(s.queues);
    SlotChange(s.slots, i, Dispatch(s, i).slots, job, x);
    CountAppend(s.queues[0].jobs, QueuedJobs(s.queues[1..]), x);
    CountAppend(QueuedJobs(s.queues[1..]), s.queues[0].jobs[1..], x);
  }

  lemma DispatchSound(s: Pool, i: nat)
    requires Sound(s) && s.queues != [] && i < SLOTS && s.slots[i].running.None?
    requires s.queues[0].jobs != [] && Fits(s)
    ensures Sound(Dispatch(s, i))
  {
    DispatchCounted(s, i, s.queues[0].jobs[0]);
    forall x ensures Placed(Dispatch(s, i), x) {
      DispatchCounted(s, i, x);
    }
    RotatedWell(s.queues);
  }

  lemma CompleteCounted(s: Pool, i: nat, x: Job)
    requires Counted(s) && i < SLOTS && s.slots[i].running.Some?
    ensures Counted(Complete(s, i)) && (Placed(s, x) ==> Placed(Complete(s, i), x))
  {
    var job := s.slots[i].running.value;
    SlotChange(Complete(s, i).slots, i, s.slots, job, x);
    CountAppend(s.finishing, [job], x);
  }

  lemma CompleteSound(s: Pool, i: nat)
    requires Sound(s) && i < SLOTS && s.slots[i].running.Some?
    ensures Sound(Complete(s, i))
  {
    CompleteCounted(s, i, s.slots[i].running.value);
    forall x ensures Placed(Complete(s, i), x) {
      CompleteCounted(s, i, x);
    }
    assert Sized(s.slots[i].running.value);
  }

  lemma SettledAppend(settled: seq<Settlement>, last: Settlement, x: Job)
    ensures Count(SettledJobs(settled + [last]), x) == Count(SettledJobs(settled), x) + One(last.job, x)
  {
    assert (settled + [last])[..|settled|] == settled;
    CountAppend(SettledJobs(settled), [last.job], x);
  }

  lemma SettlePlaced(s: Pool, outcome: Outcome, x: Job)
    requires s.finishing != [] && |s.slots| == SLOTS && Placed(s, x)
    ensures Placed(Settle(s, outcome), x)
  {
    var front, last := s.finishing[..|s.finishing| - 1], s.finishing[|s.finishing| - 1];
    assert s.finishing == front + [last];
    CountAppend(front, [last], x);
    SettledAppend(s.settled, Settlement(last, outcome), x);
  }

  lemma SettleSound(s: Pool, outcome: Outcome)
    requires Sound(s) && s.finishing != []
    ensures Sound(Settle(s, outcome))
  {
    forall x ensures Placed(Settle(s, outcome), x) {
      SettlePlaced(s, outcome, x);
    }
  }

  lemma AdmitCounted(s: Pool, group: Group, positions: int, x: Job)
    requires Counted(s)
    ensures Counted(Admit(s, group, positions)) && (Placed(s, x) ==> Placed(Admit(s, group, positions), x))
  {
    var job := Job(|s.accepted|, positions, group);
    PushJobs(s.queues, job, x);
    CountAppend(s.accepted, [job], x);
  }

  lemma AdmitSound(s: Pool, group: Group, positions: int)
    requires Sound(s) && Accepts(s, positions)
    ensures Sound(Admit(s, group, positions))
  {
    AdmitCounted(s, group, positions, Job(|s.accepted|, positions, group));
    forall x ensures Placed(Admit(s, group, positions), x) {
      AdmitCounted(s, group, positions, x);
    }
    PushWell(s.queues, Job(|s.accepted|, positions, group));
  }

  lemma AbortCounted(s: Pool, job: Job, x: Job)
    requires Counted(s) && WellQueued(s.queues)
    ensures Counted(AbortJob(s, job)) && (Placed(s, x) ==> Placed(AbortJob(s, job), x))
  {
    if job in QueuedJobs(s.queues) {
      RemoveJobs(s.queues, job, x);
      SettledAppend(s.settled, Settlement(job, Aborted), x);
    }
  }

  lemma AbortSound(s: Pool, job: Job)
    requires Sound(s)
    ensures Sound(AbortJob(s, job))
  {
    AbortCounted(s, job, job);
    forall x ensures Placed(AbortJob(s, job), x) {
      AbortCounted(s, job, x);
    }
    if job in QueuedJobs(s.queues) {
      RemoveWell(s.queues, job);
    }
  }

  lemma {:induction false} FinishSound(s: Pool, i: nat, outcome: Outcome, throws: Job -> bool)
    requires Sound(s) && i < SLOTS && s.slots[i].running.Some?
    ensures Sound(Finish(s, i, outcome, throws))
    decreases |QueuedJobs(s.queues)|, 2, 0
  {
    CompleteSound(s, i);
    PumpSound(Complete(s, i), 0, throws);
    SettleSound(PumpFrom(Complete(s, i), 0, throws), outcome);
  }

  lemma {:induction false} StartSound(s: Pool, i: nat, throws: Job -> bool)
    requires Sound(s) && i < SLOTS && s.slots[i].running.None? && s.queues != [] && Fits(s)
    ensures Sound(Start(s, i, throws))
    decreases |QueuedJobs(s.queues)|, 0, 0
  {
    RotatedJobs(s.queues);
    DispatchSound(s, i);
    if throws(s.queues[0].jobs[0]) {
      FinishSound(Dispatch(s, i), i, Rejected, throws);
    }
  }

  lemma {:induction false} PumpSound(s: Pool, i: nat, throws: Job -> bool)
    requires Sound(s) && i <= SLOTS
    ensures Sound(PumpFrom(s, i, throws))
    decreases |QueuedJobs(s.queues)|, 1, SLOTS - i
  {
    if s.loaded && !s.stopping && i < SLOTS {
      if Unavailable(s.slots[i]) {
        PumpSound(s, i + 1, throws);
      } else if s.queues != [] && Fits(s) {
        StartSound(s, i, throws);
        PumpSound(Start(s, i, throws), i + 1, throws);
      }
    }
  }

  // What a pump leaves alone.
  ghost predicate SameStanding(s: Pool, t: Pool) {
    && t.loaded == s.loaded && t.stopping == s.stopping && t.failed == s.failed && t.pumpQueued == s.pumpQueued
    && t.accepted == s.accepted && s.settled <= t.settled && s.dispatched <= t.dispatched
  }

  lemma {:induction false} FinishStanding(s: Pool, i: nat, outcome: Outcome, throws: Job -> bool)
    requires |s.slots| == SLOTS && i < SLOTS && s.slots[i].running.Some? && NonEmptyQueues(s.queues)
    ensures SameStanding(s, Finish(s, i, outcome, throws))
    decreases |QueuedJobs(s.queues)|, 2, 0
  {
    PumpStanding(Complete(s, i), 0, throws);
  }

  lemma {:induction false} StartStanding(s: Pool, i: nat, throws: Job -> bool)
    requires |s.slots| == SLOTS && i < SLOTS && NonEmptyQueues(s.queues) && s.queues != []
    ensures SameStanding(s, Start(s, i, throws))
    decreases |QueuedJobs(s.queues)|, 0, 0
  {
    RotatedJobs(s.queues);
    if throws(s.queues[0].jobs[0]) {
      FinishStanding(Dispatch(s, i), i, Rejected, throws);
    }
  }

  lemma {:induction false} PumpStanding(s: Pool, i: nat, throws: Job -> bool)
    requires |s.slots| == SLOTS && i <= SLOTS && NonEmptyQueues(s.queues)
    ensures SameStanding(s, PumpFrom(s, i, throws))
    decreases |QueuedJobs(s.queues)|, 1, SLOTS - i
  {
    if s.loaded && !s.stopping && i < SLOTS {
      if Unavailable(s.slots[i]) {
        PumpStanding(s, i + 1, throws);
      } else if s.queues != [] && Fits(s) {
        StartStanding(s, i, throws);
        PumpStanding(Start(s, i, throws), i + 1, throws);
      }
    }
  }

  // ----- A pump never stops early -----

  lemma {:induction false} QuietFixed(s: Pool, i: nat, throws: Job -> bool)
    requires |s.slots| == SLOTS && i <= SLOTS && NonEmptyQueues(s.queues) && Quiet(s)
    ensures PumpFrom(s, i, throws) == s
    decreases SLOTS - i
  {
    if i < SLOTS {
      QuietFixed(s, i + 1, throws);
    }
  }

  lemma {:induction false} FinishQuiet(s: Pool, i: nat, outcome: Outcome, throws: Job -> bool)
    requires |s.slots| == SLOTS && i < SLOTS && s.slots[i].running.Some? && NonEmptyQueues(s.queues)
    requires s.loaded && !s.stopping
    ensures Quiet(Finish(s, i, outcome, throws))
    decreases |QueuedJobs(s.queues)|, 2, 0
  {
    PumpQuiet(Complete(s, i), 0, throws);
  }

  lemma {:induction false} PumpQuiet(s: Pool, i: nat, throws: Job -> bool)
    requires |s.slots| == SLOTS && i <= SLOTS && NonEmptyQueues(s.queues)
    requires s.loaded && !s.stopping && forall k | 0 <= k < i :: Unavailable(s.slots[k])
    ensures Quiet(PumpFrom(s, i, throws))
    decreases |QueuedJobs(s.queues)|, 1, SLOTS - i
  {
    if i < SLOTS {
      if Unavailable(s.slots[i]) {
        PumpQuiet(s, i + 1, throws);
      } else if s.queues != [] && Fits(s) {
        RotatedJobs(s.queues);
        if throws(s.queues[0].jobs[0]) {
          FinishQuiet(Dispatch(s, i), i, Rejected, throws);
          QuietFixed(Start(s, i, throws), i + 1, throws);
        } else {
          PumpQuiet(Dispatch(s, i), i + 1, throws);
        }
      }
    }
  }

  // ----- Runs -----

  datatype Event =
    | Enqueue(group: Group, positions: int, signalAborted: bool)
    | SignalAborts(job: Job)
    | Microtask
    | Finished(slot: nat, outcome: Outcome)
    | WorkerUp(slot: nat)
    | WorkerDown(slot: nat)
    | LoadEnds(workersLoaded: bool, order: seq<Job>)
    | Unload(order: seq<Job>)

  // One atomic step, with the executions that would throw synchronously during it.
  datatype Action = Action(event: Event, throws: Job -> bool)

  function SetReady(s: Pool, i: nat, ready: bool): Pool
    requires i < |s.slots|
  {
    s.(slots := s.slots[i := s.slots[i].(ready := ready)])
  }

  function LoadOutcome(s: Pool, workersLoaded: bool, order: seq<Job>): Pool {
    if s.loaded || s.failed then s
    else if workersLoaded && !s.stopping && forall i | 0 <= i < |s.slots| :: s.slots[i].ready then s.(loaded := true)
    else Stop(s.(failed := true), order)
  }

  function Step(s: Pool, a: Action): Pool
    requires |s.slots| == SLOTS && NonEmptyQueues(s.queues)
  {
    match a.event
    case Enqueue(group, positions, signalAborted) =>
      if signalAborted || !Accepts(s, positions) then s else Pump(Admit(s, group, positions), a.throws)
    case SignalAborts(job) => AbortJob(s, job)
    case Microtask => Pump(s.(pumpQueued := false), a.throws)
    case Finished(i, outcome) =>
      if i < SLOTS && s.slots[i].running.Some? then Finish(s, i, outcome, a.throws) else s
    case WorkerUp(i) => if i < SLOTS then Pump(SetReady(s, i, true), a.throws) else s
    case WorkerDown(i) => if i < SLOTS then SetReady(s, i, false) else s
    case LoadEnds(workersLoaded, order) => LoadOutcome(s, workersLoaded, order)
    case Unload(order) => Stop(s, order)
  }

  lemma SomethingQueued(queues: seq<Queue>)
    requires WellQueued(queues) && queues != []
    ensures QueuedJobs(queues) != []
  {
    assert Filled(queues[0]);
  }

  // The two lists hold the same jobs, in any order.
  ghost predicate SameJobs(a: seq<Job>, b: seq<Job>) {
    forall x {:trigger Count(a, x)} {:trigger Count(b, x)} :: Count(a, x) == Count(b, x)
  }

  lemma AbortFirst(s: Pool, jobs: seq<Job>)
    requires WellQueued(s.queues) && jobs != [] && SameJobs(QueuedJobs(s.queues), jobs)
    ensures SameJobs(QueuedJobs(AbortJob(s, jobs[0]).queues), jobs[1..])
  {
    CountPositive(QueuedJobs(s.queues), jobs[0]);
    assert Count(jobs, jobs[0]) > 0;
    forall x ensures Count(QueuedJobs(AbortJob(s, jobs[0]).queues), x) == Count(jobs[1..], x) {
      RemoveJobs(s.queues, jobs[0], x);
      assert Count(QueuedJobs(s.queues), x) == Count(jobs, x);
    }
  }

  lemma {:induction false} AbortAllSound(s: Pool, jobs: seq<Job>)
    requires Sound(s) && SameJobs(QueuedJobs(s.queues), jobs)
    ensures Sound(AbortAll(s, jobs)) && AbortAll(s, jobs).queues == []
    decreases |jobs|
  {
    if jobs == [] {
      if QueuedJobs(s.queues) != [] {
        assert Count(QueuedJobs(s.queues), QueuedJobs(s.queues)[0]) == 0;
      }
      if s.queues != [] {
        SomethingQueued(s.queues);
      }
    } else {
      AbortFirst(s, jobs);
      AbortSound(s, jobs[0]);
      AbortAllSound(AbortJob(s, jobs[0]), jobs[1..]);
    }
  }

  lemma {:induction false} AbortAllStanding(s: Pool, jobs: seq<Job>)
    ensures var r := AbortAll(s, jobs);
            && s.settled <= r.settled
            && r == s.(queues := r.queues, outstanding := r.outstanding, pumpQueued := r.pumpQueued,
                       settled := r.settled)
    decreases |jobs|
  {
    if jobs != [] {
      AbortAllStanding(AbortJob(s, jobs[0]), jobs[1..]);
    }
  }

  function AbortsOf(jobs: seq<Job>): seq<Settlement> {
    if jobs == [] then [] else [Settlement(jobs[0], Aborted)] + AbortsOf(jobs[1..])
  }

  // Every job that waits is aborted, once and in this order.
  lemma {:induction false} AbortAllSettles(s: Pool, jobs: seq<Job>)
    requires WellQueued(s.queues) && SameJobs(QueuedJobs(s.queues), jobs)
    ensures AbortAll(s, jobs).settled == s.settled + AbortsOf(jobs)
    decreases |jobs|
  {
    if jobs != [] {
      var t := AbortJob(s, jobs[0]);
      AbortSettles(s, jobs);
      AbortFirst(s, jobs);
      RemoveWell(s.queues, jobs[0]);
      AbortAllSettles(t, jobs[1..]);
      Regroup(s.settled, [Settlement(jobs[0], Aborted)], AbortsOf(jobs[1..]));
    }
  }

  lemma AbortSettles(s: Pool, jobs: seq<Job>)
    requires jobs != [] && SameJobs(QueuedJobs(s.queues), jobs)
    ensures jobs[0] in QueuedJobs(s.queues)
    ensures AbortJob(s, jobs[0]).settled == s.settled + [Settlement(jobs[0], Aborted)]
  {
    CountPositive(jobs, jobs[0]);
    CountPositive(QueuedJobs(s.queues), jobs[0]);
  }

  // Unloading aborts exactly the jobs that wait, each once, in the order of the listeners.
  lemma StopSettles(s: Pool, order: seq<Job>)
    requires Sound(s)
    ensures Stop(s, order).settled == s.settled + AbortsOf(AbortOrder(QueuedJobs(s.queues), order))
    ensures Stop(s, order).queues == [] && SameJobs(QueuedJobs(s.queues), AbortOrder(QueuedJobs(s.queues), order))
  {
    FlagsSound(s, s.(stopping := true));
    OrderIsSame(QueuedJobs(s.queues), order);
    AbortAllSettles(s.(stopping := true), AbortOrder(QueuedJobs(s.queues), order));
    AbortAllSound(s.(stopping := true), AbortOrder(QueuedJobs(s.queues), order));
  }

  // The invariant holds again, and what was settled or started stays so.
  ghost predicate Keeps(s: Pool, t: Pool) {
    Inv(t) && s.settled <= t.settled && s.dispatched <= t.dispatched
  }

  lemma {:induction false} CountIsMultiplicity(jobs: seq<Job>, x: Job)
    ensures Count(jobs, x) == multiset(jobs)[x]
  {
    if jobs != [] {
      CountIsMultiplicity(jobs[1..], x);
      assert jobs == [jobs[0]] + jobs[1..];
    }
  }

  lemma OrderIsSame(queued: seq<Job>, order: seq<Job>)
    ensures SameJobs(queued, AbortOrder(queued, order))
  {
    forall x: Job
      ensures Count(queued, x) == Count(AbortOrder(queued, order), x)
    {
      CountIsMultiplicity(queued, x);
      CountIsMultiplicity(order, x);
    }
  }

  lemma StopInv(s: Pool, order: seq<Job>)
    requires Sound(s) && s.finishing == []
    ensures Keeps(s, Stop(s, order))
  {
    var jobs := AbortOrder(QueuedJobs(s.queues), order);
    FlagsSound(s, s.(stopping := true));
    OrderIsSame(QueuedJobs(s.queues), order);
    AbortAllSound(s.(stopping := true), jobs);
    AbortAllStanding(s.(stopping := true), jobs);
  }

  lemma PumpInv(s: Pool, throws: Job -> bool)
    requires Sound(s) && s.finishing == [] && (!s.loaded || s.stopping ==> s.queues == [])
    ensures Inv(Pump(s, throws)) && SameStanding(s, Pump(s, throws))
  {
    PumpSound(s, 0, throws);
    PumpStanding(s, 0, throws);
    if s.loaded && !s.stopping {
      PumpQuiet(s, 0, throws);
    }
  }

  lemma EnqueueInv(s: Pool, a: Action)
    requires Inv(s) && a.event.Enqueue?
    ensures Keeps(s, Step(s, a))
  {
    var Enqueue(group, positions, signalAborted) := a.event;
    if !signalAborted && Accepts(s, positions) {
      AdmitSound(s, group, positions);
      PumpInv(Admit(s, group, positions), a.throws);
    }
  }

  lemma AbortInv(s: Pool, a: Action)
    requires Inv(s) && a.event.SignalAborts?
    ensures Keeps(s, Step(s, a))
  {
    AbortSound(s, a.event.job);
    if s.queues == [] {
      assert QueuedJobs(s.queues) == [];
    }
  }

  lemma MicrotaskInv(s: Pool, a: Action)
    requires Inv(s) && a.event.Microtask?
    ensures Keeps(s, Step(s, a))
  {
    FlagsSound(s, s.(pumpQueued := false));
    PumpInv(s.(pumpQueued := false), a.throws);
  }

  lemma FinishedInv(s: Pool, a: Action)
    requires Inv(s) && a.event.Finished?
    ensures Keeps(s, Step(s, a))
  {
    var Finished(i, outcome) := a.event;
    if i < SLOTS && s.slots[i].running.Some? {
      FinishSound(s, i, outcome, a.throws);
      FinishStanding(s, i, outcome, a.throws);
      if s.loaded && !s.stopping {
        FinishQuiet(s, i, outcome, a.throws);
      }
    }
  }

  lemma WorkerInv(s: Pool, a: Action)
    requires Inv(s) && (a.event.WorkerUp? || a.event.WorkerDown?)
    ensures Keeps(s, Step(s, a))
  {
    var i := a.event.slot;
    if i < SLOTS {
      FlagsSound(s, SetReady(s, i, a.event.WorkerUp?));
      if a.event.WorkerUp? {
        PumpInv(SetReady(s, i, true), a.throws);
      }
    }
  }

  lemma LoadInv(s: Pool, a: Action)
    requires Inv(s) && a.event.LoadEnds?
    ensures Keeps(s, Step(s, a))
  {
    FlagsSound(s, s.(failed := true));
    FlagsSound(s, s.(loaded := true));
    StopInv(s.(failed := true), a.event.order);
  }

  lemma StepInv(s: Pool, a: Action)
    requires Inv(s)
    ensures Keeps(s, Step(s, a))
  {
    match a.event
    case Enqueue(_, _, _) => EnqueueInv(s, a);
    case SignalAborts(_) => AbortInv(s, a);
    case Microtask => MicrotaskInv(s, a);
    case Finished(_, _) => FinishedInv(s, a);
    case WorkerUp(_) => WorkerInv(s, a);
    case WorkerDown(_) => WorkerInv(s, a);
    case LoadEnds(_, _) => LoadInv(s, a);
    case Unload(order) => StopInv(s, order);
  }

  // Only an accepted request adds a job, and it is numbered by those before it.
  predicate AcceptsRightly(s: Pool, t: Pool, a: Action) {
    if a.event.Enqueue? && !a.event.signalAborted && Accepts(s, a.event.positions)
    then t.accepted == s.accepted + [Job(|s.accepted|, a.event.positions, a.event.group)]
    else t.accepted == s.accepted
  }

  lemma EnqueueAccepted(s: Pool, a: Action)
    requires Inv(s) && a.event.Enqueue?
    ensures AcceptsRightly(s, Step(s, a), a)
  {
    if !a.event.signalAborted && Accepts(s, a.event.positions) {
      AdmitSound(s, a.event.group, a.event.positions);
      PumpStanding(Admit(s, a.event.group, a.event.positions), 0, a.throws);
    }
  }

  lemma FinishedAccepted(s: Pool, a: Action)
    requires Inv(s) && a.event.Finished?
    ensures Step(s, a).accepted == s.accepted
  {
    var Finished(i, outcome) := a.event;
    if i < SLOTS && s.slots[i].running.Some? {
      FinishStanding(s, i, outcome, a.throws);
    }
  }

  lemma PumpedAccepted(s: Pool, a: Action)
    requires Inv(s) && (a.event.Microtask? || a.event.WorkerUp?)
    ensures Step(s, a).accepted == s.accepted
  {
    match a.event
    case Microtask => PumpStanding(s.(pumpQueued := false), 0, a.throws);
    case WorkerUp(i) =>
      if i < SLOTS {
        PumpStanding(SetReady(s, i, true), 0, a.throws);
      }
  }

  lemma StoppedAccepted(s: Pool, a: Action)
    requires Inv(s) && (a.event.LoadEnds? || a.event.Unload?)
    ensures Step(s, a).accepted == s.accepted
  {
    match a.event
    case LoadEnds(_, order) =>
      AbortAllStanding(s.(failed := true, stopping := true), AbortOrder(QueuedJobs(s.queues), order));
    case Unload(order) => AbortAllStanding(s.(stopping := true), AbortOrder(QueuedJobs(s.queues), order));
  }

  lemma StepAccepted(s: Pool, a: Action)
    requires Inv(s)
    ensures AcceptsRightly(s, Step(s, a), a)
  {
    if a.event.Enqueue? {
      EnqueueAccepted(s, a);
    } else if a.event.Finished? {
      FinishedAccepted(s, a);
    } else if a.event.Microtask? || a.event.WorkerUp? {
      PumpedAccepted(s, a);
    } else if a.event.LoadEnds? || a.event.Unload? {
      StoppedAccepted(s, a);
    }
  }

  lemma {:induction false} SettledGrows(before: seq<Settlement>, after: seq<Settlement>, x: Job)
    requires before <= after
    ensures Count(SettledJobs(before), x) <= Count(SettledJobs(after), x)
    decreases |after|
  {
    if |before| < |after| {
      var last := |after| - 1;
      SettledGrows(before, after[..last], x);
      assert after == after[..last] + [after[last]];
      SettledAppend(after[..last], after[last], x);
    } else {
      assert before == after;
    }
  }

  // A whole run from a state the pool can be in.
  ghost function Run(s: Pool, actions: seq<Action>): (r: Pool)
    requires Inv(s)
    ensures Inv(r)
    decreases |actions|
  {
    if actions == [] then s
    else
      StepInv(s, actions[0]);
      Run(Step(s, actions[0]), actions[1..])
  }

  // ----- What holds on every run -----

  lemma {:induction false} NumberedOnce(accepted: seq<Job>, job: Job)
    requires Numbered(accepted)
    ensures Count(accepted, job) <= 1
    ensures |accepted| <= job.id ==> Count(accepted, job) == 0
    decreases |accepted|
  {
    if accepted != [] {
      var last := |accepted| - 1;
      NumberedOnce(accepted[..last], job);
      assert accepted == accepted[..last] + [accepted[last]];
      CountAppend(accepted[..last], [accepted[last]], job);
    }
  }

  lemma {:induction false} SettledAt(settled: seq<Settlement>, n: nat)
    requires n < |settled|
    ensures Count(SettledJobs(settled), settled[n].job) >= 1
    decreases |settled|
  {
    var last := |settled| - 1;
    assert settled == settled[..last] + [settled[last]];
    SettledAppend(settled[..last], settled[last], settled[n].job);
    if n < last {
      SettledAt(settled[..last], n);
    }
  }

  lemma {:induction false} SettledTwice(settled: seq<Settlement>, a: nat, b: nat)
    requires a < b < |settled| && settled[a].job == settled[b].job
    ensures Count(SettledJobs(settled), settled[a].job) >= 2
    decreases |settled|
  {
    var last := |settled| - 1;
    assert settled == settled[..last] + [settled[last]];
    SettledAppend(settled[..last], settled[last], settled[a].job);
    if b < last {
      SettledTwice(settled[..last], a, b);
    } else {
      SettledAt(settled[..last], a);
    }
  }

  // Whatever happens, no job is settled twice, and a settled job neither waits nor runs.
  lemma SettledOnce(actions: seq<Action>)
    ensures var s := Run(INITIAL, actions);
            && (forall a, b | 0 <= a < b < |s.settled| :: s.settled[a].job != s.settled[b].job)
            && (forall a | 0 <= a < |s.settled| ::
                  && s.settled[a].job in s.accepted
                  && s.settled[a].job !in QueuedJobs(s.queues) && s.settled[a].job !in RunningJobs(s.slots))
  {
    var s := Run(INITIAL, actions);
    forall a | 0 <= a < |s.settled|
      ensures s.settled[a].job in s.accepted
      ensures s.settled[a].job !in QueuedJobs(s.queues) && s.settled[a].job !in RunningJobs(s.slots)
      ensures forall b | a < b < |s.settled| :: s.settled[a].job != s.settled[b].job
    {
      var job := s.settled[a].job;
      assert Placed(s, job);
      SettledAt(s.settled, a);
      NumberedOnce(s.accepted, job);
      CountPositive(s.accepted, job);
      CountPositive(QueuedJobs(s.queues), job);
      CountPositive(RunningJobs(s.slots), job);
      forall b | a < b < |s.settled| ensures s.settled[a].job != s.settled[b].job {
        if s.settled[b].job == job {
          SettledTwice(s.settled, a, b);
        }
      }
    }
  }

  // Settlements and dispatches are never taken back.
  lemma {:induction false} RunKeeps(s: Pool, actions: seq<Action>)
    requires Inv(s)
    ensures s.settled <= Run(s, actions).settled && s.dispatched <= Run(s, actions).dispatched
    decreases |actions|
  {
    if actions != [] {
      StepInv(s, actions[0]);
      RunKeeps(Step(s, actions[0]), actions[1..]);
    }
  }

  // Jobs wait only because every ready worker is busy, or because the head needs room that a running job holds.
  predicate WaitsWithReason(s: Pool) {
    || (forall i | 0 <= i < |s.slots| && s.slots[i].ready :: s.slots[i].running.Some?)
    || (&& |s.slots| == SLOTS && RunningJobs(s.slots) != [] && s.queues != [] && s.queues[0].jobs != []
        && RunningPositions(s.slots) + s.queues[0].jobs[0].positions > BATCH_POSITIONS)
  }

  lemma QuietHasReason(s: Pool)
    requires Counted(s) && WellQueued(s.queues) && Quiet(s) && s.queues != []
    ensures WaitsWithReason(s)
  {
    assert Filled(s.queues[0]);
    assert Sized(s.queues[0].jobs[0]);
    if s.slots[0].running.None? && s.slots[1].running.None? {
      assert RunningPositions(s.slots) == 0;
    } else {
      assert Holds(s.slots[0]) != [] || Holds(s.slots[1]) != [];
    }
  }

  // No wakeup is lost: whenever no pump is due, a loaded pool keeps jobs waiting only with reason.
  lemma WaitingHasAReason(actions: seq<Action>)
    ensures var s := Run(INITIAL, actions);
            s.loaded && !s.stopping && !s.pumpQueued && s.queues != [] ==> WaitsWithReason(s)
  {
    var s := Run(INITIAL, actions);
    if s.loaded && !s.stopping && !s.pumpQueued && s.queues != [] {
      QuietHasReason(s);
    }
  }

  // ----- Fairness -----

  // Dispatches so far, plus the queues still ahead of the group.
  function Turn(s: Pool, group: Group): nat {
    |s.dispatched| + Position(s.queues, group)
  }

  // A job of the group has started since.
  ghost predicate Served(s: Pool, t: Pool, group: Group) {
    exists n :: |s.dispatched| <= n < |t.dispatched| && t.dispatched[n].group == group
  }

  lemma DispatchTurn(s: Pool, i: nat, group: Group)
    requires WellQueued(s.queues) && s.queues != [] && s.queues[0].jobs != [] && i < |s.slots|
    requires Waiting(s.queues, group)
    ensures TurnHeld(s, Dispatch(s, i), group)
  {
    var t := Dispatch(s, i);
    var p := Position(s.queues, group);
    assert Filled(s.queues[0]);
    if p == 0 {
      assert t.dispatched[|s.dispatched|].group == group;
    } else {
      assert forall k | 0 <= k < p - 1 :: t.queues[k] == s.queues[k + 1];
      PositionIs(t.queues, group, p - 1);
    }
  }

  // The group's job has started, or it waits with its turn unchanged.
  ghost predicate TurnHeld(s: Pool, t: Pool, group: Group) {
    s.dispatched <= t.dispatched
      && (Served(s, t, group) || (Waiting(t.queues, group) && Turn(t, group) == Turn(s, group)))
  }

  lemma TurnHeldOn(s: Pool, t: Pool, u: Pool, group: Group)
    requires TurnHeld(s, t, group) && t.dispatched <= u.dispatched
    requires Waiting(t.queues, group) ==> TurnHeld(t, u, group)
    ensures TurnHeld(s, u, group)
  {
    if Served(s, t, group) {
      var n :| |s.dispatched| <= n < |t.dispatched| && t.dispatched[n].group == group;
      assert u.dispatched[n].group == group;
    }
  }

  lemma {:induction false} FinishTurn(s: Pool, i: nat, outcome: Outcome, throws: Job -> bool, group: Group)
    requires Sound(s) && i < SLOTS && s.slots[i].running.Some? && Waiting(s.queues, group)
    ensures TurnHeld(s, Finish(s, i, outcome, throws), group)
    decreases |QueuedJobs(s.queues)|, 2, 0
  {
    CompleteSound(s, i);
    PumpTurn(Complete(s, i), 0, throws, group);
  }

  lemma {:induction false} StartTurn(s: Pool, i: nat, throws: Job -> bool, group: Group)
    requires Sound(s) && i < SLOTS && s.slots[i].running.None? && s.queues != [] && Fits(s) && Waiting(s.queues, group)
    ensures TurnHeld(s, Start(s, i, throws), group)
    decreases |QueuedJobs(s.queues)|, 0, 0
  {
    RotatedJobs(s.queues);
    DispatchSound(s, i);
    DispatchTurn(s, i, group);
    var t := Dispatch(s, i);
    if throws(s.queues[0].jobs[0]) {
      FinishStanding(t, i, Rejected, throws);
      if Waiting(t.queues, group) {
        FinishTurn(t, i, Rejected, throws, group);
      }
      TurnHeldOn(s, t, Finish(t, i, Rejected, throws), group);
    }
  }

  // Each job another group starts brings a waiting group one place forward, or its own job starts.
  lemma {:induction false} PumpTurn(s: Pool, i: nat, throws: Job -> bool, group: Group)
    requires Sound(s) && i <= SLOTS && Waiting(s.queues, group)
    ensures TurnHeld(s, PumpFrom(s, i, throws), group)
    decreases |QueuedJobs(s.queues)|, 1, SLOTS - i
  {
    if s.loaded && !s.stopping && i < SLOTS {
      if Unavailable(s.slots[i]) {
        PumpTurn(s, i + 1, throws, group);
      } else if s.queues != [] && Fits(s) {
        var t := Start(s, i, throws);
        StartSound(s, i, throws);
        StartTurn(s, i, throws, group);
        PumpStanding(t, i + 1, throws);
        if Waiting(t.queues, group) {
          PumpTurn(t, i + 1, throws, group);
        }
        TurnHeldOn(s, t, PumpFrom(t, i + 1, throws), group);
      }
    }
  }

  lemma PushTurn(queues: seq<Queue>, job: Job, group: Group)
    requires Waiting(queues, group)
    ensures Waiting(Push(queues, job), group) && Position(Push(queues, job), group) == Position(queues, group)
  {
    PositionIs(Push(queues, job), group, Position(queues, group));
  }

  lemma GoneIsGone(queues: seq<Queue>, p: nat)
    requires WellQueued(queues) && p < |queues|
    ensures var gone := queues[..p] + queues[p + 1..]; Position(gone, queues[p].group) == |gone|
  {
    var gone := queues[..p] + queues[p + 1..];
    var k := Position(gone, queues[p].group);
    if k < |gone| {
      GroupsDiffer(queues, if k < p then k else k + 1, p);
    }
  }

  lemma RemoveTurn(queues: seq<Queue>, job: Job, group: Group)
    requires WellQueued(queues) && Waiting(queues, group) && Waiting(Remove(queues, job), group)
    ensures Position(Remove(queues, job), group) <= Position(queues, group)
  {
    var after := Remove(queues, job);
    var p, g := Position(queues, job.group), Position(queues, group);
    if p < |queues| && Without(queues[p].jobs, job) == [] {
      if p == g {
        GoneIsGone(queues, p);
      } else if p < g {
        assert after[g - 1] == queues[g];
      } else if g < p {
        assert after[g] == queues[g];
      }
    } else {
      assert after == queues || after[g].group == queues[g].group;
    }
  }

  // One step serves the group, ends its waiting, or keeps its turn no later than it was.
  ghost predicate TurnKept(s: Pool, t: Pool, group: Group) {
    Served(s, t, group) || !Waiting(t.queues, group) || Turn(t, group) <= Turn(s, group)
  }

  lemma EnqueueTurn(s: Pool, a: Action, group: Group)
    requires Inv(s) && Waiting(s.queues, group) && a.event.Enqueue?
    ensures TurnKept(s, Step(s, a), group)
  {
    var Enqueue(g, positions, signalAborted) := a.event;
    if !signalAborted && Accepts(s, positions) {
      AdmitSound(s, g, positions);
      PushTurn(s.queues, Job(|s.accepted|, positions, g), group);
      PumpTurn(Admit(s, g, positions), 0, a.throws, group);
    }
  }

  lemma StopTurn(s: Pool, order: seq<Job>, group: Group)
    requires Sound(s)
    ensures !Waiting(Stop(s, order).queues, group)
  {
    FlagsSound(s, s.(stopping := true));
    OrderIsSame(QueuedJobs(s.queues), order);
    AbortAllSound(s.(stopping := true), AbortOrder(QueuedJobs(s.queues), order));
  }

  lemma AbortTurn(s: Pool, a: Action, group: Group)
    requires Inv(s) && Waiting(s.queues, group) && a.event.SignalAborts?
    ensures TurnKept(s, Step(s, a), group)
  {
    var job := a.event.job;
    if job in QueuedJobs(s.queues) && Waiting(Remove(s.queues, job), group) {
      RemoveTurn(s.queues, job, group);
    }
  }

  lemma LoadTurn(s: Pool, a: Action, group: Group)
    requires Inv(s) && Waiting(s.queues, group) && a.event.LoadEnds?
    ensures TurnKept(s, Step(s, a), group)
  {
    assert s.loaded;
  }

  lemma WorkerTurn(s: Pool, a: Action, group: Group)
    requires Inv(s) && Waiting(s.queues, group) && (a.event.WorkerUp? || a.event.WorkerDown?)
    ensures TurnKept(s, Step(s, a), group)
  {
    var i := a.event.slot;
    if i < SLOTS && a.event.WorkerUp? {
      FlagsSound(s, SetReady(s, i, true));
      PumpTurn(SetReady(s, i, true), 0, a.throws, group);
    }
  }

  lemma PumpingTurn(s: Pool, a: Action, group: Group)
    requires Inv(s) && Waiting(s.queues, group) && (a.event.Microtask? || a.event.Finished?)
    ensures TurnKept(s, Step(s, a), group)
  {
    match a.event
    case Microtask =>
      FlagsSound(s, s.(pumpQueued := false));
      PumpTurn(s.(pumpQueued := false), 0, a.throws, group);
    case Finished(i, outcome) =>
      if i < SLOTS && s.slots[i].running.Some? {
        FinishTurn(s, i, outcome, a.throws, group);
      }
  }

  lemma StepTurn(s: Pool, a: Action, group: Group)
    requires Inv(s) && Waiting(s.queues, group)
    ensures TurnKept(s, Step(s, a), group)
  {
    match a.event
    case Enqueue(_, _, _) => EnqueueTurn(s, a, group);
    case SignalAborts(_) => AbortTurn(s, a, group);
    case Microtask => PumpingTurn(s, a, group);
    case Finished(_, _) => PumpingTurn(s, a, group);
    case WorkerUp(_) => WorkerTurn(s, a, group);
    case WorkerDown(_) => WorkerTurn(s, a, group);
    case LoadEnds(_, _) => LoadTurn(s, a, group);
    case Unload(order) => StopTurn(s, order, group);
  }

  ghost predicate WaitsThroughout(s: Pool, actions: seq<Action>, group: Group)
    requires Inv(s)
    decreases |actions|
  {
    && Waiting(s.queues, group)
    && (actions == [] ||
        (StepInv(s, actions[0]);
         WaitsThroughout(Step(s, actions[0]), actions[1..], group)))
  }

  lemma TurnKeptOn(s: Pool, t: Pool, u: Pool, group: Group)
    requires TurnKept(s, t, group) && Waiting(t.queues, group) && TurnKept(t, u, group)
    requires s.dispatched <= t.dispatched <= u.dispatched
    ensures TurnKept(s, u, group)
  {
    if Served(s, t, group) {
      var n :| |s.dispatched| <= n < |t.dispatched| && t.dispatched[n].group == group;
      assert u.dispatched[n].group == group;
    }
  }

  lemma {:induction false} TurnComes(s: Pool, actions: seq<Action>, group: Group)
    requires Inv(s) && WaitsThroughout(s, actions, group)
    ensures TurnKept(s, Run(s, actions), group) && Waiting(Run(s, actions).queues, group)
    decreases |actions|
  {
    if actions != [] {
      StepInv(s, actions[0]);
      var t := Step(s, actions[0]);
      StepTurn(s, actions[0], group);
      RunKeeps(t, actions[1..]);
      TurnComes(t, actions[1..], group);
      TurnKeptOn(s, t, Run(t, actions[1..]), group);
    }
  }

  lemma {:induction false} QueuesWithinJobs(queues: seq<Queue>)
    requires NonEmptyQueues(queues)
    ensures |queues| <= |QueuedJobs(queues)|
  {
    if queues != [] {
      QueuesWithinJobs(queues[1..]);
    }
  }

  /**
    Fairness: while a group keeps waiting and none of its jobs starts, other groups start no more
    jobs than there were queues ahead of it, which is at most three.
   */
  lemma BoundedBypass(s: Pool, actions: seq<Action>, group: Group)
    requires Inv(s) && WaitsThroughout(s, actions, group) && !Served(s, Run(s, actions), group)
    ensures |Run(s, actions).dispatched| - |s.dispatched| <= Position(s.queues, group) <= MAXIMUM_OUTSTANDING - 1
  {
    TurnComes(s, actions, group);
    QueuesWithinJobs(s.queues);
  }

  // ----- The same pool, updated in place -----

  datatype Refusal = SignalAborted | CapacityUnavailable

  class OnnxPoolExecution {
    var slots: seq<Slot>
    var queues: seq<Queue>
    var outstanding: int
    var activePositions: int
    var loaded: bool
    var stopping: bool
    var failed: bool
    var pumpQueued: bool
    var issued: nat
    ghost var finishing: seq<Job>
    ghost var accepted: seq<Job>
    ghost var dispatched: seq<Job>
    ghost var settled: seq<Settlement>

    ghost function State(): Pool
      reads this
    {
      Pool(slots, queues, outstanding, activePositions, loaded, stopping, failed, pumpQueued, finishing, accepted,
        dispatched, settled)
    }

    ghost predicate Valid()
      reads this
    {
      |slots| == SLOTS && NonEmptyQueues(queues) && issued == |accepted|
    }

    constructor ()
      ensures Valid() && State() == INITIAL
    {
      slots, queues := [Slot(false, None), Slot(false, None)], [];
      outstanding, activePositions, issued := 0, 0, 0;
      loaded, stopping, failed, pumpQueued := false, false, false, false;
      finishing, accepted, dispatched, settled := [], [], [], [];
    }

    method Enqueue(group: Group, positions: int, signalAborted: bool, throws: Job -> bool)
      returns (r: Result<Job, Refusal>)
      requires Valid()
      modifies this
      ensures Valid() && State() == Step(old(State()), Action(Event.Enqueue(group, positions, signalAborted), throws))
      ensures r.Success? <==> !signalAborted && Accepts(old(State()), positions)
      ensures r.Success? ==> r.value.id == |old(accepted)| && r.value in accepted
    {
      if signalAborted {
        return Failure(SignalAborted);
      }
      if !loaded || stopping || (!slots[0].ready && !slots[1].ready)
         || outstanding >= MAXIMUM_OUTSTANDING || positions < 1 || positions > BATCH_POSITIONS {
        return Failure(CapacityUnavailable);
      }
      var job := Accept(group, positions);
      PumpStanding(State(), 0, throws);
      Pump(throws);
      r := Success(job);
    }

    method Accept(group: Group, positions: int) returns (job: Job)
      requires Valid()
      modifies this`issued, this`outstanding, this`queues, this`accepted
      ensures Valid() && State() == Admit(old(State()), group, positions)
      ensures job == Job(|old(accepted)|, positions, group)
    {
      job := Job(issued, positions, group);
      issued := issued + 1;
      outstanding := outstanding + 1;
      Append(job);
      accepted := accepted + [job];
    }

    // The job goes to the end of its group's queue.
    method Append(job: Job)
      requires NonEmptyQueues(queues)
      modifies this`queues
      ensures queues == Push(old(queues), job) && NonEmptyQueues(queues)
    {
      var p := Position(queues, job.group);
      if p < |queues| {
        queues := queues[p := Queue(job.group, queues[p].jobs + [job])];
      } else {
        queues := queues + [Queue(job.group, [job])];
      }
    }

    method Pump(throws: Job -> bool)
      requires Valid()
      modifies this
      ensures Valid() && State() == PumpFrom(old(State()), 0, throws)
      decreases |QueuedJobs(queues)|, 1
    {
      if !loaded || stopping {
        return;
      }
      var i := 0;
      while i < SLOTS
        invariant 0 <= i <= SLOTS && Valid() && loaded && !stopping && |QueuedJobs(queues)| <= |old(QueuedJobs(queues))|
        invariant PumpFrom(State(), i, throws) == PumpFrom(old(State()), 0, throws)
      {
        if slots[i].running.None? && slots[i].ready {
          if queues == [] || activePositions + queues[0].jobs[0].positions > BATCH_POSITIONS {
            return;
          }
          StartStanding(State(), i, throws);
          StartHead(i, throws);
        }
        i := i + 1;
      }
    }

    // One turn of pump's loop: the head of the first queue starts on an idle slot.
    method StartHead(i: nat, throws: Job -> bool)
      requires Valid() && i < SLOTS && slots[i].running.None? && queues != []
      modifies this
      ensures Valid() && State() == Start(old(State()), i, throws)
      decreases |QueuedJobs(queues)|, 0
    {
      RotatedJobs(queues);
      var job := TakeHead(i);
      if throws(job) {
        FinishStanding(State(), i, Rejected, throws);
        FinishSlot(i, Rejected, throws);
      }
    }

    // The head of the first queue moves to the slot, and the rest of that queue to the end.
    method TakeHead(i: nat) returns (job: Job)
      requires Valid() && i < SLOTS && queues != []
      modifies this`queues, this`slots, this`activePositions, this`dispatched
      ensures State() == Dispatch(old(State()), i) && job == old(queues)[0].jobs[0]
      ensures |slots| == SLOTS && slots[i].running.Some? && queues == Rotated(old(queues))
    {
      var head := queues[0];
      job := head.jobs[0];
      queues := queues[1..];
      if |head.jobs| > 1 {
        queues := queues + [Queue(head.group, head.jobs[1..])];
      }
      slots := slots[i := slots[i].(running := Some(job))];
      activePositions := activePositions + job.positions;
      dispatched := dispatched + [job];
    }

    // The slot and its positions are free again.
    method Free(i: nat)
      requires Valid() && i < SLOTS && slots[i].running.Some?
      modifies this`slots, this`outstanding, this`activePositions, this`finishing
      ensures Valid() && State() == Complete(old(State()), i)
    {
      var job := slots[i].running.value;
      slots := slots[i := slots[i].(running := None)];
      outstanding := outstanding - 1;
      activePositions := activePositions - job.positions;
      finishing := finishing + [job];
    }

    method FinishSlot(i: nat, outcome: Outcome, throws: Job -> bool)
      requires Valid() && i < SLOTS && slots[i].running.Some?
      modifies this
      ensures Valid() && State() == Finish(old(State()), i, outcome, throws)
      decreases |QueuedJobs(queues)|, 2
    {
      Free(i);
      PumpStanding(State(), 0, throws);
      Pump(throws);
      settled := settled + [Settlement(finishing[|finishing| - 1], outcome)];
      finishing := finishing[..|finishing| - 1];
    }

    method OnAbort(job: Job)
      requires Valid()
      modifies this
      ensures Valid() && State() == AbortJob(old(State()), job)
    {
      if job !in QueuedJobs(queues) {
        return;
      }
      var p := Position(queues, job.group);
      if p < |queues| {
        var rest := Without(queues[p].jobs, job);
        if rest == [] {
          queues := queues[..p] + queues[p + 1..];
        } else {
          queues := queues[p := Queue(job.group, rest)];
        }
      }
      outstanding := outstanding - 1;
      pumpQueued := true;
      settled := settled + [Settlement(job, Aborted)];
    }

    // The pump that an abort scheduled as a microtask.
    method RunMicrotask(throws: Job -> bool)
      requires Valid()
      modifies this
      ensures Valid() && State() == Step(old(State()), Action(Microtask, throws))
    {
      pumpQueued := false;
      PumpStanding(State(), 0, throws);
      Pump(throws);
    }

    method WorkerChanged(i: nat, ready: bool, throws: Job -> bool)
      requires Valid() && i < SLOTS
      modifies this
      ensures Valid() && State() == Step(old(State()), Action(if ready then WorkerUp(i) else WorkerDown(i), throws))
    {
      slots := slots[i := slots[i].(ready := ready)];
      if ready {
        PumpStanding(State(), 0, throws);
        Pump(throws);
      }
    }

    // `order` is that of the listeners of the shutdown signal.
    method Unload(order: seq<Job>)
      requires Valid()
      modifies this
      ensures Valid() && State() == Stop(old(State()), order)
    {
      stopping := true;
      var jobs := AbortOrder(QueuedJobs(queues), order);
      var n := 0;
      while n < |jobs|
        invariant 0 <= n <= |jobs| && Valid()
        invariant AbortAll(State(), jobs[n..]) == Stop(old(State()), order)
      {
        assert jobs[n..][0] == jobs[n] && jobs[n..][1..] == jobs[n + 1..];
        OnAbort(jobs[n]);
        n := n + 1;
      }
    }

    // The end of `load`, once both workers have tried to start.
    method LoadEnds(workersLoaded: bool, order: seq<Job>)
      requires Valid()
      modifies this
      ensures Valid() && State() == LoadOutcome(old(State()), workersLoaded, order)
    {
      if loaded || failed {
        return;
      }
      if workersLoaded && !stopping && slots[0].ready && slots[1].ready {
        loaded := true;
      } else {
        failed := true;
        Unload(order);
      }
    }
  }
}
