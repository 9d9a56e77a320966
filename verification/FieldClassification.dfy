/**
  The fields of one request: prepared in rounds, classified by at most two runners, and published
  once each.
 */
module FieldClassification {
  import opened Wrappers
  import opened InferenceContract
  import opened Sequences

  // The byte limit of a field, which bounds its tokens.
  const MAX_FIELD_TOKENS := 262_144
  const LONG_FIELDS := 2

  datatype Field = Field(index: nat, tokenIds: seq<nat>)

  datatype Task = Long(field: Field) | Short(fields: seq<Field>)

  datatype ClassificationError =
    DuplicateFieldResult | TokenBudgetExceeded | BatchRejected | IncompleteFieldResults | Interrupted

  /**
    Where a callback may throw, or an abort be noticed: before or while a field is prepared, a task of the
    round that starts at some field is run, or a result is published, and at the end.
   */
  datatype Moment = Preparing(index: nat) | Running(cursor: nat, task: nat) | Publishing(index: nat) | Ending

  predicate IsLong(f: Field) {
    |f.tokenIds| > SHORT_BATCH_TOKENS
  }

  predicate IsShort(f: Field) {
    1 <= |f.tokenIds| <= SHORT_BATCH_TOKENS
  }

  // ----- Preparing a round -----

  function TokensOf(fields: seq<Field>): nat {
    if fields == [] then 0 else TokensOf(fields[..|fields| - 1]) + |fields[|fields| - 1].tokenIds|
  }

  predicate ConsecutiveFrom(fields: seq<seq<nat>>, from: nat, ready: seq<Field>) {
    && from + |ready| <= |fields|
    && forall k | 0 <= k < |ready| :: ready[k] == Field(from + k, fields[from + k])
  }

  // How many of the fields are long.
  function Longs(fields: seq<Field>): nat {
    if fields == [] then 0
    else Longs(fields[..|fields| - 1]) + if |fields[|fields| - 1].tokenIds| > 256 then 1 else 0
  }

  // The next fields, in order: none after the eighth or the second long one.
  predicate Allowed(fields: seq<seq<nat>>, cursor: nat, ready: seq<Field>) {
    ConsecutiveFrom(fields, cursor, ready) && |ready| <= 8 && (ready != [] ==> Longs(ready[..|ready| - 1]) < 2)
  }

  // A round: as many fields as are allowed.
  predicate FullRound(fields: seq<seq<nat>>, cursor: nat, ready: seq<Field>) {
    && Allowed(fields, cursor, ready) && ready != []
    && (|ready| == 8 || Longs(ready) == 2 || cursor + |ready| == |fields|)
  }

  lemma OneReady(ready: seq<Field>, f: Field)
    ensures Longs(ready + [f]) == Longs(ready) + if |f.tokenIds| > 256 then 1 else 0
    ensures TokensOf(ready + [f]) == TokensOf(ready) + |f.tokenIds|
  {
    assert (ready + [f])[..|ready|] == ready;
  }

  /**
    Prepares the next fields, in order: eight, or up to the second long one, or all that are left. It fails if a
    callback does, or if the round's tokens are over the budget, which takes a field over its own limit.
   */
  method PrepareRound(fields: seq<seq<nat>>, cursor: nat, interrupts: Moment -> bool)
    returns (r: Result<seq<Field>, ClassificationError>)
    requires cursor < |fields|
    ensures r.Success? ==>
              && FullRound(fields, cursor, r.value) && TokensOf(r.value) <= 526_336
              && forall k: nat | cursor <= k < cursor + |r.value| :: !interrupts(Preparing(k))
    ensures r.Failure? ==>
      || (r.error == TokenBudgetExceeded
          && (exists ready :: Allowed(fields, cursor, ready) && TokensOf(ready) > 526_336)
          && (exists k :: 0 <= k < |fields| && |fields[k]| > 262_144))
      || (r.error == Interrupted && exists k: nat :: cursor <= k < |fields| && interrupts(Preparing(k)))
  {
    var ready: seq<Field> := [];
    var next := cursor;
    var longFields := 0;
    var tokens := 0;
    while next < |fields| && |ready| < SHORT_BATCH_FIELDS && longFields < LONG_FIELDS
      invariant next == cursor + |ready| && Allowed(fields, cursor, ready)
      invariant longFields == Longs(ready) <= |ready| && longFields <= 2 && tokens == TokensOf(ready) <= 526_336
      invariant (forall k | 0 <= k < |fields| :: |fields[k]| <= MAX_FIELD_TOKENS) ==>
        tokens <= longFields * MAX_FIELD_TOKENS + (|ready| - longFields) * SHORT_BATCH_TOKENS
      invariant forall k: nat | cursor <= k < next :: !interrupts(Preparing(k))
    {
      if interrupts(Preparing(next)) {
        return Failure(Interrupted);
      }
      var tokenIds := fields[next];
      OneReady(ready, Field(next, tokenIds));
      assert (ready + [Field(next, tokenIds)])[..|ready|] == ready;
      tokens := tokens + |tokenIds|;
      if |tokenIds| > SHORT_BATCH_TOKENS {
        longFields := longFields + 1;
      }
      if tokens > 2 * MAX_FIELD_TOKENS + SHORT_BATCH_FIELDS * SHORT_BATCH_TOKENS {
        assert Allowed(fields, cursor, ready + [Field(next, tokenIds)]);
        return Failure(TokenBudgetExceeded);
      }
      ready := ready + [Field(next, tokenIds)];
      next := next + 1;
    }
    r := Success(ready);
  }

  // ----- Buckets -----

  // Two to the power of the rounded-up binary logarithm of at least 32.
  function Bucket(length: nat): (b: nat)
    requires 1 <= length <= SHORT_BATCH_TOKENS
    ensures b == 32 || b == 64 || b == 128 || b == 256
    ensures length <= b && (b > 32 ==> b < 2 * length)
  {
    if length <= 32 then 32 else if length <= 64 then 64 else if length <= 128 then 128 else 256
  }

  // The short fields of one bucket, in order.
  function InBucket(ready: seq<Field>, b: nat): seq<Field> {
    if ready == [] then []
    else
      var front, last := InBucket(ready[..|ready| - 1], b), ready[|ready| - 1];
      if IsShort(last) && Bucket(|last.tokenIds|) == b then front + [last] else front
  }

  lemma {:induction false} InBucketWhen(ready: seq<Field>, b: nat, f: Field)
    ensures f in InBucket(ready, b) <==> f in ready && IsShort(f) && Bucket(|f.tokenIds|) == b
    ensures |InBucket(ready, b)| <= |ready|
  {
    if ready != [] {
      InBucketWhen(ready[..|ready| - 1], b, f);
      assert ready == ready[..|ready| - 1] + [ready[|ready| - 1]];
    }
  }

  predicate Apart(fields: seq<Field>, i: nat, j: nat)
    requires i < j < |fields|
  {
    fields[i].index != fields[j].index
  }

  predicate DistinctFields(fields: seq<Field>) {
    forall i: nat, j: nat {:trigger Apart(fields, i, j)} | i < j < |fields| :: Apart(fields, i, j)
  }

  // No field has this index.
  predicate Elsewhere(fields: seq<Field>, i: nat) {
    forall k | 0 <= k < |fields| :: fields[k].index != i
  }

  lemma DistinctAt(fields: seq<Field>, i: nat, j: nat)
    requires DistinctFields(fields) && i < |fields| && j < |fields| && i != j
    ensures fields[i].index != fields[j].index
  {
    assert if i < j then Apart(fields, i, j) else Apart(fields, j, i);
  }

  lemma DistinctFront(fields: seq<Field>)
    requires DistinctFields(fields) && fields != []
    ensures DistinctFields(fields[..|fields| - 1])
  {
    var front := fields[..|fields| - 1];
    forall i: nat, j: nat | i < j < |front|
      ensures Apart(front, i, j)
    {
      DistinctAt(fields, i, j);
    }
  }

  lemma DistinctSnoc(fields: seq<Field>, last: Field)
    requires DistinctFields(fields) && Elsewhere(fields, last.index)
    ensures DistinctFields(fields + [last])
  {
    var more := fields + [last];
    forall i: nat, j: nat | i < j < |more|
      ensures Apart(more, i, j)
    {
      if j < |fields| {
        DistinctAt(fields, i, j);
      }
    }
  }

  lemma {:induction false} InBucketDistinct(ready: seq<Field>, b: nat)
    requires DistinctFields(ready)
    ensures DistinctFields(InBucket(ready, b))
  {
    if ready != [] {
      var front, last := ready[..|ready| - 1], ready[|ready| - 1];
      DistinctFront(ready);
      InBucketDistinct(front, b);
      forall i | 0 <= i < |InBucket(front, b)|
        ensures InBucket(front, b)[i].index != last.index
      {
        InBucketWhen(front, b, InBucket(front, b)[i]);
        var k :| 0 <= k < |front| && front[k] == InBucket(front, b)[i];
        DistinctAt(ready, k, |ready| - 1);
      }
      DistinctSnoc(InBucket(front, b), last);
    }
  }

  // ----- Sorting a bucket by length -----

  predicate NotLonger(f: Field, g: Field) {
    |f.tokenIds| <= |g.tokenIds|
  }

  function ByLength(fields: seq<Field>): seq<Field> {
    StableSort(NotLonger, fields)
  }

  lemma {:induction false} InsertDistinct(f: Field, sorted: seq<Field>)
    requires DistinctFields(sorted) && forall k | 0 <= k < |sorted| :: sorted[k].index != f.index
    ensures DistinctFields(Insert(NotLonger, sorted, f))
  {
    if sorted == [] || NotLonger(sorted[|sorted| - 1], f) {
      DistinctSnoc(sorted, f);
    } else {
      var front, last := sorted[..|sorted| - 1], sorted[|sorted| - 1];
      DistinctFront(sorted);
      InsertDistinct(f, front);
      InsertKeeps(NotLonger, front, f);
      var more := Insert(NotLonger, front, f);
      assert last.index != f.index;
      forall k | 0 <= k < |more|
        ensures more[k].index != last.index
      {
        assert more[k] in front || more[k] == f;
        if more[k] != f {
          var j :| 0 <= j < |front| && front[j] == more[k];
          DistinctAt(sorted, j, |sorted| - 1);
        }
      }
      DistinctSnoc(more, last);
    }
  }

  lemma ByLengthKeeps(fields: seq<Field>, x: Field)
    ensures x in ByLength(fields) <==> x in fields
    ensures |ByLength(fields)| == |fields|
  {
    StableSortKeeps(NotLonger, fields);
  }

  lemma {:induction false} ByLengthDistinct(fields: seq<Field>)
    requires DistinctFields(fields)
    ensures DistinctFields(ByLength(fields))
  {
    if fields != [] {
      var front, last := fields[..|fields| - 1], fields[|fields| - 1];
      DistinctFront(fields);
      ByLengthDistinct(front);
      forall k | 0 <= k < |ByLength(front)|
        ensures ByLength(front)[k].index != last.index
      {
        ByLengthKeeps(front, ByLength(front)[k]);
        var j :| 0 <= j < |front| && front[j] == ByLength(front)[k];
        DistinctAt(fields, j, |fields| - 1);
      }
      InsertDistinct(last, ByLength(front));
    }
  }

  predicate Rising(fields: seq<Field>) {
    forall i, j | 0 <= i < j < |fields| :: |fields[i].tokenIds| <= |fields[j].tokenIds|
  }

  // The fields of a batch are in order of length.
  lemma ByLengthRises(fields: seq<Field>)
    ensures Rising(ByLength(fields))
  {
    assert TotalPreorder(NotLonger);
    StableSortSorts(NotLonger, fields);
    var sorted := ByLength(fields);
    forall i, j | 0 <= i < j < |sorted|
      ensures |sorted[i].tokenIds| <= |sorted[j].tokenIds|
    {
      assert NotLonger(sorted[i], sorted[j]);
    }
  }

  // ----- The tasks of a round -----

  predicate Holds(t: Task, f: Field) {
    match t
    case Long(field) => f == field
    case Short(fields) => f in fields
  }

  predicate FromBucket(ready: seq<Field>, fields: seq<Field>, b: nat) {
    && 1 <= |fields| <= |ready| && DistinctFields(fields)
    && forall k | 0 <= k < |fields| :: fields[k] in ready && IsShort(fields[k]) && Bucket(|fields[k].tokenIds|) == b
  }

  ghost predicate TaskOf(ready: seq<Field>, t: Task) {
    match t
    case Long(field) => field in ready && IsLong(field)
    case Short(fields) => exists b :: FromBucket(ready, fields, b)
  }

  predicate InSomeTask(tasks: seq<Task>, f: Field) {
    exists n :: 0 <= n < |tasks| && Holds(tasks[n], f)
  }

  // Every field with tokens is in exactly one task.
  ghost predicate TasksOf(ready: seq<Field>, tasks: seq<Task>) {
    && (forall n | 0 <= n < |tasks| :: TaskOf(ready, tasks[n]))
    && (forall f {:trigger InSomeTask(tasks, f)} | f in ready && f.tokenIds != [] :: InSomeTask(tasks, f))
    && (forall m, n, f {:trigger Holds(tasks[m], f), Holds(tasks[n], f)} |
          0 <= m < n < |tasks| && Holds(tasks[m], f) :: !Holds(tasks[n], f))
  }

  // The buckets in the order in which they first occur.
  function BucketsOf(ready: seq<Field>): seq<nat> {
    if ready == [] then []
    else
      var front, last := BucketsOf(ready[..|ready| - 1]), ready[|ready| - 1];
      if IsShort(last) && Bucket(|last.tokenIds|) !in front then front + [Bucket(|last.tokenIds|)] else front
  }

  predicate Different(buckets: seq<nat>) {
    forall i, j | 0 <= i < j < |buckets| :: buckets[i] != buckets[j]
  }

  lemma {:induction false} BucketsWhen(ready: seq<Field>, b: nat)
    ensures b in BucketsOf(ready) <==> InBucket(ready, b) != []
    ensures Different(BucketsOf(ready))
  {
    if ready != [] {
      BucketsWhen(ready[..|ready| - 1], b);
    }
  }

  function LongOf(ready: seq<Field>): seq<Field> {
    if ready == [] then []
    else
      var front, last := LongOf(ready[..|ready| - 1]), ready[|ready| - 1];
      if IsLong(last) then front + [last] else front
  }

  lemma {:induction false} LongWhen(ready: seq<Field>, f: Field)
    ensures f in LongOf(ready) <==> f in ready && IsLong(f)
  {
    if ready != [] {
      LongWhen(ready[..|ready| - 1], f);
      assert ready == ready[..|ready| - 1] + [ready[|ready| - 1]];
    }
  }

  lemma {:induction false} LongDistinct(ready: seq<Field>)
    requires DistinctFields(ready)
    ensures DistinctFields(LongOf(ready))
  {
    if ready != [] {
      var front, last := ready[..|ready| - 1], ready[|ready| - 1];
      DistinctFront(ready);
      LongDistinct(front);
      forall i | 0 <= i < |LongOf(front)|
        ensures LongOf(front)[i].index != last.index
      {
        LongWhen(front, LongOf(front)[i]);
        var k :| 0 <= k < |front| && front[k] == LongOf(front)[i];
        DistinctAt(ready, k, |ready| - 1);
      }
      DistinctSnoc(LongOf(front), last);
    }
  }

  function LongTasks(fields: seq<Field>): seq<Task> {
    seq(|fields|, k requires 0 <= k < |fields| => Long(fields[k]))
  }

  function ShortTasks(ready: seq<Field>, buckets: seq<nat>): seq<Task> {
    seq(|buckets|, k requires 0 <= k < |buckets| => Short(ByLength(InBucket(ready, buckets[k]))))
  }

  function Tasks(ready: seq<Field>): seq<Task> {
    LongTasks(LongOf(ready)) + ShortTasks(ready, BucketsOf(ready))
  }

  lemma ShortTaskOf(ready: seq<Field>, b: nat)
    requires DistinctFields(ready) && b in BucketsOf(ready)
    ensures FromBucket(ready, ByLength(InBucket(ready, b)), b)
  {
    var fields := ByLength(InBucket(ready, b));
    BucketsWhen(ready, b);
    InBucketDistinct(ready, b);
    ByLengthDistinct(InBucket(ready, b));
    InBucketWhen(ready, b, InBucket(ready, b)[0]);
    ByLengthKeeps(InBucket(ready, b), InBucket(ready, b)[0]);
    forall k | 0 <= k < |fields|
      ensures fields[k] in ready && IsShort(fields[k]) && Bucket(|fields[k].tokenIds|) == b
    {
      ByLengthKeeps(InBucket(ready, b), fields[k]);
      InBucketWhen(ready, b, fields[k]);
    }
  }

  // Which task of the round holds a field.
  lemma HeldBy(ready: seq<Field>, n: nat, f: Field)
    requires DistinctFields(ready) && n < |Tasks(ready)|
    ensures var longs, buckets := LongOf(ready), BucketsOf(ready);
            Holds(Tasks(ready)[n], f) <==>
              if n < |longs| then f == longs[n]
              else f in ready && IsShort(f) && Bucket(|f.tokenIds|) == buckets[n - |longs|]
  {
    var longs, buckets := LongOf(ready), BucketsOf(ready);
    if n >= |longs| {
      var b := buckets[n - |longs|];
      ByLengthKeeps(InBucket(ready, b), f);
      InBucketWhen(ready, b, f);
    }
  }

  lemma TasksAreTasks(ready: seq<Field>)
    requires DistinctFields(ready)
    ensures forall n | 0 <= n < |Tasks(ready)| :: TaskOf(ready, Tasks(ready)[n])
  {
    var longs, buckets := LongOf(ready), BucketsOf(ready);
    forall n | 0 <= n < |Tasks(ready)|
      ensures TaskOf(ready, Tasks(ready)[n])
    {
      if n < |longs| {
        LongWhen(ready, longs[n]);
      } else {
        ShortTaskOf(ready, buckets[n - |longs|]);
      }
    }
  }

  lemma SomeTaskHolds(ready: seq<Field>, f: Field) returns (n: nat)
    requires DistinctFields(ready) && f in ready && f.tokenIds != []
    ensures n < |Tasks(ready)| && Holds(Tasks(ready)[n], f)
  {
    var longs, buckets := LongOf(ready), BucketsOf(ready);
    if IsLong(f) {
      LongWhen(ready, f);
      n :| 0 <= n < |longs| && longs[n] == f;
    } else {
      var b := Bucket(|f.tokenIds|);
      InBucketWhen(ready, b, f);
      BucketsWhen(ready, b);
      var k :| 0 <= k < |buckets| && buckets[k] == b;
      n := |longs| + k;
    }
    HeldBy(ready, n, f);
  }

  lemma OneTaskHolds(ready: seq<Field>, m: nat, n: nat, f: Field)
    requires DistinctFields(ready) && m < n < |Tasks(ready)| && Holds(Tasks(ready)[m], f)
    ensures !Holds(Tasks(ready)[n], f)
  {
    var longs := LongOf(ready);
    HeldBy(ready, m, f);
    HeldBy(ready, n, f);
    LongDistinct(ready);
    BucketsWhen(ready, 0);
    if m < |longs| {
      LongWhen(ready, longs[m]);
      if n < |longs| {
        DistinctAt(longs, m, n);
      }
    }
  }

  lemma RoundTasks(ready: seq<Field>)
    requires DistinctFields(ready)
    ensures TasksOf(ready, Tasks(ready))
  {
    TasksAreTasks(ready);
    forall f | f in ready && f.tokenIds != []
      ensures InSomeTask(Tasks(ready), f)
    {
      var _ := SomeTaskHolds(ready, f);
    }
    forall m, n, f | 0 <= m < n < |Tasks(ready)| && Holds(Tasks(ready)[m], f)
      ensures !Holds(Tasks(ready)[n], f)
    {
      OneTaskHolds(ready, m, n, f);
    }
  }

  // ----- The order of the tasks, and within a task -----

  predicate Ascending(fields: seq<Field>) {
    forall i, j | 0 <= i < j < |fields| :: fields[i].index < fields[j].index
  }

  // All of these fields come before the index.
  predicate Below(fields: seq<Field>, index: nat) {
    forall k | 0 <= k < |fields| :: fields[k].index < index
  }

  lemma AscendingFront(fields: seq<Field>)
    requires Ascending(fields) && fields != []
    ensures Ascending(fields[..|fields| - 1]) && Below(fields[..|fields| - 1], fields[|fields| - 1].index)
  {
  }

  lemma {:induction false} LongAscends(ready: seq<Field>)
    requires Ascending(ready)
    ensures Ascending(LongOf(ready)) && |LongOf(ready)| == Longs(ready)
    ensures forall index: nat | Below(ready, index) :: Below(LongOf(ready), index)
  {
    if ready != [] {
      AscendingFront(ready);
      LongAscends(ready[..|ready| - 1]);
      forall index: nat | Below(ready, index)
        ensures Below(LongOf(ready), index)
      {
        assert Below(ready[..|ready| - 1], index);
      }
    }
  }

  lemma {:induction false} BucketAscends(ready: seq<Field>, b: nat)
    requires Ascending(ready)
    ensures Ascending(InBucket(ready, b))
    ensures forall index: nat | Below(ready, index) :: Below(InBucket(ready, b), index)
  {
    if ready != [] {
      AscendingFront(ready);
      BucketAscends(ready[..|ready| - 1], b);
      forall index: nat | Below(ready, index)
        ensures Below(InBucket(ready, b), index)
      {
        assert Below(ready[..|ready| - 1], index);
      }
    }
  }

  // By length, and by index where the lengths are equal.
  predicate BySize(fields: seq<Field>) {
    forall i, j | 0 <= i < j < |fields| :: SizeBefore(fields[i], fields[j])
  }

  predicate SizeBefore(f: Field, g: Field) {
    |f.tokenIds| < |g.tokenIds| || (|f.tokenIds| == |g.tokenIds| && f.index < g.index)
  }

  lemma {:induction false} InsertBySize(sorted: seq<Field>, f: Field)
    requires BySize(sorted) && Below(sorted, f.index)
    ensures BySize(Insert(NotLonger, sorted, f))
  {
    if sorted != [] {
      var front, last := sorted[..|sorted| - 1], sorted[|sorted| - 1];
      if NotLonger(last, f) {
        forall i | 0 <= i < |sorted|
          ensures SizeBefore(sorted[i], f)
        {
          assert i < |sorted| - 1 ==> SizeBefore(sorted[i], last);
        }
      } else {
        InsertBySize(front, f);
        InsertKeeps(NotLonger, front, f);
        var more := Insert(NotLonger, front, f);
        forall i | 0 <= i < |more|
          ensures SizeBefore(more[i], last)
        {
          assert more[i] in front || more[i] == f;
        }
      }
    }
  }

  lemma {:induction false} ByLengthIsBySize(fields: seq<Field>)
    requires Ascending(fields)
    ensures BySize(ByLength(fields))
  {
    if fields != [] {
      var front, last := fields[..|fields| - 1], fields[|fields| - 1];
      AscendingFront(fields);
      ByLengthIsBySize(front);
      forall k | 0 <= k < |ByLength(front)|
        ensures ByLength(front)[k].index < last.index
      {
        ByLengthKeeps(front, ByLength(front)[k]);
      }
      InsertBySize(ByLength(front), last);
    }
  }

  // The bucket that occurs first has a field before all of the other's.
  lemma {:induction false} BucketsInOrder(ready: seq<Field>, m: nat, n: nat) returns (f: Field)
    requires Ascending(ready) && m < n < |BucketsOf(ready)|
    ensures f in InBucket(ready, BucketsOf(ready)[m])
    ensures forall g | g in InBucket(ready, BucketsOf(ready)[n]) :: f.index < g.index
  {
    var front, last := ready[..|ready| - 1], ready[|ready| - 1];
    AscendingFront(ready);
    BucketsWhen(front, BucketsOf(ready)[n]);
    BucketsWhen(front, BucketsOf(ready)[m]);
    if n < |BucketsOf(front)| {
      f := BucketsInOrder(front, m, n);
      InBucketWhen(front, BucketsOf(front)[m], f);
    } else {
      f := InBucket(front, BucketsOf(front)[m])[0];
      InBucketWhen(front, BucketsOf(front)[m], f);
    }
  }

  // Fields that share a batch: up to 32 tokens, up to 64, up to 128, and up to 256.
  predicate SameSize(f: Field, g: Field) {
    && (|f.tokenIds| <= 32 <==> |g.tokenIds| <= 32)
    && (|f.tokenIds| <= 64 <==> |g.tokenIds| <= 64)
    && (|f.tokenIds| <= 128 <==> |g.tokenIds| <= 128)
  }

  lemma SameBucket(f: Field, g: Field)
    requires IsShort(f) && IsShort(g)
    ensures Bucket(|f.tokenIds|) == Bucket(|g.tokenIds|) <==> SameSize(f, g)
  {
  }

  // With a field the batch has every short field of its size, and no other.
  ghost predicate WholeSize(ready: seq<Field>, fields: seq<Field>) {
    forall f, g {:trigger SameSize(f, g)} | f in fields && g in ready && 1 <= |g.tokenIds| <= 256 ::
      g in fields <==> SameSize(f, g)
  }

  // Some field of this batch comes before every field of that one.
  predicate StartsBefore(a: seq<Field>, b: seq<Field>) {
    exists f :: f in a && forall g | g in b :: f.index < g.index
  }

  /** The tasks of a round begin with the long fields, one task each, in order; batches follow. */
  lemma LongsComeFirst(ready: seq<Field>, m: nat, n: nat)
    requires Ascending(ready) && m <= n < |Tasks(ready)|
    ensures var tasks, longs := Tasks(ready), Longs(ready);
            (tasks[n].Long? <==> n < longs) && (m < n < longs ==> tasks[m].field.index < tasks[n].field.index)
  {
    LongAscends(ready);
    TaskIs(ready, m);
    TaskIs(ready, n);
  }

  /** There is one batch for each of the four sizes that occurs, its fields by length and then by index. */
  lemma BatchesAre(ready: seq<Field>, n: nat)
    requires Ascending(ready) && Longs(ready) <= n < |Tasks(ready)|
    ensures Tasks(ready)[n].Short?
    ensures BySize(Tasks(ready)[n].fields) && WholeSize(ready, Tasks(ready)[n].fields)
  {
    LongAscends(ready);
    TaskIs(ready, n);
    BatchIsRight(ready, BucketsOf(ready)[n - Longs(ready)]);
  }

  /** The batches are in the order in which their sizes first occur. */
  lemma BatchesFollow(ready: seq<Field>, m: nat, n: nat)
    requires Ascending(ready) && Longs(ready) <= m < n < |Tasks(ready)|
    ensures Tasks(ready)[m].Short? && Tasks(ready)[n].Short?
    ensures StartsBefore(Tasks(ready)[m].fields, Tasks(ready)[n].fields)
  {
    LongAscends(ready);
    TaskIs(ready, m);
    TaskIs(ready, n);
    BatchesInOrder(ready, m - Longs(ready), n - Longs(ready), Tasks(ready)[m].fields, Tasks(ready)[n].fields);
  }

  lemma TaskIs(ready: seq<Field>, n: nat)
    requires n < |Tasks(ready)|
    ensures var longs, buckets := LongOf(ready), BucketsOf(ready);
            Tasks(ready)[n] == if n < |longs| then Long(longs[n])
                               else Short(ByLength(InBucket(ready, buckets[n - |longs|])))
  {
  }

  lemma BatchIsRight(ready: seq<Field>, b: nat)
    requires Ascending(ready)
    ensures BySize(ByLength(InBucket(ready, b))) && WholeSize(ready, ByLength(InBucket(ready, b)))
  {
    BucketAscends(ready, b);
    ByLengthIsBySize(InBucket(ready, b));
    OneSize(ready, b);
  }

  lemma OneSize(ready: seq<Field>, b: nat)
    ensures WholeSize(ready, ByLength(InBucket(ready, b)))
  {
    var fields := ByLength(InBucket(ready, b));
    forall f, g | f in fields && g in ready && 1 <= |g.tokenIds| <= 256
      ensures g in fields <==> SameSize(f, g)
    {
      BatchHolds(ready, b, f);
      BatchHolds(ready, b, g);
      SameBucket(f, g);
    }
  }

  lemma BatchesInOrder(ready: seq<Field>, m: nat, n: nat, a: seq<Field>, b: seq<Field>)
    requires Ascending(ready) && m < n < |BucketsOf(ready)|
    requires a == ByLength(InBucket(ready, BucketsOf(ready)[m])) && b == ByLength(InBucket(ready, BucketsOf(ready)[n]))
    ensures StartsBefore(a, b)
  {
    var f := BucketsInOrder(ready, m, n);
    ByLengthKeeps(InBucket(ready, BucketsOf(ready)[m]), f);
    forall g | g in b
      ensures f.index < g.index
    {
      ByLengthKeeps(InBucket(ready, BucketsOf(ready)[n]), g);
    }
  }

  lemma BatchHolds(ready: seq<Field>, b: nat, f: Field)
    ensures f in ByLength(InBucket(ready, b)) <==> f in ready && IsShort(f) && Bucket(|f.tokenIds|) == b
  {
    ByLengthKeeps(InBucket(ready, b), f);
    InBucketWhen(ready, b, f);
  }

  // The insertion-ordered map of buckets after some of the fields.
  ghost predicate Filled(fields: seq<Field>, order: seq<nat>, buckets: map<nat, seq<Field>>) {
    && order == BucketsOf(fields)
    && forall b: nat {:trigger b in buckets} {:trigger b in order} ::
       (b in buckets <==> b in order) && (b in buckets ==> buckets[b] == InBucket(fields, b))
  }

  lemma FillOne(fields: seq<Field>, order: seq<nat>, buckets: map<nat, seq<Field>>, f: Field)
    requires Filled(fields, order, buckets)
    ensures !IsShort(f) ==> Filled(fields + [f], order, buckets)
    ensures IsShort(f) ==>
              var b := Bucket(|f.tokenIds|);
              Filled(fields + [f], if b in buckets then order else order + [b],
                     buckets[b := (if b in buckets then buckets[b] else []) + [f]])
  {
    assert (fields + [f])[..|fields|] == fields;
    if IsShort(f) {
      BucketsWhen(fields, Bucket(|f.tokenIds|));
    }
  }

  lemma LongOne(fields: seq<Field>, f: Field)
    ensures LongTasks(LongOf(fields + [f]))
        == if IsLong(f) then LongTasks(LongOf(fields)) + [Long(f)] else LongTasks(LongOf(fields))
  {
    assert (fields + [f])[..|fields|] == fields;
  }

  lemma Upto(ready: seq<Field>, n: nat)
    requires n < |ready|
    ensures ready[..n + 1] == ready[..n] + [ready[n]]
  {
  }

  // The loop that fills the buckets and lists the tasks.
  method BuildTasks(ready: seq<Field>) returns (tasks: seq<Task>)
    requires DistinctFields(ready)
    ensures tasks == Tasks(ready)
  {
    var order: seq<nat> := [];
    var buckets: map<nat, seq<Field>> := map[];
    tasks := [];
    for n := 0 to |ready|
      invariant tasks == LongTasks(LongOf(ready[..n])) && Filled(ready[..n], order, buckets)
    {
      var field := ready[n];
      Upto(ready, n);
      FillOne(ready[..n], order, buckets, field);
      LongOne(ready[..n], field);
      if field.tokenIds == [] {
      } else if |field.tokenIds| > SHORT_BATCH_TOKENS {
        tasks := tasks + [Long(field)];
      } else {
        var b := Bucket(|field.tokenIds|);
        var fields := if b in buckets then buckets[b] else [];
        if b !in buckets {
          order := order + [b];
        }
        buckets := buckets[b := fields + [field]];
      }
    }
    assert ready[..|ready|] == ready;
    tasks := AppendShort(ready, order, buckets, tasks);
  }

  method AppendShort(ghost ready: seq<Field>, order: seq<nat>, buckets: map<nat, seq<Field>>, longs: seq<Task>)
    returns (tasks: seq<Task>)
    requires forall k | 0 <= k < |order| :: order[k] in buckets && buckets[order[k]] == InBucket(ready, order[k])
    ensures tasks == longs + ShortTasks(ready, order)
  {
    tasks := longs;
    for n := 0 to |order|
      invariant tasks == longs + ShortTasks(ready, order)[..n]
    {
      tasks := tasks + [Short(ByLength(buckets[order[n]]))];
    }
  }

  // ----- Publishing -----

  // What a result must be, whatever the worker answers: the rows `classify` gave, or one valid row per token.
  predicate Fits(classify: seq<nat> -> seq<Row>, f: Field, rows: seq<Row>) {
    if f.tokenIds == [] then rows == []
    else if IsLong(f) then rows == classify(f.tokenIds)
    else ValidLogits(rows, |f.tokenIds|)
  }

  function RowsOf(model: seq<nat> -> seq<Row>, tokenIds: seq<nat>): seq<Row> {
    if tokenIds == [] then [] else model(tokenIds)
  }

  ghost predicate HonestAnswer(model: seq<nat> -> seq<Row>, inputs: seq<BatchInput>, value: seq<BatchOutput>) {
    && Answers(inputs, value)
    && forall k | 0 <= k < |value| ::
         exists j :: 0 <= j < |inputs| && inputs[j].id == value[k].id && value[k].logits == model(inputs[j].tokenIds)
  }

  // Both ways of classifying give the model's rows; a batch may answer in any order.
  ghost predicate Honest(
      classify: seq<nat> -> seq<Row>, batch: seq<BatchInput> -> seq<BatchOutput>, model: seq<nat> -> seq<Row>)
  {
    && (forall t {:trigger classify(t)} :: classify(t) == model(t))
    && (forall inputs {:trigger batch(inputs)} | ValidBatchInput(inputs) :: HonestAnswer(model, inputs, batch(inputs)))
  }

  ghost predicate Published(
      classify: seq<nat> -> seq<Row>, batch: seq<BatchInput> -> seq<BatchOutput>, model: seq<nat> -> seq<Row>,
      f: Field, entry: Option<seq<Row>>)
  {
    && entry.Some? && Fits(classify, f, entry.value)
    && (Honest(classify, batch, model) ==> entry.value == RowsOf(model, f.tokenIds))
  }

  method Publish(output: seq<Option<seq<Row>>>, index: nat, rows: seq<Row>, interrupts: Moment -> bool)
    returns (r: Result<seq<Option<seq<Row>>>, ClassificationError>)
    requires index < |output|
    ensures r == if interrupts(Publishing(index)) then Failure(Interrupted)
                 else if output[index].None? then Success(output[index := Some(rows)])
                 else Failure(DuplicateFieldResult)
  {
    if interrupts(Publishing(index)) {
      return Failure(Interrupted);
    }
    if output[index].Some? {
      return Failure(DuplicateFieldResult);
    }
    r := Success(output[index := Some(rows)]);
  }

  function Inputs(fields: seq<Field>, issued: nat): seq<BatchInput> {
    seq(|fields|, k requires 0 <= k < |fields| => BatchInput(issued + k, fields[k].tokenIds))
  }

  // Every batch of a round is one the worker accepts.
  lemma BatchIsValid(ready: seq<Field>, fields: seq<Field>, b: nat, issued: nat)
    requires FromBucket(ready, fields, b) && |ready| <= SHORT_BATCH_FIELDS
    ensures ValidBatchInput(Inputs(fields, issued))
  {
    LimitsImplyPositions(Inputs(fields, issued));
  }

  lemma {:induction false} PaddingBelowTwice(fields: seq<Field>, b: nat)
    requires fields != [] && forall k | 0 <= k < |fields| :: b < 2 * |fields[k].tokenIds|
    ensures b * |fields| < 2 * TokensOf(fields)
    decreases |fields|
  {
    var front, last := fields[..|fields| - 1], fields[|fields| - 1];
    assert b * |fields| == b * |front| + b;
    if front != [] {
      PaddingBelowTwice(front, b);
    } else {
      assert TokensOf(front) == 0;
    }
  }

  // Above the smallest bucket, a batch padded to its longest row has fewer than twice its tokens.
  lemma PaddingIsBounded(ready: seq<Field>, fields: seq<Field>, b: nat, issued: nat)
    requires FromBucket(ready, fields, b) && b > 32
    ensures LongestRow(Inputs(fields, issued)) * |fields| < 2 * TokensOf(fields)
  {
    LongestBounds(Inputs(fields, issued));
    PaddingBelowTwice(fields, b);
    Product(LongestRow(Inputs(fields, issued)), b, |fields|);
  }

  lemma Product(a: nat, b: nat, n: nat)
    requires a <= b
    ensures a * n <= b * n
  {
  }

  // The rows of a validated batch are the rows its fields asked for.
  lemma RowsAreOwn(
      batch: seq<BatchInput> -> seq<BatchOutput>, model: seq<nat> -> seq<Row>, inputs: seq<BatchInput>,
      rows: seq<BatchOutput>, k: nat)
    requires DistinctInputs(inputs) && HonestAnswer(model, inputs, batch(inputs))
    requires InInputOrder(inputs, batch(inputs), rows) && k < |inputs|
    ensures rows[k].logits == model(inputs[k].tokenIds)
  {
    var n :| 0 <= n < |batch(inputs)| && batch(inputs)[n] == rows[k];
    var j :|
      && 0 <= j < |inputs| && inputs[j].id == batch(inputs)[n].id
      && batch(inputs)[n].logits == model(inputs[j].tokenIds);
  }

  // The output once the first n rows of a batch are published.
  function WithRows(
      output: seq<Option<seq<Row>>>, fields: seq<Field>, rows: seq<BatchOutput>, n: nat): (r: seq<Option<seq<Row>>>)
    requires n <= |fields| == |rows| && forall k | 0 <= k < |fields| :: fields[k].index < |output|
    ensures |r| == |output|
  {
    if n == 0 then output else WithRows(output, fields, rows, n - 1)[fields[n - 1].index := Some(rows[n - 1].logits)]
  }

  // Only the entries of these fields differ.
  predicate SameElsewhere(fields: seq<Field>, before: seq<Option<seq<Row>>>, after: seq<Option<seq<Row>>>) {
    && |after| == |before|
    && forall i: nat {:trigger Elsewhere(fields, i)} | i < |before| && Elsewhere(fields, i) :: after[i] == before[i]
  }

  // The first n fields have their rows, and every other entry is as before.
  predicate RowsAt(
      output: seq<Option<seq<Row>>>, fields: seq<Field>, rows: seq<BatchOutput>, n: nat, after: seq<Option<seq<Row>>>)
    requires n <= |fields| == |rows| && |after| == |output|
    requires forall k | 0 <= k < |fields| :: fields[k].index < |output|
  {
    && (forall k | 0 <= k < n :: after[fields[k].index] == Some(rows[k].logits))
    && (forall k | n <= k < |fields| :: after[fields[k].index] == output[fields[k].index])
    && SameElsewhere(fields, output, after)
  }

  lemma RowsAtNext(
      output: seq<Option<seq<Row>>>, fields: seq<Field>, rows: seq<BatchOutput>, n: nat, after: seq<Option<seq<Row>>>)
    requires n < |fields| == |rows| && |after| == |output| && forall k | 0 <= k < |fields| :: fields[k].index < |output|
    requires DistinctFields(fields) && RowsAt(output, fields, rows, n, after)
    ensures RowsAt(output, fields, rows, n + 1, after[fields[n].index := Some(rows[n].logits)])
  {
    forall k | 0 <= k < |fields| && k != n
      ensures fields[k].index != fields[n].index
    {
      DistinctAt(fields, k, n);
    }
  }

  lemma {:induction false} WithRowsAt(output: seq<Option<seq<Row>>>, fields: seq<Field>, rows: seq<BatchOutput>, n: nat)
    requires n <= |fields| == |rows| && (forall k | 0 <= k < |fields| :: fields[k].index < |output|)
        && DistinctFields(fields)
    ensures RowsAt(output, fields, rows, n, WithRows(output, fields, rows, n))
  {
    if n > 0 {
      WithRowsAt(output, fields, rows, n - 1);
      RowsAtNext(output, fields, rows, n - 1, WithRows(output, fields, rows, n - 1));
    }
  }

  predicate Missing(fields: seq<Field>, output: seq<Option<seq<Row>>>) {
    forall k | 0 <= k < |fields| :: fields[k].index < |output| && output[fields[k].index].None?
  }

  // The results of one short batch, row by row; a field's own result is still missing when it is published.
  method PublishBatch(
      fields: seq<Field>, rows: seq<BatchOutput>, output: seq<Option<seq<Row>>>, interrupts: Moment -> bool)
    returns (r: Result<seq<Option<seq<Row>>>, ClassificationError>)
    requires |rows| == |fields| && DistinctFields(fields)
    requires Missing(fields, output)
    ensures r == Success(WithRows(output, fields, rows, |fields|))
        || (r == Failure(Interrupted) && exists m :: interrupts(m))
  {
    var current := output;
    for row := 0 to |fields|
      invariant current == WithRows(output, fields, rows, row)
    {
      WithRowsAt(output, fields, rows, row);
      var published := Publish(current, fields[row].index, rows[row].logits, interrupts);
      if published.Failure? {
        return published;
      }
      current := published.value;
    }
    r := Success(current);
  }

  // The entries of these fields are published, the others are as before.
  ghost predicate AllPublished(
      classify: seq<nat> -> seq<Row>, batch: seq<BatchInput> -> seq<BatchOutput>, model: seq<nat> -> seq<Row>,
      fields: seq<Field>, before: seq<Option<seq<Row>>>, after: seq<Option<seq<Row>>>)
  {
    && |after| == |before|
    && (forall k | 0 <= k < |fields| ::
         fields[k].index < |after| && Published(classify, batch, model, fields[k], after[fields[k].index]))
    && SameElsewhere(fields, before, after)
  }

  lemma BatchPublished(
      classify: seq<nat> -> seq<Row>, batch: seq<BatchInput> -> seq<BatchOutput>, model: seq<nat> -> seq<Row>,
      ready: seq<Field>, b: nat, fields: seq<Field>, issued: nat, rows: seq<BatchOutput>, output: seq<Option<seq<Row>>>)
    requires FromBucket(ready, fields, b) && |ready| <= SHORT_BATCH_FIELDS
    requires forall k | 0 <= k < |fields| :: fields[k].index < |output|
    requires InInputOrder(Inputs(fields, issued), batch(Inputs(fields, issued)), rows)
    ensures AllPublished(classify, batch, model, fields, output, WithRows(output, fields, rows, |fields|))
  {
    var inputs := Inputs(fields, issued);
    BatchIsValid(ready, fields, b, issued);
    WithRowsAt(output, fields, rows, |fields|);
    forall k | 0 <= k < |fields|
      ensures Published(classify, batch, model, fields[k], Some(rows[k].logits))
    {
      RowPublished(classify, batch, model, ready, b, fields, issued, rows, k);
    }
  }

  lemma RowPublished(
      classify: seq<nat> -> seq<Row>, batch: seq<BatchInput> -> seq<BatchOutput>, model: seq<nat> -> seq<Row>,
      ready: seq<Field>, b: nat, fields: seq<Field>, issued: nat, rows: seq<BatchOutput>, k: nat)
    requires FromBucket(ready, fields, b) && ValidBatchInput(Inputs(fields, issued)) && k < |fields|
    requires InInputOrder(Inputs(fields, issued), batch(Inputs(fields, issued)), rows)
    ensures Published(classify, batch, model, fields[k], Some(rows[k].logits))
  {
    var inputs := Inputs(fields, issued);
    assert inputs[k].tokenIds == fields[k].tokenIds && IsShort(fields[k]);
    if Honest(classify, batch, model) {
      HonestRows(classify, batch, model, inputs, rows, k);
    }
  }

  lemma HonestRows(
      classify: seq<nat> -> seq<Row>, batch: seq<BatchInput> -> seq<BatchOutput>, model: seq<nat> -> seq<Row>,
      inputs: seq<BatchInput>, rows: seq<BatchOutput>, k: nat)
    requires Honest(classify, batch, model) && ValidBatchInput(inputs) && k < |inputs|
    requires InInputOrder(inputs, batch(inputs), rows)
    ensures rows[k].logits == model(inputs[k].tokenIds)
  {
    assert HonestAnswer(model, inputs, batch(inputs));
    RowsAreOwn(batch, model, inputs, rows, k);
  }

  function FieldsOf(t: Task): seq<Field> {
    match t
    case Long(field) => [field]
    case Short(fields) => fields
  }

  // The worker gives some valid batch an output that does not answer it.
  ghost predicate Misanswers(batch: seq<BatchInput> -> seq<BatchOutput>) {
    exists inputs {:trigger batch(inputs)} :: ValidBatchInput(inputs) && !Answers(inputs, batch(inputs))
  }

  // Why a task may fail: the worker's answer to a batch is not valid, or something interrupts it.
  ghost predicate Excused(
      batch: seq<BatchInput> -> seq<BatchOutput>, interrupts: Moment -> bool, error: ClassificationError)
  {
    || (error == BatchRejected && Misanswers(batch))
    || (error == Interrupted && exists m :: interrupts(m))
  }

  // A batch, from the call of the worker to the publication of its rows.
  method RunShort(
      classify: seq<nat> -> seq<Row>, batch: seq<BatchInput> -> seq<BatchOutput>, ghost model: seq<nat> -> seq<Row>,
      ghost ready: seq<Field>, ghost b: nat, fields: seq<Field>, issued: nat, output: seq<Option<seq<Row>>>,
      interrupts: Moment -> bool)
    returns (r: Result<seq<Option<seq<Row>>>, ClassificationError>)
    requires FromBucket(ready, fields, b) && |ready| <= SHORT_BATCH_FIELDS
    requires Missing(fields, output)
    ensures r.Failure? ==> Excused(batch, interrupts, r.error)
    ensures r.Success? ==> AllPublished(classify, batch, model, fields, output, r.value)
  {
    var inputs := Inputs(fields, issued);
    BatchIsValid(ready, fields, b, issued);
    var rows := ValidateBatchOutput(inputs, batch(inputs));
    if rows.Failure? {
      assert !Answers(inputs, batch(inputs));
      return Failure(BatchRejected);
    }
    BatchPublished(classify, batch, model, ready, b, fields, issued, rows.value, output);
    r := PublishBatch(fields, rows.value, output, interrupts);
  }

  /**
    One task. That a result is already there never happens.
   */
  method RunTask(
      classify: seq<nat> -> seq<Row>, batch: seq<BatchInput> -> seq<BatchOutput>, ghost model: seq<nat> -> seq<Row>,
      ghost ready: seq<Field>, task: Task, issued: nat, output: seq<Option<seq<Row>>>,
      interrupts: Moment -> bool)
    returns (r: Result<seq<Option<seq<Row>>>, ClassificationError>)
    requires TaskOf(ready, task) && |ready| <= SHORT_BATCH_FIELDS
    requires Missing(FieldsOf(task), output)
    ensures r.Failure? ==> Excused(batch, interrupts, r.error)
    ensures r.Success? ==> AllPublished(classify, batch, model, FieldsOf(task), output, r.value)
  {
    match task
    case Long(field) =>
      assert FieldsOf(task)[0] == field;
      r := Publish(output, field.index, classify(field.tokenIds), interrupts);
    case Short(fields) =>
      ghost var b :| FromBucket(ready, fields, b);
      r := RunShort(classify, batch, model, ready, b, fields, issued, output, interrupts);
  }

  // ----- A round: two runners, any order of completion -----

  predicate Covers(tasks: seq<Task>, n: nat, i: nat)
    requires n < |tasks|
  {
    exists k :: 0 <= k < |FieldsOf(tasks[n])| && FieldsOf(tasks[n])[k].index == i
  }

  lemma HeldIs(t: Task, f: Field)
    ensures Holds(t, f) <==> f in FieldsOf(t)
  {
  }

  lemma HeldIsReady(ready: seq<Field>, tasks: seq<Task>, n: nat, f: Field)
    requires TasksOf(ready, tasks) && n < |tasks| && f in FieldsOf(tasks[n])
    ensures f in ready && f.tokenIds != []
  {
    assert TaskOf(ready, tasks[n]);
  }

  lemma SameField(ready: seq<Field>, f: Field, g: Field)
    requires DistinctFields(ready) && f in ready && g in ready && f.index == g.index
    ensures f == g
  {
    var a :| 0 <= a < |ready| && ready[a] == f;
    var b :| 0 <= b < |ready| && ready[b] == g;
    if a != b {
      DistinctAt(ready, a, b);
    }
  }

  // Two tasks never publish the same index.
  lemma DisjointTasks(ready: seq<Field>, tasks: seq<Task>, m: nat, n: nat, i: nat)
    requires DistinctFields(ready) && TasksOf(ready, tasks) && m < |tasks| && n < |tasks| && m != n
    requires Covers(tasks, m, i)
    ensures !Covers(tasks, n, i)
  {
    if Covers(tasks, n, i) {
      var j :| 0 <= j < |FieldsOf(tasks[m])| && FieldsOf(tasks[m])[j].index == i;
      var k :| 0 <= k < |FieldsOf(tasks[n])| && FieldsOf(tasks[n])[k].index == i;
      var f := FieldsOf(tasks[m])[j];
      HeldIsReady(ready, tasks, m, f);
      HeldIsReady(ready, tasks, n, FieldsOf(tasks[n])[k]);
      SameField(ready, f, FieldsOf(tasks[n])[k]);
      HeldIs(tasks[m], f);
      HeldIs(tasks[n], f);
    }
  }

  /**
    Where the round stands: the fields of the finished tasks are published, those of the others are
    missing, and nothing else has changed.
   */
  predicate Uncovered(tasks: seq<Task>, i: nat) {
    forall n | 0 <= n < |tasks| :: !Covers(tasks, n, i)
  }

  ghost predicate Present(
      classify: seq<nat> -> seq<Row>, batch: seq<BatchInput> -> seq<BatchOutput>, model: seq<nat> -> seq<Row>,
      fields: seq<Field>, output: seq<Option<seq<Row>>>)
  {
    forall k | 0 <= k < |fields| ::
      fields[k].index < |output| && Published(classify, batch, model, fields[k], output[fields[k].index])
  }

  ghost predicate Progress(
      classify: seq<nat> -> seq<Row>, batch: seq<BatchInput> -> seq<BatchOutput>, model: seq<nat> -> seq<Row>,
      tasks: seq<Task>, done: seq<bool>, before: seq<Option<seq<Row>>>, output: seq<Option<seq<Row>>>)
  {
    && |output| == |before| && |done| == |tasks|
    && (forall n | 0 <= n < |tasks| && done[n] :: Present(classify, batch, model, FieldsOf(tasks[n]), output))
    && (forall n | 0 <= n < |tasks| && !done[n] :: Missing(FieldsOf(tasks[n]), output))
    && (forall i: nat {:trigger Uncovered(tasks, i)} | i < |before| && Uncovered(tasks, i) :: output[i] == before[i])
  }

  lemma Progresses(
      classify: seq<nat> -> seq<Row>, batch: seq<BatchInput> -> seq<BatchOutput>, model: seq<nat> -> seq<Row>,
      ready: seq<Field>, tasks: seq<Task>, done: seq<bool>, n: nat,
      before: seq<Option<seq<Row>>>, output: seq<Option<seq<Row>>>, after: seq<Option<seq<Row>>>)
    requires DistinctFields(ready) && TasksOf(ready, tasks) && n < |tasks| == |done| && !done[n]
    requires Progress(classify, batch, model, tasks, done, before, output)
    requires AllPublished(classify, batch, model, FieldsOf(tasks[n]), output, after)
    ensures Progress(classify, batch, model, tasks, done[n := true], before, after)
  {
    assert Present(classify, batch, model, FieldsOf(tasks[n]), after);
    forall m | 0 <= m < |tasks| && m != n
      ensures done[m] ==> Present(classify, batch, model, FieldsOf(tasks[m]), after)
      ensures !done[m] ==> Missing(FieldsOf(tasks[m]), after)
    {
      OtherTask(classify, batch, model, ready, tasks, m, n, output, after);
    }
    forall i: nat | i < |before| && Uncovered(tasks, i)
      ensures after[i] == before[i]
    {
      assert !Covers(tasks, n, i) && Elsewhere(FieldsOf(tasks[n]), i);
    }
  }

  // Publishing one task leaves the others as they are.
  lemma OtherTask(
      classify: seq<nat> -> seq<Row>, batch: seq<BatchInput> -> seq<BatchOutput>, model: seq<nat> -> seq<Row>,
      ready: seq<Field>, tasks: seq<Task>, m: nat, n: nat,
      output: seq<Option<seq<Row>>>, after: seq<Option<seq<Row>>>)
    requires DistinctFields(ready) && TasksOf(ready, tasks) && m < |tasks| && n < |tasks| && m != n
    requires AllPublished(classify, batch, model, FieldsOf(tasks[n]), output, after)
    ensures Present(classify, batch, model, FieldsOf(tasks[m]), output)
        ==> Present(classify, batch, model, FieldsOf(tasks[m]), after)
    ensures Missing(FieldsOf(tasks[m]), output) ==> Missing(FieldsOf(tasks[m]), after)
  {
    var fields := FieldsOf(tasks[m]);
    forall k | 0 <= k < |fields| && fields[k].index < |output|
      ensures after[fields[k].index] == output[fields[k].index]
    {
      assert Covers(tasks, m, fields[k].index);
      DisjointTasks(ready, tasks, m, n, fields[k].index);
      assert Elsewhere(FieldsOf(tasks[n]), fields[k].index);
    }
  }

  function Every(n: nat): seq<bool> {
    seq(n, _ => true)
  }

  ghost predicate RoundDone(
      classify: seq<nat> -> seq<Row>, batch: seq<BatchInput> -> seq<BatchOutput>, model: seq<nat> -> seq<Row>,
      tasks: seq<Task>, before: seq<Option<seq<Row>>>, output: seq<Option<seq<Row>>>)
  {
    Progress(classify, batch, model, tasks, Every(|tasks|), before, output)
  }

  // The tasks that have been taken are done or running, no task is both, and none runs twice.
  predicate Taken(running: seq<nat>, next: nat, done: seq<bool>) {
    && next <= |done|
    && (forall k | 0 <= k < |running| :: running[k] < next && !done[running[k]])
    && (forall j, k | 0 <= j < k < |running| :: running[j] != running[k])
    && (forall n {:trigger Runs(running, n)} | 0 <= n < |done| ::
         if n < next then done[n] || Runs(running, n) else !done[n])
  }

  predicate Runs(running: seq<nat>, n: nat) {
    n in running
  }

  lemma AllTaken(running: seq<nat>, done: seq<bool>)
    requires Taken(running, |done|, done) && running == []
    ensures done == Every(|done|)
  {
    forall n | 0 <= n < |done|
      ensures done[n]
    {
      assert !Runs(running, n);
    }
  }

  lemma TakesNext(running: seq<nat>, next: nat, done: seq<bool>)
    requires Taken(running, next, done) && next < |done|
    ensures Taken(running + [next], next + 1, done)
  {
    forall n | 0 <= n < |done|
      ensures if n < next + 1 then done[n] || Runs(running + [next], n) else !done[n]
    {
      assert n < next ==> done[n] || Runs(running, n);
      assert Runs(running, n) || !Runs(running, n);
    }
    assert Runs(running, next) || !Runs(running, next);
  }

  function Without(running: seq<nat>, k: nat): (rest: seq<nat>)
    requires k < |running|
    ensures |rest| == |running| - 1
  {
    running[..k] + running[k + 1..]
  }

  lemma Finishes(running: seq<nat>, next: nat, done: seq<bool>, k: nat)
    requires Taken(running, next, done) && k < |running|
    ensures Taken(Without(running, k), next, done[running[k] := true])
  {
    var rest, after := Without(running, k), done[running[k] := true];
    forall n | 0 <= n < |done|
      ensures if n < next then after[n] || Runs(rest, n) else !after[n]
    {
      if Runs(running, n) && n != running[k] {
        var j :| 0 <= j < |running| && running[j] == n;
        assert rest[if j < k then j else j - 1] == n;
      }
    }
  }

  method FinishTask(
      classify: seq<nat> -> seq<Row>, batch: seq<BatchInput> -> seq<BatchOutput>, ghost model: seq<nat> -> seq<Row>,
      ghost ready: seq<Field>, cursor: nat, tasks: seq<Task>, ghost done: seq<bool>, n: nat, issued: nat,
      ghost before: seq<Option<seq<Row>>>, output: seq<Option<seq<Row>>>, interrupts: Moment -> bool)
    returns (r: Result<seq<Option<seq<Row>>>, ClassificationError>)
    requires DistinctFields(ready) && |ready| <= SHORT_BATCH_FIELDS && TasksOf(ready, tasks)
    requires n < |tasks| == |done| && !done[n]
    requires Progress(classify, batch, model, tasks, done, before, output)
    ensures r.Failure? ==> Excused(batch, interrupts, r.error)
    ensures r.Success? ==> Progress(classify, batch, model, tasks, done[n := true], before, r.value)
  {
    if interrupts(Running(cursor, n)) {
      return Failure(Interrupted);
    }
    r := RunTask(classify, batch, model, ready, tasks[n], issued, output, interrupts);
    if r.Success? {
      Progresses(classify, batch, model, ready, tasks, done, n, before, output, r.value);
    }
  }

  predicate AllMissing(tasks: seq<Task>, output: seq<Option<seq<Row>>>) {
    forall n | 0 <= n < |tasks| :: Missing(FieldsOf(tasks[n]), output)
  }

  function Nothing(count: nat): (done: seq<bool>)
    ensures |done| == count
  {
    seq(count, _ => false)
  }

  lemma NothingDone(
      classify: seq<nat> -> seq<Row>, batch: seq<BatchInput> -> seq<BatchOutput>, model: seq<nat> -> seq<Row>,
      tasks: seq<Task>, before: seq<Option<seq<Row>>>)
    requires AllMissing(tasks, before)
    ensures Progress(classify, batch, model, tasks, Nothing(|tasks|), before, before)
    ensures Taken([], 0, Nothing(|tasks|))
  {
  }

  lemma RunsUndone(running: seq<nat>, next: nat, done: seq<bool>, k: nat)
    requires Taken(running, next, done) && k < |running|
    ensures running[k] < |done| && !done[running[k]]
  {
  }

  // One of the running tasks ends.
  method FinishOne(
      classify: seq<nat> -> seq<Row>, batch: seq<BatchInput> -> seq<BatchOutput>, ghost model: seq<nat> -> seq<Row>,
      ghost ready: seq<Field>, cursor: nat, tasks: seq<Task>, running: seq<nat>, ghost next: nat, ghost done: seq<bool>,
      k: nat, issued: nat, ghost before: seq<Option<seq<Row>>>, output: seq<Option<seq<Row>>>,
      interrupts: Moment -> bool)
    returns (r: Result<seq<Option<seq<Row>>>, ClassificationError>, ghost after: seq<bool>)
    requires DistinctFields(ready) && |ready| <= SHORT_BATCH_FIELDS && TasksOf(ready, tasks)
    requires |done| == |tasks| && Taken(running, next, done) && k < |running|
    requires Progress(classify, batch, model, tasks, done, before, output)
    ensures r.Failure? ==> Excused(batch, interrupts, r.error)
    ensures r.Success? ==>
              && |after| == |tasks| && Taken(Without(running, k), next, after)
              && Progress(classify, batch, model, tasks, after, before, r.value)
  {
    RunsUndone(running, next, done, k);
    r := FinishTask(classify, batch, model, ready, cursor, tasks, done, running[k], issued, before, output, interrupts);
    Finishes(running, next, done, k);
    after := done[running[k] := true];
  }

  // The runners take the tasks in order and finish them in any order.
  method RunRound(
      classify: seq<nat> -> seq<Row>, batch: seq<BatchInput> -> seq<BatchOutput>, ghost model: seq<nat> -> seq<Row>,
      ghost ready: seq<Field>, cursor: nat, tasks: seq<Task>, concurrency: nat, before: seq<Option<seq<Row>>>,
      interrupts: Moment -> bool)
    returns (r: Result<seq<Option<seq<Row>>>, ClassificationError>)
    requires DistinctFields(ready) && |ready| <= SHORT_BATCH_FIELDS && TasksOf(ready, tasks) && 1 <= concurrency <= 2
    requires AllMissing(tasks, before)
    ensures r.Failure? ==> Excused(batch, interrupts, r.error)
    ensures r.Success? ==> RoundDone(classify, batch, model, tasks, before, r.value)
  {
    NothingDone(classify, batch, model, tasks, before);
    var output := before;
    var next := 0;
    var running: seq<nat> := [];
    var issued: nat := 0;
    ghost var done := Nothing(|tasks|);
    while next < |tasks| || running != []
      invariant next <= |tasks| == |done| && |running| <= concurrency
      invariant Taken(running, next, done) && Progress(classify, batch, model, tasks, done, before, output)
      decreases 2 * (|tasks| - next) + |running|
    {
      if next < |tasks| && |running| < concurrency {
        TakesNext(running, next, done);
        running := running + [next];
        next := next + 1;
      } else {
        var k: nat :| k < |running|;
        var result, after :=
          FinishOne(
            classify, batch, model, ready, cursor, tasks, running, next, done, k, issued, before, output, interrupts);
        if result.Failure? {
          return result;
        }
        output, issued := result.value, issued + SHORT_BATCH_FIELDS;
        done, running := after, Without(running, k);
      }
    }
    AllTaken(running, done);
    r := Success(output);
  }

  // The fields without tokens have no logits.
  method PublishEmpty(ready: seq<Field>, before: seq<Option<seq<Row>>>, interrupts: Moment -> bool)
    returns (r: Result<seq<Option<seq<Row>>>, ClassificationError>)
    requires DistinctFields(ready) && Missing(ready, before)
    ensures r.Failure? ==> r.error == Interrupted && exists m :: interrupts(m)
    ensures r.Success? ==> EmptyPublished(ready, before, r.value)
  {
    var output := before;
    for n := 0 to |ready|
      invariant |output| == |before|
      invariant forall k | 0 <= k < |ready| ::
        output[ready[k].index] == if k < n && ready[k].tokenIds == [] then Some([]) else None
      invariant SameElsewhere(ready, before, output)
    {
      if ready[n].tokenIds == [] {
        forall k | 0 <= k < |ready| && k != n
          ensures ready[k].index != ready[n].index
        {
          DistinctAt(ready, k, n);
        }
        var published := Publish(output, ready[n].index, [], interrupts);
        if published.Failure? {
          return published;
        }
        output := published.value;
      }
    }
    r := Success(output);
  }

  predicate EmptyPublished(ready: seq<Field>, before: seq<Option<seq<Row>>>, after: seq<Option<seq<Row>>>)
    requires Missing(ready, before)
  {
    && |after| == |before|
    && (forall k | 0 <= k < |ready| :: after[ready[k].index] == if ready[k].tokenIds == [] then Some([]) else None)
    && SameElsewhere(ready, before, after)
  }

  // ----- The whole request -----

  ghost predicate PublishedUpto(
      classify: seq<nat> -> seq<Row>, batch: seq<BatchInput> -> seq<BatchOutput>, model: seq<nat> -> seq<Row>,
      fields: seq<seq<nat>>, cursor: nat, output: seq<Option<seq<Row>>>)
  {
    && |output| == |fields|
    && (forall i | 0 <= i < |fields| ::
         if i < cursor then Published(classify, batch, model, Field(i, fields[i]), output[i]) else output[i].None?)
  }

  lemma FieldPublished(
      classify: seq<nat> -> seq<Row>, batch: seq<BatchInput> -> seq<BatchOutput>, model: seq<nat> -> seq<Row>,
      fields: seq<seq<nat>>, cursor: nat, ready: seq<Field>, tasks: seq<Task>,
      before: seq<Option<seq<Row>>>, after: seq<Option<seq<Row>>>, i: nat)
    requires ConsecutiveFrom(fields, cursor, ready) && TasksOf(ready, tasks)
    requires RoundDone(classify, batch, model, tasks, before, after)
    requires cursor <= i < cursor + |ready| && fields[i] != []
    ensures i < |after| && Published(classify, batch, model, Field(i, fields[i]), after[i])
  {
    var k := i - cursor;
    assert ready[k] == Field(i, fields[i]);
    assert InSomeTask(tasks, ready[k]);
    var n :| 0 <= n < |tasks| && Holds(tasks[n], ready[k]);
    HeldIs(tasks[n], ready[k]);
    assert Every(|tasks|)[n];
    var j :| 0 <= j < |FieldsOf(tasks[n])| && FieldsOf(tasks[n])[j] == ready[k];
  }

  // An index that no task of the round publishes.
  lemma IndexKept(
      classify: seq<nat> -> seq<Row>, batch: seq<BatchInput> -> seq<BatchOutput>, model: seq<nat> -> seq<Row>,
      fields: seq<seq<nat>>, cursor: nat, ready: seq<Field>, tasks: seq<Task>,
      before: seq<Option<seq<Row>>>, after: seq<Option<seq<Row>>>, i: nat)
    requires ConsecutiveFrom(fields, cursor, ready) && TasksOf(ready, tasks) && |before| == |fields|
    requires RoundDone(classify, batch, model, tasks, before, after)
    requires i < |fields| && (i < cursor || cursor + |ready| <= i || fields[i] == [])
    ensures |after| == |before| && after[i] == before[i]
  {
    forall n | 0 <= n < |tasks|
      ensures !Covers(tasks, n, i)
    {
      NotCovered(fields, cursor, ready, tasks, n, i);
    }
    assert Uncovered(tasks, i);
  }

  lemma EmptyKept(
      fields: seq<seq<nat>>, cursor: nat, ready: seq<Field>, output: seq<Option<seq<Row>>>,
      before: seq<Option<seq<Row>>>, i: nat)
    requires ConsecutiveFrom(fields, cursor, ready) && Missing(ready, output) && EmptyPublished(ready, output, before)
    requires i < |fields| == |output|
    ensures |before| == |output|
    ensures if cursor <= i < cursor + |ready| then fields[i] == [] ==> before[i] == Some([]) else before[i] == output[i]
  {
    if cursor <= i < cursor + |ready| {
      assert ready[i - cursor] == Field(i, fields[i]);
    } else {
      assert Elsewhere(ready, i);
    }
  }

  lemma RoundPublished(
      classify: seq<nat> -> seq<Row>, batch: seq<BatchInput> -> seq<BatchOutput>, model: seq<nat> -> seq<Row>,
      fields: seq<seq<nat>>, cursor: nat, ready: seq<Field>, tasks: seq<Task>,
      output: seq<Option<seq<Row>>>, before: seq<Option<seq<Row>>>, after: seq<Option<seq<Row>>>)
    requires PublishedUpto(classify, batch, model, fields, cursor, output) && ConsecutiveFrom(fields, cursor, ready)
    requires TasksOf(ready, tasks) && Missing(ready, output) && EmptyPublished(ready, output, before)
    requires RoundDone(classify, batch, model, tasks, before, after)
    ensures PublishedUpto(classify, batch, model, fields, cursor + |ready|, after)
  {
    forall i | 0 <= i < |fields|
      ensures if i < cursor + |ready| then Published(classify, batch, model, Field(i, fields[i]), after[i])
              else after[i].None?
    {
      if cursor <= i < cursor + |ready| && fields[i] != [] {
        FieldPublished(classify, batch, model, fields, cursor, ready, tasks, before, after, i);
      } else {
        EmptyKept(fields, cursor, ready, output, before, i);
        IndexKept(classify, batch, model, fields, cursor, ready, tasks, before, after, i);
      }
    }
  }

  lemma NotCovered(fields: seq<seq<nat>>, cursor: nat, ready: seq<Field>, tasks: seq<Task>, n: nat, i: nat)
    requires ConsecutiveFrom(fields, cursor, ready) && TasksOf(ready, tasks) && n < |tasks| && i < |fields|
    requires i < cursor || cursor + |ready| <= i || fields[i] == []
    ensures !Covers(tasks, n, i)
  {
    if Covers(tasks, n, i) {
      var k :| 0 <= k < |FieldsOf(tasks[n])| && FieldsOf(tasks[n])[k].index == i;
      HeldIsReady(ready, tasks, n, FieldsOf(tasks[n])[k]);
      ReadyField(fields, cursor, ready, FieldsOf(tasks[n])[k]);
    }
  }

  lemma ReadyField(fields: seq<seq<nat>>, cursor: nat, ready: seq<Field>, f: Field)
    requires ConsecutiveFrom(fields, cursor, ready) && f in ready
    ensures cursor <= f.index < cursor + |ready| && f.tokenIds == fields[f.index]
  {
  }

  /**
    Every field is published exactly once with its own rows, in whatever order the runners finish and
    the batches answer. With a faithful model the result is the model's rows for each field. A failure
    is a rejected batch, a field over the token limit, an abort or a callback that throws: no result is
    ever published twice or missing.
   */
  method ClassifyRequestFields(
      fields: seq<seq<nat>>, classify: seq<nat> -> seq<Row>, batch: seq<BatchInput> -> seq<BatchOutput>,
      ghost model: seq<nat> -> seq<Row>, concurrency: nat, interrupts: Moment -> bool)
    returns (r: Result<seq<Option<seq<Row>>>, ClassificationError>)
    requires 1 <= concurrency <= 2
    ensures r.Success? ==> PublishedUpto(classify, batch, model, fields, |fields|, r.value)
    ensures r.Failure? ==>
      || Excused(batch, interrupts, r.error)
      || (r.error == TokenBudgetExceeded && exists k :: 0 <= k < |fields| && |fields[k]| > 262_144)
  {
    var output: seq<Option<seq<Row>>> := seq(|fields|, _ => None);
    var cursor := 0;
    while cursor < |fields|
      invariant cursor <= |fields| && PublishedUpto(classify, batch, model, fields, cursor, output)
    {
      var prepared := PrepareRound(fields, cursor, interrupts);
      if prepared.Failure? {
        return Failure(prepared.error);
      }
      var ready := prepared.value;
      var before := PublishEmpty(ready, output, interrupts);
      if before.Failure? {
        return before;
      }
      var tasks := BuildTasks(ready);
      RoundTasks(ready);
      StillMissing(ready, tasks, before.value);
      var after := RunRound(classify, batch, model, ready, cursor, tasks, concurrency, before.value, interrupts);
      if after.Failure? {
        return after;
      }
      RoundPublished(classify, batch, model, fields, cursor, ready, tasks, output, before.value, after.value);
      output := after.value;
      cursor := cursor + |ready|;
    }
    if interrupts(Ending) {
      return Failure(Interrupted);
    }
    if exists i | 0 <= i < |output| :: output[i].None? {
      return Failure(IncompleteFieldResults);
    }
    r := Success(output);
  }

  lemma StillMissing(ready: seq<Field>, tasks: seq<Task>, before: seq<Option<seq<Row>>>)
    requires TasksOf(ready, tasks) && forall k | 0 <= k < |ready| :: ready[k].index < |before|
    requires forall k | 0 <= k < |ready| :: before[ready[k].index] == if ready[k].tokenIds == [] then Some([]) else None
    ensures AllMissing(tasks, before)
  {
    forall n, k | 0 <= n < |tasks| && 0 <= k < |FieldsOf(tasks[n])|
      ensures FieldsOf(tasks[n])[k].index < |before| && before[FieldsOf(tasks[n])[k].index].None?
    {
      HeldIsReady(ready, tasks, n, FieldsOf(tasks[n])[k]);
    }
  }
}
