/** The contract of a short-field batch: what may be sent to a worker, and what may come back. */
module InferenceContract {
  import opened Wrappers
  import opened Labels

  const SHORT_BATCH_FIELDS := 8
  const SHORT_BATCH_TOKENS := 256
  const SHORT_BATCH_POSITIONS := 2048

  // Ids are UUIDs; only their being equal or not matters.
  datatype BatchInput = BatchInput(id: nat, tokenIds: seq<nat>)

  // A number that came out of a worker.
  datatype Logit = Finite(value: real) | NotFinite

  type Row = seq<Logit>

  datatype BatchOutput = BatchOutput(id: nat, logits: seq<Row>)

  datatype ContractError = InvalidBatchInput | InvalidBatchOutput

  function LongestRow(rows: seq<BatchInput>): nat {
    if rows == [] then 0
    else
      var rest := LongestRow(rows[1..]);
      if |rows[0].tokenIds| > rest then |rows[0].tokenIds| else rest
  }

  predicate DistinctInputs(rows: seq<BatchInput>) {
    forall i, j | 0 <= i < j < |rows| :: rows[i].id != rows[j].id
  }

  predicate ValidBatchInput(rows: seq<BatchInput>) {
    && 1 <= |rows| <= SHORT_BATCH_FIELDS
    && LongestRow(rows) * |rows| <= SHORT_BATCH_POSITIONS
    && DistinctInputs(rows)
    && forall i | 0 <= i < |rows| :: 1 <= |rows[i].tokenIds| <= SHORT_BATCH_TOKENS
  }

  lemma {:induction false} LongestBounds(rows: seq<BatchInput>)
    ensures forall i | 0 <= i < |rows| :: |rows[i].tokenIds| <= LongestRow(rows)
    ensures rows != [] ==> exists i :: 0 <= i < |rows| && |rows[i].tokenIds| == LongestRow(rows)
  {
    if rows != [] {
      LongestBounds(rows[1..]);
      assert forall i | 0 < i < |rows| :: rows[i] == rows[1..][i - 1];
      if |rows[0].tokenIds| != LongestRow(rows) {
        var i :| 0 <= i < |rows[1..]| && |rows[1..][i].tokenIds| == LongestRow(rows[1..]);
        assert |rows[i + 1].tokenIds| == LongestRow(rows);
      } else {
        assert |rows[0].tokenIds| == LongestRow(rows);
      }
    }
  }

  // A batch is accepted exactly within the field and token limits: the position limit never refuses one.
  lemma LimitsImplyPositions(rows: seq<BatchInput>)
    ensures ValidBatchInput(rows)
       <==> && 1 <= |rows| <= 8
            && (forall i, j | 0 <= i < j < |rows| :: rows[i].id != rows[j].id)
            && (forall i | 0 <= i < |rows| :: 1 <= |rows[i].tokenIds| <= 256)
  {
    if 1 <= |rows| <= 8 && forall i | 0 <= i < |rows| :: 1 <= |rows[i].tokenIds| <= 256 {
      PositionsFit(rows);
    }
  }

  lemma PositionsFit(rows: seq<BatchInput>)
    requires 1 <= |rows| <= SHORT_BATCH_FIELDS
    requires forall i | 0 <= i < |rows| :: 1 <= |rows[i].tokenIds| <= SHORT_BATCH_TOKENS
    ensures LongestRow(rows) * |rows| <= SHORT_BATCH_POSITIONS
  {
    LongestBounds(rows);
    var i :| 0 <= i < |rows| && |rows[i].tokenIds| == LongestRow(rows);
    AtMostEightTimes(LongestRow(rows), |rows|);
  }

  lemma AtMostEightTimes(length: nat, count: nat)
    requires length <= SHORT_BATCH_TOKENS && count <= SHORT_BATCH_FIELDS
    ensures length * count <= SHORT_BATCH_POSITIONS
  {
    if count > 0 {
      assert length * count == length * (count - 1) + length;
      AtMostTimes(length, count);
    }
  }

  lemma {:induction false} AtMostTimes(length: nat, count: nat)
    requires length <= SHORT_BATCH_TOKENS
    ensures length * count <= SHORT_BATCH_TOKENS * count
  {
  }

  // ----- Outputs -----

  // One row per token, with a finite number for each label.
  predicate ValidLogits(logits: seq<Row>, tokens: nat) {
    && |logits| == tokens
    && forall t | 0 <= t < |logits| :: ValidRow(logits[t])
  }

  predicate ValidRow(row: Row) {
    |row| == LABEL_COUNT && forall j | 0 <= j < |row| :: row[j].Finite?
  }

  // The output answers the inputs one for one, in any order, with one valid row of logits per token.
  ghost predicate Answers(inputs: seq<BatchInput>, value: seq<BatchOutput>) {
    && |value| == |inputs|
    && (forall i, j {:trigger value[i].id, value[j].id} | 0 <= i < j < |value| :: value[i].id != value[j].id)
    && (forall k | 0 <= k < |value| :: AnswersOne(inputs, value[k]))
  }

  ghost predicate AnswersOne(inputs: seq<BatchInput>, row: BatchOutput) {
    exists j :: 0 <= j < |inputs| && inputs[j].id == row.id && ValidLogits(row.logits, |inputs[j].tokenIds|)
  }

  // Where the input with this id is; the number of inputs if there is none.
  function InputAt(inputs: seq<BatchInput>, id: nat): (j: nat)
    ensures j <= |inputs| && (j < |inputs| ==> inputs[j].id == id)
    ensures forall k | 0 <= k < j :: inputs[k].id != id
  {
    if inputs == [] then 0 else if inputs[0].id == id then 0 else 1 + InputAt(inputs[1..], id)
  }

  function Ids(inputs: seq<BatchInput>): set<nat> {
    set k | 0 <= k < |inputs| :: inputs[k].id
  }

  lemma {:induction false} IdsCount(inputs: seq<BatchInput>)
    requires DistinctInputs(inputs)
    ensures |Ids(inputs)| == |inputs|
  {
    if inputs == [] {
      assert Ids(inputs) == {};
    } else {
      var front, last := inputs[..|inputs| - 1], inputs[|inputs| - 1];
      IdsCount(front);
      assert Ids(inputs) == Ids(front) + {last.id} by {
        assert inputs == front + [last];
      }
    }
  }

  lemma {:induction false} SameSize(a: set<nat>, b: set<nat>)
    requires a <= b && |a| == |b|
    ensures a == b
  {
    if a != b {
      var x :| x in b && x !in a;
      var rest := b - {x};
      assert a <= rest && |rest| == |b| - 1;
      SubsetSize(a, rest);
    }
  }

  lemma {:induction false} SubsetSize(a: set<nat>, b: set<nat>)
    requires a <= b
    ensures |a| <= |b|
  {
    if a != {} {
      var x :| x in a;
      SubsetSize(a - {x}, b - {x});
    }
  }

  // The rows seen so far, under their ids.
  ghost predicate Collected(inputs: seq<BatchInput>, value: seq<BatchOutput>, known: map<nat, BatchOutput>) {
    && |known| == |value| && known.Keys <= Ids(inputs)
    && (forall k | 0 <= k < |value| :: value[k].id in known && AnswersOne(inputs, value[k]))
    && (forall id | id in known :: known[id] in value && known[id].id == id)
    && (forall i, j {:trigger value[i].id, value[j].id} | 0 <= i < j < |value| :: value[i].id != value[j].id)
  }

  lemma CollectOne(inputs: seq<BatchInput>, value: seq<BatchOutput>, known: map<nat, BatchOutput>, n: nat, j: nat)
    requires n < |value| && Collected(inputs, value[..n], known) && value[n].id !in known
    requires j < |inputs| && inputs[j].id == value[n].id && ValidLogits(value[n].logits, |inputs[j].tokenIds|)
    ensures Collected(inputs, value[..n + 1], known[value[n].id := value[n]])
  {
    var row := value[n];
    assert inputs[j].id in Ids(inputs);
    assert AnswersOne(inputs, row);
    assert value[..n + 1] == value[..n] + [row];
  }

  lemma NotAnswered(inputs: seq<BatchInput>, value: seq<BatchOutput>, known: map<nat, BatchOutput>, n: nat)
    requires DistinctInputs(inputs) && n < |value| && Collected(inputs, value[..n], known)
    requires var row, j := value[n], InputAt(inputs, value[n].id);
             j == |inputs| || row.id in known || !ValidLogits(row.logits, |inputs[j].tokenIds|)
    ensures !Answers(inputs, value)
  {
    var row, j := value[n], InputAt(inputs, value[n].id);
    if j == |inputs| {
      assert !AnswersOne(inputs, row);
    } else if row.id in known {
      var k :| 0 <= k < n && value[..n][k] == known[row.id];
      assert value[k].id == value[n].id;
    } else {
      OnlyInput(inputs, j, row);
    }
  }

  /**
    The outputs in the order of the inputs, or an error exactly when the value does not answer them.
    `known` remembers the rows seen so far under their ids.
   */
  method ValidateBatchOutput(inputs: seq<BatchInput>, value: seq<BatchOutput>)
    returns (r: Result<seq<BatchOutput>, ContractError>)
    requires DistinctInputs(inputs)
    ensures r.Success? <==> Answers(inputs, value)
    ensures r.Success? ==> InInputOrder(inputs, value, r.value)
  {
    if |value| != |inputs| {
      return Failure(InvalidBatchOutput);
    }
    var known: map<nat, BatchOutput> := map[];
    for n := 0 to |value|
      invariant Collected(inputs, value[..n], known)
    {
      var row := value[n];
      var j := InputAt(inputs, row.id);
      if j == |inputs| || row.id in known || !ValidLogits(row.logits, |inputs[j].tokenIds|) {
        NotAnswered(inputs, value, known, n);
        return Failure(InvalidBatchOutput);
      }
      CollectOne(inputs, value, known, n, j);
      known := known[row.id := row];
    }
    AllKnown(inputs, value, known);
    r := Success(Reordered(inputs, known));
    InOrder(inputs, value, known);
  }

  ghost predicate InInputOrder(inputs: seq<BatchInput>, value: seq<BatchOutput>, rows: seq<BatchOutput>) {
    && |rows| == |inputs|
    && forall k | 0 <= k < |inputs| ::
       rows[k] in value && rows[k].id == inputs[k].id && ValidLogits(rows[k].logits, |inputs[k].tokenIds|)
  }

  function Reordered(inputs: seq<BatchInput>, known: map<nat, BatchOutput>): seq<BatchOutput>
    requires forall n | 0 <= n < |inputs| :: inputs[n].id in known
  {
    seq(|inputs|, n requires 0 <= n < |inputs| => known[inputs[n].id])
  }

  // As many rows as inputs, all different and all asked for: every input has its row.
  lemma AllKnown(inputs: seq<BatchInput>, value: seq<BatchOutput>, known: map<nat, BatchOutput>)
    requires DistinctInputs(inputs) && |value| == |inputs| && Collected(inputs, value[..|value|], known)
    ensures forall n | 0 <= n < |inputs| :: inputs[n].id in known
    ensures Answers(inputs, value)
  {
    assert value[..|value|] == value;
    IdsCount(inputs);
    SameSize(known.Keys, Ids(inputs));
    assert forall n | 0 <= n < |inputs| :: inputs[n].id in Ids(inputs);
  }

  lemma InOrder(inputs: seq<BatchInput>, value: seq<BatchOutput>, known: map<nat, BatchOutput>)
    requires DistinctInputs(inputs) && Collected(inputs, value[..|value|], known)
    requires forall n | 0 <= n < |inputs| :: inputs[n].id in known
    ensures InInputOrder(inputs, value, Reordered(inputs, known))
  {
    assert value[..|value|] == value;
    forall n | 0 <= n < |inputs|
      ensures var row := known[inputs[n].id];
              row in value && row.id == inputs[n].id && ValidLogits(row.logits, |inputs[n].tokenIds|)
    {
      var row := known[inputs[n].id];
      var k :| 0 <= k < |value| && value[k] == row;
      assert AnswersOne(inputs, value[k]);
      FittingInput(inputs, n, row);
    }
  }

  lemma OnlyInput(inputs: seq<BatchInput>, j: nat, row: BatchOutput)
    requires DistinctInputs(inputs) && j < |inputs| && inputs[j].id == row.id
    requires !ValidLogits(row.logits, |inputs[j].tokenIds|)
    ensures !AnswersOne(inputs, row)
  {
  }

  lemma FittingInput(inputs: seq<BatchInput>, j: nat, row: BatchOutput)
    requires DistinctInputs(inputs) && j < |inputs| && inputs[j].id == row.id && AnswersOne(inputs, row)
    ensures ValidLogits(row.logits, |inputs[j].tokenIds|)
  {
  }
}
