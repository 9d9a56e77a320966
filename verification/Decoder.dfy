/**
  The constrained Viterbi decoder over BIOES labels.

  Scores are reals. "Impossible" is the finite sentinel NEGATIVE_INFINITY, so an impossible state
  still has a score that later logits may lift; the results below say when that can be observed.
 */
module Decoder {
  import opened Wrappers
  import opened Labels

  const NEGATIVE_INFINITY: real := -1000000000000000000000000000000.0

  datatype Biases = Biases(
    backgroundStay: real,
    backgroundToStart: real,
    insideToContinue: real,
    insideToEnd: real,
    endToBackground: real,
    endToStart: real)

  datatype DecodeError = WrongLogitCount | NoValidPath | BacktraceFailed

  type Row = seq<real>

  predicate ValidStart(l: TokenLabel) {
    l.O? || l.tag.B? || l.tag.S?
  }

  predicate ValidEnd(l: TokenLabel) {
    l.O? || l.tag.E? || l.tag.S?
  }

  predicate IsValidTransition(previous: TokenLabel, next: TokenLabel) {
    if previous.O? || previous.tag.E? || previous.tag.S? then
      next.O? || next.tag.B? || next.tag.S?
    else
      next.Tagged? && previous.category == next.category && (next.tag.I? || next.tag.E?)
  }

  function TransitionBias(previous: TokenLabel, next: TokenLabel, b: Biases): real {
    if previous.O? then
      if next.O? then b.backgroundStay else b.backgroundToStart
    else if previous.tag.B? || previous.tag.I? then
      if next.Tagged? && next.tag.I? then b.insideToContinue else b.insideToEnd
    else
      if next.O? then b.endToBackground else b.endToStart
  }

  predicate WellShaped(logits: seq<Row>) {
    forall t | 0 <= t < |logits| :: |logits[t]| == LABEL_COUNT
  }

  // ----- What a path is, and what it is worth -----

  predicate Chain(path: seq<TokenLabel>) {
    forall i | 0 < i < |path| :: IsValidTransition(path[i - 1], path[i])
  }

  predicate ValidPath(path: seq<TokenLabel>) {
    path != [] && ValidStart(path[0]) && ValidEnd(path[|path| - 1]) && Chain(path)
  }

  ghost function Score(logits: seq<Row>, b: Biases, path: seq<TokenLabel>): real
    requires WellShaped(logits) && 0 < |path| <= |logits|
  {
    var last := |path| - 1;
    if last == 0 then logits[0][IndexOf(path[0])]
    else
      Score(logits, b, path[..last]) + TransitionBias(path[last - 1], path[last], b) + logits[last][IndexOf(path[last])]
  }

  ghost predicate PathFor(logits: seq<Row>, path: seq<TokenLabel>) {
    |path| == |logits| && ValidPath(path)
  }

  ghost predicate Optimal(logits: seq<Row>, b: Biases, path: seq<TokenLabel>)
    requires WellShaped(logits)
  {
    && PathFor(logits, path)
    && forall other | PathFor(logits, other) :: Score(logits, b, other) <= Score(logits, b, path)
  }

  ghost predicate SomePathAboveCutoff(logits: seq<Row>, b: Biases)
    requires WellShaped(logits)
  {
    exists path :: PathFor(logits, path) && Score(logits, b, path) > NEGATIVE_INFINITY / 2.0
  }

  ghost predicate BiasesAtMost(b: Biases, k: real) {
    && b.backgroundStay <= k && b.backgroundToStart <= k && b.insideToContinue <= k
    && b.insideToEnd <= k && b.endToBackground <= k && b.endToStart <= k
  }

  // No logit or bias exceeds k, and even 2 * T of them cannot lift the sentinel past its half.
  ghost predicate BoundedAbove(logits: seq<Row>, b: Biases, k: real)
    requires WellShaped(logits)
  {
    && 0.0 <= k
    && Rise(k, |logits|) <= -NEGATIVE_INFINITY / 2.0
    && BiasesAtMost(b, k)
    && forall t, j | 0 <= t < |logits| && 0 <= j < LABEL_COUNT :: logits[t][j] <= k
  }

  ghost predicate BoundedBelow(logits: seq<Row>, b: Biases, k: real)
    requires WellShaped(logits)
  {
    && -k <= b.backgroundStay
    && Rise(k, |logits|) < -NEGATIVE_INFINITY / 2.0
    && forall t | 0 <= t < |logits| :: -k <= logits[t][0]
  }

  // 2 * tokens * k
  ghost function Rise(k: real, tokens: nat): real {
    2.0 * k * tokens as real
  }

  // ----- Paths out of the sentinel -----

  /**
    What the decoder makes of a chain of labels that comes out of the sentinel: at token 0 from a label
    that may not start, later from a token no predecessor of which beats the sentinel.
   */
  ghost function SentinelScore(logits: seq<Row>, b: Biases, path: seq<TokenLabel>, start: nat): real
    requires WellShaped(logits) && 0 < |path| && start + |path| <= |logits|
  {
    var last := |path| - 1;
    if last == 0 then (if start == 0 then NEGATIVE_INFINITY else NEGATIVE_INFINITY + logits[start][IndexOf(path[0])])
    else
      SentinelScore(logits, b, path[..last], start) + TransitionBias(path[last - 1], path[last], b)
      + logits[start + last][IndexOf(path[last])]
  }

  ghost predicate SentinelPath(logits: seq<Row>, path: seq<TokenLabel>) {
    && 0 < |path| <= |logits| && Chain(path) && ValidEnd(path[|path| - 1])
    && (|path| == |logits| ==> !ValidStart(path[0]))
  }

  // A legal path above the cut-off is worth more than everything that comes out of the sentinel.
  ghost predicate LegalWins(logits: seq<Row>, b: Biases)
    requires WellShaped(logits)
  {
    exists path ::
      && PathFor(logits, path) && Score(logits, b, path) > NEGATIVE_INFINITY / 2.0
      && forall other | SentinelPath(logits, other) ::
           SentinelScore(logits, b, other, |logits| - |other|) < Score(logits, b, path)
  }

  // Something above the cut-off that comes out of the sentinel is worth more than every legal path.
  ghost predicate SentinelWins(logits: seq<Row>, b: Biases)
    requires WellShaped(logits)
  {
    exists path ::
      && SentinelPath(logits, path)
      && SentinelScore(logits, b, path, |logits| - |path|) > NEGATIVE_INFINITY / 2.0
      && forall other | PathFor(logits, other) ::
           Score(logits, b, other) < SentinelScore(logits, b, path, |logits| - |path|)
  }

  // What the decoder makes of a chain of labels from some token on.
  ghost function Worth(logits: seq<Row>, b: Biases, path: seq<TokenLabel>, start: nat): real
    requires WellShaped(logits) && 0 < |path| && start + |path| <= |logits|
  {
    if start == 0 && ValidStart(path[0]) then Score(logits, b, path) else SentinelScore(logits, b, path, start)
  }

  // A chain up to the last token, be it a legal path or out of the sentinel.
  ghost predicate Contender(logits: seq<Row>, path: seq<TokenLabel>) {
    0 < |path| <= |logits| && Chain(path) && ValidEnd(path[|path| - 1])
  }

  // Read from the end, the first chain has the earlier label where the two first differ, or stops first.
  ghost predicate Before(a: seq<TokenLabel>, c: seq<TokenLabel>) {
    a == []
    || (c != []
        && var i, j := IndexOf(a[|a| - 1]), IndexOf(c[|c| - 1]);
           i < j || (i == j && Before(a[..|a| - 1], c[..|c| - 1])))
  }

  // The contender is worth less, or as much and it comes later.
  ghost predicate Beats(logits: seq<Row>, b: Biases, path: seq<TokenLabel>, other: seq<TokenLabel>)
    requires WellShaped(logits) && PathFor(logits, path) && Contender(logits, other)
  {
    var worth := Worth(logits, b, other, |logits| - |other|);
    worth < Score(logits, b, path) || (worth == Score(logits, b, path) && Before(path, other))
  }

  // The legal path is above the cut-off and beats every contender.
  ghost predicate Wins(logits: seq<Row>, b: Biases, path: seq<TokenLabel>)
    requires WellShaped(logits)
  {
    && PathFor(logits, path) && Score(logits, b, path) > NEGATIVE_INFINITY / 2.0
    && forall other | Contender(logits, other) :: Beats(logits, b, path, other)
  }

  // ----- The forward table -----

  // Tables are indexed by position in the label list.
  ghost predicate Alphabet(labels: seq<TokenLabel>) {
    && |labels| == LABEL_COUNT
    && (forall i | 0 <= i < LABEL_COUNT :: IndexOf(labels[i]) == i)
    && (forall l: TokenLabel :: labels[IndexOf(l)] == l)
  }

  function Candidate(labels: seq<TokenLabel>, previous: Row, b: Biases, i: nat, j: nat): real
    requires |labels| == |previous| == LABEL_COUNT && i < LABEL_COUNT && j < LABEL_COUNT
  {
    previous[i] + TransitionBias(labels[i], labels[j], b)
  }

  // `pointer` is the first allowed predecessor of label j among the best of the first n, if one beats the sentinel.
  ghost predicate BestOf(labels: seq<TokenLabel>, previous: Row, b: Biases, j: nat, n: nat, pointer: int, best: real)
    requires |labels| == |previous| == LABEL_COUNT && j < LABEL_COUNT && n <= LABEL_COUNT
  {
    && -1 <= pointer < n
    && (if pointer < 0 then best == NEGATIVE_INFINITY
        else
          && IsValidTransition(labels[pointer], labels[j])
          && best == Candidate(labels, previous, b, pointer, j)
          && best > NEGATIVE_INFINITY)
    && (forall i: nat | i < n && IsValidTransition(labels[i], labels[j]) ::
         Candidate(labels, previous, b, i, j) <= best)
    && (forall i: nat | i < pointer && IsValidTransition(labels[i], labels[j]) ::
          Candidate(labels, previous, b, i, j) < best)
  }

  ghost predicate StartRow(labels: seq<TokenLabel>, row: Row, scores: Row) {
    && |labels| == |row| == |scores| == LABEL_COUNT
    && forall j: nat | j < LABEL_COUNT ::
         scores[j] == if ValidStart(labels[j]) then row[j] else NEGATIVE_INFINITY
  }

  ghost predicate NextRow(
      labels: seq<TokenLabel>, row: Row, b: Biases, previous: Row, pointers: seq<int>, scores: Row)
  {
    && |labels| == |row| == |previous| == |pointers| == |scores| == LABEL_COUNT
    && forall j: nat | j < LABEL_COUNT ::
         BestOf(labels, previous, b, j, LABEL_COUNT, pointers[j], scores[j] - row[j])
  }

  ghost predicate Forward(labels: seq<TokenLabel>, logits: seq<Row>, b: Biases, table: seq<Row>, back: seq<seq<int>>) {
    && Alphabet(labels) && WellShaped(logits)
    && 0 < |table| <= |logits| && |back| == |table| - 1
    && (forall t | 0 <= t < |table| :: |table[t]| == LABEL_COUNT)
    && (forall t | 0 <= t < |back| :: |back[t]| == LABEL_COUNT)
    && StartRow(labels, logits[0], table[0])
    && forall t | 0 < t < |table| :: NextRow(labels, logits[t], b, table[t - 1], back[t - 1], table[t])
  }

  lemma ForwardCell(
      labels: seq<TokenLabel>, logits: seq<Row>, b: Biases, table: seq<Row>, back: seq<seq<int>>, t: nat, j: nat)
    requires Forward(labels, logits, b, table, back) && 0 < t < |table| && j < LABEL_COUNT
    ensures BestOf(labels, table[t - 1], b, j, LABEL_COUNT, back[t - 1][j], table[t][j] - logits[t][j])
  {
    assert NextRow(labels, logits[t], b, table[t - 1], back[t - 1], table[t]);
  }

  lemma ChainSnoc(path: seq<TokenLabel>, l: TokenLabel)
    requires path != [] && Chain(path) && IsValidTransition(path[|path| - 1], l)
    ensures Chain(path + [l])
  {
  }

  /** Every legal beginning of a path scores at most the table entry of its last label. */
  lemma {:induction false} TableDominates(
    labels: seq<TokenLabel>, logits: seq<Row>, b: Biases, table: seq<Row>, back: seq<seq<int>>, path: seq<TokenLabel>)
    requires Forward(labels, logits, b, table, back)
    requires 0 < |path| <= |table| && ValidStart(path[0]) && Chain(path)
    ensures Score(logits, b, path) <= table[|path| - 1][IndexOf(path[|path| - 1])]
  {
    var t := |path| - 1;
    var j := IndexOf(path[t]);
    assert labels[j] == path[t];
    if t > 0 {
      var front := path[..t];
      assert Chain(front);
      TableDominates(labels, logits, b, table, back, front);
      assert IsValidTransition(path[t - 1], path[t]);
      CandidateBelow(labels, logits, b, table, back, t, path[t - 1], path[t]);
    }
  }

  ghost predicate PointersBelow(back: seq<seq<int>>) {
    forall u | 0 <= u < |back| ::
      |back[u]| == LABEL_COUNT && forall i | 0 <= i < LABEL_COUNT :: back[u][i] < LABEL_COUNT
  }

  // Label positions along the stored predecessors from label j at token t, back to token 0.
  ghost function Walk(back: seq<seq<int>>, t: nat, j: nat): (ids: Option<seq<nat>>)
    requires t <= |back| && j < LABEL_COUNT
    requires PointersBelow(back)
    ensures ids.Some? ==> |ids.value| == t + 1 && ids.value[t] == j
    ensures ids.Some? ==> forall u | 0 <= u <= t :: ids.value[u] < LABEL_COUNT
  {
    if t == 0 then Some([j])
    else if back[t - 1][j] < 0 then None
    else
      var front := Walk(back, t - 1, back[t - 1][j]);
      if front.None? then None else Some(front.value + [j])
  }

  lemma PointersInRange(labels: seq<TokenLabel>, logits: seq<Row>, b: Biases, table: seq<Row>, back: seq<seq<int>>)
    requires Forward(labels, logits, b, table, back)
    ensures PointersBelow(back)
  {
    forall u, i | 0 <= u < |back| && 0 <= i < LABEL_COUNT
      ensures back[u][i] < LABEL_COUNT
    {
      ForwardCell(labels, logits, b, table, back, u + 1, i);
    }
  }

  function PathOf(labels: seq<TokenLabel>, ids: seq<nat>): (path: seq<TokenLabel>)
    requires |labels| == LABEL_COUNT
    requires forall t | 0 <= t < |ids| :: ids[t] < LABEL_COUNT
    ensures |path| == |ids|
  {
    seq(|ids|, t requires 0 <= t < |ids| => labels[ids[t]])
  }

  /** Following stored predecessors only takes allowed transitions, and the table entry is the path's own score. */
  lemma {:induction false} WalkScore(
    labels: seq<TokenLabel>, logits: seq<Row>, b: Biases, table: seq<Row>, back: seq<seq<int>>, t: nat, j: nat)
    requires Forward(labels, logits, b, table, back) && t < |table| && j < LABEL_COUNT
    requires PointersBelow(back)
    requires Walk(back, t, j).Some?
    ensures var path := PathOf(labels, Walk(back, t, j).value);
            && Chain(path) && path[t] == labels[j]
            && (ValidStart(path[0]) ==> Score(logits, b, path) == table[t][j])
  {
    if t == 0 {
      assert IndexOf(labels[j]) == j;
    } else {
      var p := back[t - 1][j];
      WalkScore(labels, logits, b, table, back, t - 1, p);
      var front := PathOf(labels, Walk(back, t - 1, p).value);
      assert PathOf(labels, Walk(back, t, j).value) == front + [labels[j]];
      StepScore(labels, logits, b, table, back, t, j, front);
    }
  }

  lemma StepScore(
    labels: seq<TokenLabel>, logits: seq<Row>, b: Biases, table: seq<Row>, back: seq<seq<int>>, t: nat, j: nat,
    front: seq<TokenLabel>)
    requires Forward(labels, logits, b, table, back) && 0 < t < |table| && j < LABEL_COUNT
    requires 0 <= back[t - 1][j] < LABEL_COUNT
    requires |front| == t && Chain(front) && front[t - 1] == labels[back[t - 1][j]]
    ensures Chain(front + [labels[j]])
    ensures ValidStart(front[0]) && Score(logits, b, front) == table[t - 1][back[t - 1][j]] ==>
              Score(logits, b, front + [labels[j]]) == table[t][j]
  {
    ForwardCell(labels, logits, b, table, back, t, j);
    ChainSnoc(front, labels[j]);
    assert (front + [labels[j]])[..t] == front;
    assert IndexOf(labels[j]) == j;
  }

  /** Every chain out of the sentinel scores at most the table entry of its last label. */
  lemma {:induction false} SentinelDominated(
    labels: seq<TokenLabel>, logits: seq<Row>, b: Biases, table: seq<Row>, back: seq<seq<int>>,
    path: seq<TokenLabel>, start: nat)
    requires Forward(labels, logits, b, table, back)
    requires 0 < |path| && start + |path| <= |table| && Chain(path) && (start == 0 ==> !ValidStart(path[0]))
    ensures SentinelScore(logits, b, path, start) <= table[start + |path| - 1][IndexOf(path[|path| - 1])]
  {
    var last := |path| - 1;
    var t, j := start + last, IndexOf(path[last]);
    assert labels[j] == path[last];
    if last > 0 {
      assert Chain(path[..last]);
      SentinelDominated(labels, logits, b, table, back, path[..last], start);
      CandidateBelow(labels, logits, b, table, back, t, path[last - 1], path[last]);
    } else if t > 0 {
      ForwardCell(labels, logits, b, table, back, t, j);
    }
  }

  lemma CandidateBelow(
    labels: seq<TokenLabel>, logits: seq<Row>, b: Biases, table: seq<Row>, back: seq<seq<int>>, t: nat,
    previous: TokenLabel, next: TokenLabel)
    requires Forward(labels, logits, b, table, back) && 0 < t < |table| && IsValidTransition(previous, next)
    ensures table[t - 1][IndexOf(previous)] + TransitionBias(previous, next, b) + logits[t][IndexOf(next)]
         <= table[t][IndexOf(next)]
  {
    var i, j := IndexOf(previous), IndexOf(next);
    assert labels[i] == previous && labels[j] == next;
    ForwardCell(labels, logits, b, table, back, t, j);
    assert Candidate(labels, table[t - 1], b, i, j) <= table[t][j] - logits[t][j];
  }

  // The walk back from a label does not reach a legal start.
  ghost predicate FromSentinel(labels: seq<TokenLabel>, back: seq<seq<int>>, t: nat, j: nat)
    requires |labels| == LABEL_COUNT && t <= |back| && j < LABEL_COUNT && PointersBelow(back)
  {
    Walk(back, t, j).Some? ==> !ValidStart(labels[Walk(back, t, j).value[0]])
  }

  lemma IllegalStart(labels: seq<TokenLabel>, back: seq<seq<int>>, j: nat)
    requires |labels| == LABEL_COUNT && j < LABEL_COUNT && PointersBelow(back) && FromSentinel(labels, back, 0, j)
    ensures !ValidStart(labels[j])
  {
    assert Walk(back, 0, j) == Some([j]);
  }

  lemma FromSentinelBefore(labels: seq<TokenLabel>, back: seq<seq<int>>, t: nat, j: nat)
    requires |labels| == LABEL_COUNT && 0 < t <= |back| && j < LABEL_COUNT && PointersBelow(back)
    requires FromSentinel(labels, back, t, j) && back[t - 1][j] >= 0
    ensures FromSentinel(labels, back, t - 1, back[t - 1][j])
  {
    var front := Walk(back, t - 1, back[t - 1][j]);
    assert front.Some? ==> Walk(back, t, j).value == front.value + [j];
  }

  // The value of label l at token t is the score of this chain out of the sentinel.
  ghost predicate Explains(logits: seq<Row>, b: Biases, path: seq<TokenLabel>, t: nat, l: TokenLabel, value: real)
    requires WellShaped(logits) && t < |logits|
  {
    && 0 < |path| <= t + 1 && Chain(path) && path[|path| - 1] == l
    && (|path| == t + 1 ==> !ValidStart(path[0]))
    && SentinelScore(logits, b, path, t + 1 - |path|) == value
  }

  /** A table entry whose walk does not reach a legal start is the score of a chain out of the sentinel. */
  lemma {:induction false} SentinelOrigin(
    labels: seq<TokenLabel>, logits: seq<Row>, b: Biases, table: seq<Row>, back: seq<seq<int>>, t: nat, j: nat)
    returns (path: seq<TokenLabel>)
    requires Forward(labels, logits, b, table, back) && t < |table| && j < LABEL_COUNT && PointersBelow(back)
    requires FromSentinel(labels, back, t, j)
    ensures Explains(logits, b, path, t, labels[j], table[t][j])
  {
    if t == 0 {
      path := [labels[j]];
      IllegalStart(labels, back, j);
      SentinelStarts(labels, logits, b, table, back, t, j);
    } else if back[t - 1][j] < 0 {
      path := [labels[j]];
      SentinelStarts(labels, logits, b, table, back, t, j);
    } else {
      FromSentinelBefore(labels, back, t, j);
      var front := SentinelOrigin(labels, logits, b, table, back, t - 1, back[t - 1][j]);
      path := front + [labels[j]];
      SentinelGrows(labels, logits, b, table, back, t, j, front);
    }
  }

  lemma SentinelStarts(
    labels: seq<TokenLabel>, logits: seq<Row>, b: Biases, table: seq<Row>, back: seq<seq<int>>, t: nat, j: nat)
    requires Forward(labels, logits, b, table, back) && t < |table| && j < LABEL_COUNT
    requires if t == 0 then !ValidStart(labels[j]) else back[t - 1][j] < 0
    ensures Explains(logits, b, [labels[j]], t, labels[j], table[t][j])
  {
    assert IndexOf(labels[j]) == j;
    if t > 0 {
      ForwardCell(labels, logits, b, table, back, t, j);
    }
  }

  lemma SentinelGrows(
    labels: seq<TokenLabel>, logits: seq<Row>, b: Biases, table: seq<Row>, back: seq<seq<int>>, t: nat, j: nat,
    front: seq<TokenLabel>)
    requires Forward(labels, logits, b, table, back) && 0 < t < |table| && j < LABEL_COUNT
    requires 0 <= back[t - 1][j] < LABEL_COUNT
    requires var p := back[t - 1][j]; Explains(logits, b, front, t - 1, labels[p], table[t - 1][p])
    ensures Explains(logits, b, front + [labels[j]], t, labels[j], table[t][j])
  {
    ForwardCell(labels, logits, b, table, back, t, j);
    ChainSnoc(front, labels[j]);
    assert (front + [labels[j]])[..|front|] == front;
    assert IndexOf(labels[j]) == j;
  }

  // ----- Ties -----

  lemma WorthStep(logits: seq<Row>, b: Biases, front: seq<TokenLabel>, l: TokenLabel, start: nat)
    requires WellShaped(logits) && 0 < |front| && start + |front| < |logits|
    ensures Worth(logits, b, front + [l], start)
         == Worth(logits, b, front, start) + TransitionBias(front[|front| - 1], l, b)
            + logits[start + |front|][IndexOf(l)]
  {
    assert (front + [l])[..|front|] == front;
  }

  lemma WorthBelow(
    labels: seq<TokenLabel>, logits: seq<Row>, b: Biases, table: seq<Row>, back: seq<seq<int>>,
    path: seq<TokenLabel>, start: nat)
    requires Forward(labels, logits, b, table, back) && 0 < |path| && start + |path| <= |table| && Chain(path)
    ensures Worth(logits, b, path, start) <= table[start + |path| - 1][IndexOf(path[|path| - 1])]
  {
    if start == 0 && ValidStart(path[0]) {
      TableDominates(labels, logits, b, table, back, path);
    } else {
      SentinelDominated(labels, logits, b, table, back, path, start);
    }
  }

  // The labels along the stored predecessors, back to token 0 or to where the sentinel came in.
  ghost function Origin(labels: seq<TokenLabel>, back: seq<seq<int>>, t: nat, j: nat): (path: seq<TokenLabel>)
    requires |labels| == LABEL_COUNT && t <= |back| && j < LABEL_COUNT && PointersBelow(back)
    ensures 0 < |path| <= t + 1 && path[|path| - 1] == labels[j]
  {
    if t == 0 || back[t - 1][j] < 0 then [labels[j]] else Origin(labels, back, t - 1, back[t - 1][j]) + [labels[j]]
  }

  lemma {:induction false} OriginIsWalk(labels: seq<TokenLabel>, back: seq<seq<int>>, t: nat, j: nat)
    requires |labels| == LABEL_COUNT && t <= |back| && j < LABEL_COUNT && PointersBelow(back)
    ensures Walk(back, t, j).Some? <==> |Origin(labels, back, t, j)| == t + 1
    ensures Walk(back, t, j).Some? ==> PathOf(labels, Walk(back, t, j).value) == Origin(labels, back, t, j)
  {
    if t > 0 && back[t - 1][j] >= 0 {
      OriginIsWalk(labels, back, t - 1, back[t - 1][j]);
    }
  }

  // The chain ends in label l at token t and is worth the value.
  ghost predicate Attains(logits: seq<Row>, b: Biases, path: seq<TokenLabel>, t: nat, l: TokenLabel, value: real)
    requires WellShaped(logits) && t < |logits|
  {
    0 < |path| <= t + 1 && Chain(path) && path[|path| - 1] == l && Worth(logits, b, path, t + 1 - |path|) == value
  }

  lemma OriginStarts(
    labels: seq<TokenLabel>, logits: seq<Row>, b: Biases, table: seq<Row>, back: seq<seq<int>>, t: nat, j: nat)
    requires Forward(labels, logits, b, table, back) && t < |table| && j < LABEL_COUNT
    requires t > 0 ==> back[t - 1][j] < 0
    ensures Attains(logits, b, [labels[j]], t, labels[j], table[t][j])
  {
    assert IndexOf(labels[j]) == j;
    if t > 0 {
      ForwardCell(labels, logits, b, table, back, t, j);
    }
  }

  lemma OriginGrows(
    labels: seq<TokenLabel>, logits: seq<Row>, b: Biases, table: seq<Row>, back: seq<seq<int>>, t: nat, j: nat,
    front: seq<TokenLabel>)
    requires Forward(labels, logits, b, table, back) && 0 < t < |table| && j < LABEL_COUNT
    requires 0 <= back[t - 1][j] < LABEL_COUNT
    requires var p := back[t - 1][j]; Attains(logits, b, front, t - 1, labels[p], table[t - 1][p])
    ensures Attains(logits, b, front + [labels[j]], t, labels[j], table[t][j])
  {
    ForwardCell(labels, logits, b, table, back, t, j);
    ChainSnoc(front, labels[j]);
    WorthStep(logits, b, front, labels[j], t - |front|);
    assert IndexOf(labels[j]) == j;
  }

  lemma {:induction false} OriginWorth(
    labels: seq<TokenLabel>, logits: seq<Row>, b: Biases, table: seq<Row>, back: seq<seq<int>>, t: nat, j: nat)
    requires Forward(labels, logits, b, table, back) && t < |table| && j < LABEL_COUNT && PointersBelow(back)
    ensures Attains(logits, b, Origin(labels, back, t, j), t, labels[j], table[t][j])
  {
    if t == 0 || back[t - 1][j] < 0 {
      OriginStarts(labels, logits, b, table, back, t, j);
    } else {
      var p := back[t - 1][j];
      OriginWorth(labels, logits, b, table, back, t - 1, p);
      OriginGrows(labels, logits, b, table, back, t, j, Origin(labels, back, t - 1, p));
    }
  }

  lemma BeforeStep(a: seq<TokenLabel>, x: TokenLabel, c: seq<TokenLabel>, y: TokenLabel)
    requires IndexOf(x) < IndexOf(y) || (x == y && Before(a, c))
    ensures Before(a + [x], c + [y])
  {
    assert (a + [x])[..|a|] == a && (c + [y])[..|c|] == c;
  }

  lemma SplitLast(path: seq<TokenLabel>)
    requires path != []
    ensures path == path[..|path| - 1] + [path[|path| - 1]]
  {
  }

  lemma LoneFirst(l: TokenLabel, other: seq<TokenLabel>)
    requires other != [] && other[|other| - 1] == l
    ensures Before([l], other)
  {
    SplitLast(other);
    BeforeStep([], l, other[..|other| - 1], l);
    assert [] + [l] == [l];
  }

  lemma SameLast(front: seq<TokenLabel>, other: seq<TokenLabel>)
    requires other != [] && Before(front, other[..|other| - 1])
    ensures Before(front + [other[|other| - 1]], other)
  {
    SplitLast(other);
    BeforeStep(front, other[|other| - 1], other[..|other| - 1], other[|other| - 1]);
  }

  // Of the chains that give a table entry its value, the stored predecessors give the first.
  lemma {:induction false} OriginFirst(
    labels: seq<TokenLabel>, logits: seq<Row>, b: Biases, table: seq<Row>, back: seq<seq<int>>, t: nat, j: nat,
    other: seq<TokenLabel>)
    requires Forward(labels, logits, b, table, back) && t < |table| && j < LABEL_COUNT && PointersBelow(back)
    requires Attains(logits, b, other, t, labels[j], table[t][j])
    ensures Before(Origin(labels, back, t, j), other)
    decreases t, 0
  {
    if t == 0 || back[t - 1][j] < 0 {
      LoneFirst(labels[j], other);
    } else {
      var p := back[t - 1][j];
      var front := other[..|other| - 1];
      TiedFront(labels, logits, b, table, back, t, j, other);
      FirstAt(labels, logits, b, table, back, t - 1, p, front);
      SameLast(Origin(labels, back, t - 1, p), other);
    }
  }

  // The same for a chain with that label or a later one, worth as much as the entry of its own label.
  lemma {:induction false} FirstAt(
    labels: seq<TokenLabel>, logits: seq<Row>, b: Biases, table: seq<Row>, back: seq<seq<int>>, t: nat, j: nat,
    other: seq<TokenLabel>)
    requires Forward(labels, logits, b, table, back) && t < |table| && PointersBelow(back)
    requires other != [] && j <= IndexOf(other[|other| - 1])
    requires var l := other[|other| - 1]; Attains(logits, b, other, t, l, table[t][IndexOf(l)])
    ensures Before(Origin(labels, back, t, j), other)
    decreases t, 1
  {
    var l := other[|other| - 1];
    assert labels[IndexOf(l)] == l && IndexOf(labels[j]) == j;
    if j == IndexOf(l) {
      OriginFirst(labels, logits, b, table, back, t, j, other);
    } else {
      var path := Origin(labels, back, t, j);
      SplitLast(path);
      SplitLast(other);
      BeforeStep(path[..|path| - 1], labels[j], other[..|other| - 1], l);
    }
  }

  // A chain that comes out of the sentinel at a token is worth less than one with a stored predecessor.
  lemma LoneWorth(
    labels: seq<TokenLabel>, logits: seq<Row>, b: Biases, table: seq<Row>, back: seq<seq<int>>, t: nat, j: nat)
    requires Forward(labels, logits, b, table, back) && 0 < t < |table| && j < LABEL_COUNT && back[t - 1][j] >= 0
    ensures Worth(logits, b, [labels[j]], t) < table[t][j]
  {
    ForwardCell(labels, logits, b, table, back, t, j);
    assert IndexOf(labels[j]) == j;
  }

  // A tied chain goes on where the stored predecessor does, or later in the list.
  lemma TiedFront(
    labels: seq<TokenLabel>, logits: seq<Row>, b: Biases, table: seq<Row>, back: seq<seq<int>>, t: nat, j: nat,
    other: seq<TokenLabel>)
    requires Forward(labels, logits, b, table, back) && 0 < t < |table| && j < LABEL_COUNT && back[t - 1][j] >= 0
    requires Attains(logits, b, other, t, labels[j], table[t][j])
    ensures |other| > 1
    ensures var front := other[..|other| - 1];
            var l := front[|front| - 1];
            back[t - 1][j] <= IndexOf(l) && Attains(logits, b, front, t - 1, l, table[t - 1][IndexOf(l)])
  {
    LoneWorth(labels, logits, b, table, back, t, j);
    assert other != [labels[j]];
    SplitLast(other);
    TiedBefore(labels, logits, b, table, back, t, j, other[..|other| - 1]);
  }

  lemma ChainFront(front: seq<TokenLabel>, l: TokenLabel)
    requires front != [] && Chain(front + [l])
    ensures Chain(front) && IsValidTransition(front[|front| - 1], l)
  {
    var path := front + [l];
    assert path[|front| - 1] == front[|front| - 1] && path[|front|] == l;
    assert path[..|front|] == front;
  }

  lemma AttainsFront(logits: seq<Row>, b: Biases, front: seq<TokenLabel>, t: nat, l: TokenLabel, value: real)
    requires WellShaped(logits) && t < |logits| && front != [] && Attains(logits, b, front + [l], t, l, value)
    ensures |front| <= t && Chain(front) && IsValidTransition(front[|front| - 1], l)
    ensures Worth(logits, b, front, t - |front|) + TransitionBias(front[|front| - 1], l, b) + logits[t][IndexOf(l)]
         == value
  {
    ChainFront(front, l);
    WorthStep(logits, b, front, l, t - |front|);
  }

  // A predecessor worth at most its entry that gives the best value has that entry, and comes no earlier.
  lemma TiedCandidate(
    labels: seq<TokenLabel>, previous: Row, b: Biases, j: nat, pointer: int, best: real, i: nat, worth: real)
    requires |labels| == |previous| == LABEL_COUNT && j < LABEL_COUNT && i < LABEL_COUNT && pointer >= 0
    requires BestOf(labels, previous, b, j, LABEL_COUNT, pointer, best) && IsValidTransition(labels[i], labels[j])
    requires worth <= previous[i] && worth + TransitionBias(labels[i], labels[j], b) == best
    ensures worth == previous[i] && pointer <= i
  {
    assert Candidate(labels, previous, b, i, j) <= best;
  }

  lemma TiedBefore(
    labels: seq<TokenLabel>, logits: seq<Row>, b: Biases, table: seq<Row>, back: seq<seq<int>>, t: nat, j: nat,
    front: seq<TokenLabel>)
    requires Forward(labels, logits, b, table, back) && 0 < t < |table| && j < LABEL_COUNT && back[t - 1][j] >= 0
    requires front != [] && Attains(logits, b, front + [labels[j]], t, labels[j], table[t][j])
    ensures var l := front[|front| - 1];
            back[t - 1][j] <= IndexOf(l) && Attains(logits, b, front, t - 1, l, table[t - 1][IndexOf(l)])
  {
    var l := front[|front| - 1];
    assert IndexOf(labels[j]) == j && labels[IndexOf(l)] == l;
    AttainsFront(logits, b, front, t, labels[j], table[t][j]);
    WorthBelow(labels, logits, b, table, back, front, t - |front|);
    ForwardCell(labels, logits, b, table, back, t, j);
    TiedCandidate(labels, table[t - 1], b, j, back[t - 1][j], table[t][j] - logits[t][j], IndexOf(l),
      Worth(logits, b, front, t - |front|));
  }

  lemma {:induction false} BeforeBoth(labels: seq<TokenLabel>, a: seq<TokenLabel>, c: seq<TokenLabel>)
    requires Alphabet(labels) && Before(a, c) && Before(c, a)
    ensures a == c
  {
    if a != [] && c != [] {
      var x, y := a[|a| - 1], c[|c| - 1];
      assert labels[IndexOf(x)] == x && labels[IndexOf(y)] == y;
      BeforeBoth(labels, a[..|a| - 1], c[..|c| - 1]);
      assert a == a[..|a| - 1] + [x] && c == c[..|c| - 1] + [y];
    }
  }

  // The entry of this label is the best that may end a path, and the first such.
  ghost predicate FirstTop(labels: seq<TokenLabel>, scores: Row, last: nat) {
    && |labels| == |scores| == LABEL_COUNT && last < LABEL_COUNT && ValidEnd(labels[last])
    && (forall j: nat | j < LABEL_COUNT && ValidEnd(labels[j]) :: scores[j] <= scores[last])
    && (forall j: nat | j < last && ValidEnd(labels[j]) :: scores[j] < scores[last])
  }

  lemma TopCell(labels: seq<TokenLabel>, scores: Row, last: nat, l: TokenLabel)
    requires Alphabet(labels) && FirstTop(labels, scores, last) && ValidEnd(l)
    ensures scores[IndexOf(l)] <= scores[last] && (scores[IndexOf(l)] == scores[last] ==> last <= IndexOf(l))
    ensures labels[IndexOf(l)] == l && IndexOf(labels[last]) == last
  {
    assert labels[IndexOf(l)] == l;
  }

  lemma EndBelow(
    labels: seq<TokenLabel>, logits: seq<Row>, b: Biases, table: seq<Row>, back: seq<seq<int>>, other: seq<TokenLabel>)
    requires Forward(labels, logits, b, table, back) && |table| == |logits| && Contender(logits, other)
    ensures Worth(logits, b, other, |logits| - |other|) <= table[|back|][IndexOf(other[|other| - 1])]
  {
    WorthBelow(labels, logits, b, table, back, other, |logits| - |other|);
  }

  lemma EndTied(
    labels: seq<TokenLabel>, logits: seq<Row>, b: Biases, table: seq<Row>, back: seq<seq<int>>, last: nat,
    other: seq<TokenLabel>)
    requires Forward(labels, logits, b, table, back) && |table| == |logits| && PointersBelow(back)
    requires Contender(logits, other) && last <= IndexOf(other[|other| - 1])
    requires Worth(logits, b, other, |logits| - |other|) == table[|back|][IndexOf(other[|other| - 1])]
    ensures Before(Origin(labels, back, |back|, last), other)
  {
    var l := other[|other| - 1];
    assert Attains(logits, b, other, |back|, l, table[|back|][IndexOf(l)]);
    FirstAt(labels, logits, b, table, back, |back|, last, other);
  }

  // No contender is worth more than the walk back from the best end, and those worth as much come later.
  lemma OriginTops(
    labels: seq<TokenLabel>, logits: seq<Row>, b: Biases, table: seq<Row>, back: seq<seq<int>>, last: nat,
    other: seq<TokenLabel>)
    requires Forward(labels, logits, b, table, back) && |table| == |logits| && PointersBelow(back)
    requires FirstTop(labels, table[|back|], last) && Contender(logits, other)
    ensures var worth := Worth(logits, b, other, |logits| - |other|);
            && worth <= table[|back|][last]
            && (worth == table[|back|][last] ==> Before(Origin(labels, back, |back|, last), other))
  {
    TopCell(labels, table[|back|], last, other[|other| - 1]);
    EndBelow(labels, logits, b, table, back, other);
    if Worth(logits, b, other, |logits| - |other|) == table[|back|][last] {
      EndTied(labels, logits, b, table, back, last, other);
    }
  }

  lemma BeatsOne(logits: seq<Row>, b: Biases, path: seq<TokenLabel>, other: seq<TokenLabel>)
    requires WellShaped(logits) && Wins(logits, b, path) && Contender(logits, other)
    ensures Contender(logits, path) && Worth(logits, b, path, 0) == Score(logits, b, path)
    ensures var worth := Worth(logits, b, other, |logits| - |other|);
            worth <= Worth(logits, b, path, 0) && (worth == Worth(logits, b, path, 0) ==> Before(path, other))
  {
    assert Beats(logits, b, path, other);
  }

  // The winning path, if there is one, is what the walk back from the best end gives.
  lemma WinnerIsOrigin(
    labels: seq<TokenLabel>, logits: seq<Row>, b: Biases, table: seq<Row>, back: seq<seq<int>>, last: nat,
    path: seq<TokenLabel>)
    requires Forward(labels, logits, b, table, back) && |table| == |logits| && PointersBelow(back)
    requires FirstTop(labels, table[|back|], last) && Wins(logits, b, path)
    ensures path == Origin(labels, back, |back|, last)
  {
    var origin, top := Origin(labels, back, |back|, last), table[|back|][last];
    assert Contender(logits, origin) && Worth(logits, b, origin, |logits| - |origin|) == top by {
      OriginWorth(labels, logits, b, table, back, |back|, last);
    }
    WinnerAbove(logits, b, path, origin, top);
    OriginAbove(labels, logits, b, table, back, last, path);
    BeforeBoth(labels, path, origin);
  }

  lemma WinnerAbove(logits: seq<Row>, b: Biases, path: seq<TokenLabel>, other: seq<TokenLabel>, top: real)
    requires WellShaped(logits) && Wins(logits, b, path) && Contender(logits, other)
    requires Worth(logits, b, other, |logits| - |other|) == top
    ensures |path| == |logits| && Contender(logits, path)
    ensures top <= Worth(logits, b, path, 0) && (top == Worth(logits, b, path, 0) ==> Before(path, other))
  {
    BeatsOne(logits, b, path, other);
  }

  lemma OriginAbove(
    labels: seq<TokenLabel>, logits: seq<Row>, b: Biases, table: seq<Row>, back: seq<seq<int>>, last: nat,
    path: seq<TokenLabel>)
    requires Forward(labels, logits, b, table, back) && |table| == |logits| && PointersBelow(back)
    requires FirstTop(labels, table[|back|], last) && Contender(logits, path) && |path| == |logits|
    ensures Worth(logits, b, path, 0) <= table[|back|][last]
    ensures Worth(logits, b, path, 0) == table[|back|][last] ==> Before(Origin(labels, back, |back|, last), path)
  {
    OriginTops(labels, logits, b, table, back, last, path);
  }

  lemma OriginWins(
    labels: seq<TokenLabel>, logits: seq<Row>, b: Biases, table: seq<Row>, back: seq<seq<int>>, last: nat)
    requires Forward(labels, logits, b, table, back) && |table| == |logits| && PointersBelow(back)
    requires FirstTop(labels, table[|back|], last) && table[|back|][last] > NEGATIVE_INFINITY / 2.0
    requires PathFor(logits, Origin(labels, back, |back|, last))
    ensures Wins(logits, b, Origin(labels, back, |back|, last))
  {
    var origin := Origin(labels, back, |back|, last);
    OriginWorth(labels, logits, b, table, back, |back|, last);
    assert Score(logits, b, origin) == table[|back|][last];
    forall other | Contender(logits, other)
      ensures Beats(logits, b, origin, other)
    {
      OriginTops(labels, logits, b, table, back, last, other);
    }
  }

  // Above this level a score cannot come from the sentinel.
  ghost predicate Alive(k: real, t: nat, score: real) {
    score > NEGATIVE_INFINITY + Rise(k, t)
  }

  /** A score the sentinel cannot have produced has a stored predecessor with the same property, or a legal start. */
  lemma AliveStep(
    labels: seq<TokenLabel>, logits: seq<Row>, b: Biases, table: seq<Row>, back: seq<seq<int>>, k: real, t: nat, j: nat)
    requires Forward(labels, logits, b, table, back) && BoundedAbove(logits, b, k)
    requires t < |table| && j < LABEL_COUNT && Alive(k, t, table[t][j])
    ensures t == 0 ==> ValidStart(labels[j])
    ensures t > 0 ==> 0 <= back[t - 1][j] < LABEL_COUNT && Alive(k, t - 1, table[t - 1][back[t - 1][j]])
  {
    if t > 0 {
      ForwardCell(labels, logits, b, table, back, t, j);
      RiseStep(k, t);
      assert logits[t][j] <= k;
    }
  }

  /** So its walk reaches a legal start. */
  lemma {:induction false} AliveWalk(
    labels: seq<TokenLabel>, logits: seq<Row>, b: Biases, table: seq<Row>, back: seq<seq<int>>, k: real, t: nat, j: nat)
    requires Forward(labels, logits, b, table, back) && BoundedAbove(logits, b, k)
    requires PointersBelow(back)
    requires t < |table| && j < LABEL_COUNT && Alive(k, t, table[t][j])
    ensures !FromSentinel(labels, back, t, j)
  {
    AliveStep(labels, logits, b, table, back, k, t, j);
    if t == 0 {
      LegalStart(labels, back, j);
    } else {
      AliveWalk(labels, logits, b, table, back, k, t - 1, back[t - 1][j]);
      LegalStep(labels, back, t, j);
    }
  }

  lemma LegalStart(labels: seq<TokenLabel>, back: seq<seq<int>>, j: nat)
    requires |labels| == LABEL_COUNT && j < LABEL_COUNT && PointersBelow(back) && ValidStart(labels[j])
    ensures !FromSentinel(labels, back, 0, j)
  {
    assert Walk(back, 0, j) == Some([j]);
  }

  lemma LegalStep(labels: seq<TokenLabel>, back: seq<seq<int>>, t: nat, j: nat)
    requires |labels| == LABEL_COUNT && 0 < t <= |back| && j < LABEL_COUNT && PointersBelow(back)
    requires back[t - 1][j] >= 0 && !FromSentinel(labels, back, t - 1, back[t - 1][j])
    ensures !FromSentinel(labels, back, t, j)
  {
    if FromSentinel(labels, back, t, j) {
      FromSentinelBefore(labels, back, t, j);
    }
  }

  lemma RiseStep(k: real, t: nat)
    requires 0.0 <= k && 0 < t
    ensures Rise(k, t) == Rise(k, t - 1) + 2.0 * k
    ensures Rise(k, t - 1) >= 0.0
  {
    var n := (t - 1) as real;
    assert t as real == n + 1.0;
    assert 2.0 * k * (n + 1.0) == 2.0 * k * n + 2.0 * k;
    assert k * n >= 0.0;
  }

  /** The all-background path is legal, and bounded inputs keep it above the cut-off. */
  lemma BackgroundPath(logits: seq<Row>, b: Biases, k: real)
    requires WellShaped(logits) && logits != [] && 0.0 <= k && BoundedBelow(logits, b, k)
    ensures SomePathAboveCutoff(logits, b)
  {
    var path := seq(|logits|, _ => O);
    BackgroundScore(logits, b, k, |logits|);
    assert PathFor(logits, path);
  }

  lemma {:induction false} BackgroundScore(logits: seq<Row>, b: Biases, k: real, n: nat)
    requires WellShaped(logits) && 0 < n <= |logits| && 0.0 <= k && BoundedBelow(logits, b, k)
    ensures Score(logits, b, seq(n, _ => O)) >= -Rise(k, n)
  {
    RiseStep(k, n);
    var path: seq<TokenLabel> := seq(n, _ => O);
    if n > 1 {
      BackgroundScore(logits, b, k, n - 1);
      assert path[..n - 1] == seq(n - 1, _ => O);
    }
  }

  // ----- The decoder -----

  method ValidateLogits(logits: seq<Row>) returns (ok: bool)
    ensures ok <==> WellShaped(logits)
  {
    for t := 0 to |logits|
      invariant forall u | 0 <= u < t :: |logits[u]| == LABEL_COUNT
    {
      if |logits[t]| != LABEL_COUNT {
        return false;
      }
    }
    return true;
  }

  method BestPredecessor(labels: seq<TokenLabel>, previous: Row, b: Biases, j: nat) returns (best: real, bestIndex: int)
    requires |labels| == |previous| == LABEL_COUNT && j < LABEL_COUNT
    ensures BestOf(labels, previous, b, j, LABEL_COUNT, bestIndex, best)
  {
    best := NEGATIVE_INFINITY;
    bestIndex := -1;
    for i := 0 to LABEL_COUNT
      invariant BestOf(labels, previous, b, j, i, bestIndex, best)
    {
      if IsValidTransition(labels[i], labels[j]) {
        var candidate := Candidate(labels, previous, b, i, j);
        if candidate > best {
          best := candidate;
          bestIndex := i;
        }
      }
    }
  }

  method StartScores(labels: seq<TokenLabel>, row: Row) returns (scores: Row)
    requires |labels| == |row| == LABEL_COUNT
    ensures StartRow(labels, row, scores)
  {
    scores := [];
    for j := 0 to LABEL_COUNT
      invariant |scores| == j
      invariant forall i: nat | i < j :: scores[i] == if ValidStart(labels[i]) then row[i] else NEGATIVE_INFINITY
    {
      scores := scores + [if ValidStart(labels[j]) then row[j] else NEGATIVE_INFINITY];
    }
  }

  method NextScores(labels: seq<TokenLabel>, row: Row, b: Biases, previous: Row)
    returns (scores: Row, pointers: seq<int>)
    requires |labels| == |row| == |previous| == LABEL_COUNT
    ensures NextRow(labels, row, b, previous, pointers, scores)
  {
    scores, pointers := [], [];
    for j := 0 to LABEL_COUNT
      invariant |scores| == |pointers| == j
      invariant forall i: nat | i < j :: BestOf(labels, previous, b, i, LABEL_COUNT, pointers[i], scores[i] - row[i])
    {
      var best, bestIndex := BestPredecessor(labels, previous, b, j);
      pointers := pointers + [bestIndex];
      scores := scores + [best + row[j]];
      assert scores[j] - row[j] == best;
    }
  }

  // The first label that may end a path, among the best of those that beat the sentinel.
  method BestEnd(labels: seq<TokenLabel>, scores: Row) returns (best: real, last: int)
    requires |labels| == |scores| == LABEL_COUNT
    ensures -1 <= last < LABEL_COUNT
    ensures last < 0 ==> best == NEGATIVE_INFINITY
    ensures last >= 0 ==> ValidEnd(labels[last]) && best == scores[last] > NEGATIVE_INFINITY
    ensures forall j: nat | j < LABEL_COUNT && ValidEnd(labels[j]) :: scores[j] <= best
    ensures forall j: nat | j < last && ValidEnd(labels[j]) :: scores[j] < best
  {
    best, last := NEGATIVE_INFINITY, -1;
    for index := 0 to LABEL_COUNT
      invariant -1 <= last < index
      invariant last < 0 ==> best == NEGATIVE_INFINITY
      invariant last >= 0 ==> ValidEnd(labels[last]) && best == scores[last] > NEGATIVE_INFINITY
      invariant forall j: nat | j < index && ValidEnd(labels[j]) :: scores[j] <= best
      invariant forall j: nat | j < last && ValidEnd(labels[j]) :: scores[j] < best
    {
      if ValidEnd(labels[index]) && scores[index] > best {
        best := scores[index];
        last := index;
      }
    }
  }

  method ForwardPass(labels: seq<TokenLabel>, logits: seq<Row>, b: Biases)
    returns (scores: Row, back: seq<seq<int>>, ghost table: seq<Row>)
    requires Alphabet(labels) && WellShaped(logits) && logits != []
    ensures Forward(labels, logits, b, table, back) && |table| == |logits| && scores == table[|table| - 1]
  {
    scores := StartScores(labels, logits[0]);
    back := [];
    table := [scores];
    for token := 1 to |logits|
      invariant |table| == token && table[token - 1] == scores
      invariant Forward(labels, logits, b, table, back)
    {
      var next, pointers := NextScores(labels, logits[token], b, scores);
      scores := next;
      back := back + [pointers];
      table := table + [scores];
    }
  }

  method Backtrace(labels: seq<TokenLabel>, back: seq<seq<int>>, end: nat) returns (path: Option<seq<TokenLabel>>)
    requires |labels| == LABEL_COUNT && end < LABEL_COUNT
    requires PointersBelow(back)
    ensures path.Some? <==> Walk(back, |back|, end).Some?
    ensures path.Some? ==> path.value == PathOf(labels, Walk(back, |back|, end).value)
  {
    var last := end;
    var suffix: seq<TokenLabel> := [labels[last]];
    ghost var ids: seq<nat> := [last];
    var token: nat := |back|;
    while token > 0
      invariant token <= |back| && 0 <= last < LABEL_COUNT && ids != [] && ids[0] == last
      invariant forall u | 0 <= u < |ids| :: ids[u] < LABEL_COUNT
      invariant suffix == PathOf(labels, ids)
      invariant Walk(back, |back|, end).Some? <==> Walk(back, token, last).Some?
      invariant Walk(back, token, last).Some? ==>
                  Walk(back, |back|, end).value == Walk(back, token, last).value + ids[1..]
    {
      var previous := back[token - 1][last];
      if previous < 0 {
        return None;
      }
      token := token - 1;
      last := previous;
      ids := [last] + ids;
      suffix := [labels[last]] + suffix;
    }
    assert [last] + ids[1..] == ids;
    return Some(suffix);
  }

  /**
    Decoding returns the best legal labelling.

    Whatever the logits, a returned path obeys the transition and end rules, and if it also starts
    legally no legal path scores higher. When no logit or bias exceeds k, decoding succeeds exactly
    when some legal path scores above half the sentinel, and then the result is optimal.
   */
  method DecodeBioesViterbi(logits: seq<Row>, b: Biases, ghost k: real)
    returns (r: Result<seq<TokenLabel>, DecodeError>)
    ensures r == Failure(WrongLogitCount) <==> !WellShaped(logits)
    ensures logits == [] ==> r == Success([])
    ensures r.Success? ==> |r.value| == |logits| && Chain(r.value)
    ensures r.Success? && logits != [] ==> ValidEnd(r.value[|logits| - 1])
    ensures r.Success? && logits != [] && ValidStart(r.value[0]) ==> Optimal(logits, b, r.value)
    ensures WellShaped(logits) && logits != [] && BoundedAbove(logits, b, k) ==>
              && (r.Success? <==> SomePathAboveCutoff(logits, b))
              && (r.Success? ==> Optimal(logits, b, r.value))
              && (r.Failure? ==> r.error == NoValidPath)
    ensures WellShaped(logits) && BoundedAbove(logits, b, k) && BoundedBelow(logits, b, k) ==> r.Success?
    ensures WellShaped(logits) && logits != [] && LegalWins(logits, b) ==> r.Success? && Optimal(logits, b, r.value)
    ensures WellShaped(logits) && logits != [] && SentinelWins(logits, b) ==> !(r.Success? && ValidPath(r.value))
    ensures WellShaped(logits) && logits != [] ==>
              forall path :: Wins(logits, b, path) <==> r == Success(path) && ValidPath(path)
  {
    var ok := ValidateLogits(logits);
    if !ok {
      return Failure(WrongLogitCount);
    }
    if |logits| == 0 {
      return Success([]);
    }
    TableIsAlphabet();
    r := DecodeOver(TOKEN_LABELS, logits, b, k);
    if BoundedAbove(logits, b, k) && BoundedBelow(logits, b, k) {
      BackgroundPath(logits, b, k);
    }
  }

  lemma TableIsAlphabet()
    ensures Alphabet(TOKEN_LABELS)
  {
    TableOrder();
    forall i: nat | i < LABEL_COUNT
      ensures IndexOf(TOKEN_LABELS[i]) == i
    {
      IndexLabelInverse(i);
    }
    forall l: TokenLabel
      ensures TOKEN_LABELS[IndexOf(l)] == l
    {
      LabelIndexInverse(l);
    }
  }

  method DecodeOver(labels: seq<TokenLabel>, logits: seq<Row>, b: Biases, ghost k: real)
    returns (r: Result<seq<TokenLabel>, DecodeError>)
    requires Alphabet(labels) && WellShaped(logits) && logits != []
    ensures r.Success? ==> |r.value| == |logits| && Chain(r.value) && ValidEnd(r.value[|logits| - 1])
    ensures r.Success? && ValidStart(r.value[0]) ==> Optimal(logits, b, r.value)
    ensures r != Failure(WrongLogitCount)
    ensures BoundedAbove(logits, b, k) ==>
              && (r.Success? <==> SomePathAboveCutoff(logits, b))
              && (r.Success? ==> Optimal(logits, b, r.value))
              && (r.Failure? ==> r.error == NoValidPath)
    ensures LegalWins(logits, b) ==> r.Success? && Optimal(logits, b, r.value)
    ensures SentinelWins(logits, b) ==> !(r.Success? && ValidPath(r.value))
    ensures forall path :: Wins(logits, b, path) <==> r == Success(path) && ValidPath(path)
  {
    var scores, back, table := ForwardPass(labels, logits, b);
    var best, last := BestEnd(labels, scores);
    EndDominates(labels, logits, b, table, back, best);
    if last < 0 || best <= NEGATIVE_INFINITY / 2.0 {
      NothingAbove(logits, b, best);
      return Failure(NoValidPath);
    }
    PointersInRange(labels, logits, b, table, back);
    WalkIsLegal(labels, logits, b, k, table, back, last);
    WalkIsBest(labels, logits, b, table, back, last);
    WalkWins(labels, logits, b, table, back, last);
    var path := Backtrace(labels, back, last);
    if path.None? {
      return Failure(BacktraceFailed);
    }
    return Success(path.value);
  }

  // With scores bounded above, and where a legal path wins, the walk back from the best end reaches a legal start.
  lemma WalkIsLegal(
    labels: seq<TokenLabel>, logits: seq<Row>, b: Biases, k: real, table: seq<Row>, back: seq<seq<int>>, last: nat)
    requires Forward(labels, logits, b, table, back) && |table| == |logits| && PointersBelow(back)
    requires last < LABEL_COUNT && ValidEnd(labels[last])
    requires Tops(logits, b, table[|back|][last]) && table[|back|][last] > NEGATIVE_INFINITY / 2.0
    ensures BoundedAbove(logits, b, k) || LegalWins(logits, b) ==> !FromSentinel(labels, back, |back|, last)
  {
    if BoundedAbove(logits, b, k) {
      RiseStep(k, |logits|);
      AliveWalk(labels, logits, b, table, back, k, |back|, last);
    } else if LegalWins(logits, b) {
      LegalWalk(labels, logits, b, table, back, last);
    }
  }

  // A walk that reaches a legal start gives a best path.
  lemma WalkIsBest(
      labels: seq<TokenLabel>, logits: seq<Row>, b: Biases, table: seq<Row>, back: seq<seq<int>>, last: nat)
    requires Forward(labels, logits, b, table, back) && |table| == |logits| && PointersBelow(back)
    requires last < LABEL_COUNT && ValidEnd(labels[last])
    requires Tops(logits, b, table[|back|][last]) && table[|back|][last] > NEGATIVE_INFINITY / 2.0
    ensures Walk(back, |back|, last).Some? ==>
              var path := PathOf(labels, Walk(back, |back|, last).value);
              && Chain(path) && ValidEnd(path[|path| - 1])
              && (ValidStart(path[0]) ==>
                    Optimal(logits, b, path) && SomePathAboveCutoff(logits, b) && !SentinelWins(logits, b))
  {
    if Walk(back, |back|, last).Some? {
      WalkScore(labels, logits, b, table, back, |back|, last);
      var path := PathOf(labels, Walk(back, |back|, last).value);
      if ValidStart(path[0]) {
        BestPath(logits, b, path, table[|back|][last]);
      }
    }
  }

  // The walk back is this path, and it is legal.
  ghost predicate WalksAs(labels: seq<TokenLabel>, back: seq<seq<int>>, last: nat, path: seq<TokenLabel>)
    requires |labels| == LABEL_COUNT && last < LABEL_COUNT && PointersBelow(back)
  {
    var ids := Walk(back, |back|, last);
    ids.Some? && path == PathOf(labels, ids.value) && ValidPath(path)
  }

  lemma WalkWins(
      labels: seq<TokenLabel>, logits: seq<Row>, b: Biases, table: seq<Row>, back: seq<seq<int>>, last: nat)
    requires Forward(labels, logits, b, table, back) && |table| == |logits| && PointersBelow(back)
    requires FirstTop(labels, table[|back|], last) && table[|back|][last] > NEGATIVE_INFINITY / 2.0
    ensures forall path :: Wins(logits, b, path) <==> WalksAs(labels, back, last, path)
  {
    OriginIsWalk(labels, back, |back|, last);
    forall path
      ensures Wins(logits, b, path) <==> WalksAs(labels, back, last, path)
    {
      if Wins(logits, b, path) {
        WinnerIsOrigin(labels, logits, b, table, back, last, path);
      }
      if WalksAs(labels, back, last, path) {
        OriginWins(labels, logits, b, table, back, last);
      }
    }
  }

  // Nothing that may end a path, legal or out of the sentinel, is worth more.
  ghost predicate Tops(logits: seq<Row>, b: Biases, best: real)
    requires WellShaped(logits)
  {
    && (forall path | PathFor(logits, path) :: Score(logits, b, path) <= best)
    && (forall path | SentinelPath(logits, path) :: SentinelScore(logits, b, path, |logits| - |path|) <= best)
  }

  lemma NothingAbove(logits: seq<Row>, b: Biases, best: real)
    requires WellShaped(logits) && Tops(logits, b, best) && best <= NEGATIVE_INFINITY / 2.0
    ensures !SomePathAboveCutoff(logits, b) && !LegalWins(logits, b) && forall path :: !Wins(logits, b, path)
  {
  }

  lemma BestPath(logits: seq<Row>, b: Biases, path: seq<TokenLabel>, best: real)
    requires WellShaped(logits) && Tops(logits, b, best) && best > NEGATIVE_INFINITY / 2.0
    requires PathFor(logits, path) && Score(logits, b, path) == best
    ensures Optimal(logits, b, path) && SomePathAboveCutoff(logits, b) && !SentinelWins(logits, b)
  {
  }

  // The best entry of a label that may end bounds the legal paths and the chains out of the sentinel.
  lemma EndDominates(
    labels: seq<TokenLabel>, logits: seq<Row>, b: Biases, table: seq<Row>, back: seq<seq<int>>, best: real)
    requires Forward(labels, logits, b, table, back) && |table| == |logits|
    requires forall j: nat | j < LABEL_COUNT && ValidEnd(labels[j]) :: table[|logits| - 1][j] <= best
    ensures Tops(logits, b, best)
  {
    forall path | PathFor(logits, path)
      ensures Score(logits, b, path) <= best
    {
      TableDominates(labels, logits, b, table, back, path);
      var j := IndexOf(path[|path| - 1]);
      assert labels[j] == path[|path| - 1];
    }
    forall path | SentinelPath(logits, path)
      ensures SentinelScore(logits, b, path, |logits| - |path|) <= best
    {
      SentinelDominated(labels, logits, b, table, back, path, |logits| - |path|);
      var j := IndexOf(path[|path| - 1]);
      assert labels[j] == path[|path| - 1];
    }
  }

  // Where a legal path wins, the best entry does not come out of the sentinel.
  lemma LegalWalk(
    labels: seq<TokenLabel>, logits: seq<Row>, b: Biases, table: seq<Row>, back: seq<seq<int>>, last: nat)
    requires Forward(labels, logits, b, table, back) && |table| == |logits| && PointersBelow(back)
    requires last < LABEL_COUNT && ValidEnd(labels[last]) && LegalWins(logits, b)
    requires Tops(logits, b, table[|logits| - 1][last])
    ensures !FromSentinel(labels, back, |back|, last)
  {
    if FromSentinel(labels, back, |back|, last) {
      var path := SentinelOrigin(labels, logits, b, table, back, |back|, last);
      SentinelLoses(logits, b, path, labels[last], table[|back|][last]);
    }
  }

  lemma SentinelLoses(logits: seq<Row>, b: Biases, path: seq<TokenLabel>, l: TokenLabel, value: real)
    requires WellShaped(logits) && logits != [] && LegalWins(logits, b)
    requires Explains(logits, b, path, |logits| - 1, l, value) && ValidEnd(l)
    ensures !Tops(logits, b, value)
  {
    assert SentinelPath(logits, path);
    var legal :|
      && PathFor(logits, legal)
      && forall other | SentinelPath(logits, other) ::
           SentinelScore(logits, b, other, |logits| - |other|) < Score(logits, b, legal);
    assert Score(logits, b, legal) > value;
  }

  const ZERO_VITERBI_BIASES := Biases(0.0, 0.0, 0.0, 0.0, 0.0, 0.0)

  /**
    Finite logits alone do not suffice: a single token whose every logit equals the sentinel has a
    legal labelling, yet every such path sits below the cut-off and the decoder refuses.
   */
  lemma SentinelLogitsAreRefused()
    ensures var logits: seq<Row> := [seq(LABEL_COUNT, _ => NEGATIVE_INFINITY)];
            && WellShaped(logits) && PathFor(logits, [O])
            && BoundedAbove(logits, ZERO_VITERBI_BIASES, 0.0)
            && !SomePathAboveCutoff(logits, ZERO_VITERBI_BIASES)
  {
    var logits: seq<Row> := [seq(LABEL_COUNT, _ => NEGATIVE_INFINITY)];
    forall path | PathFor(logits, path)
      ensures Score(logits, ZERO_VITERBI_BIASES, path) == NEGATIVE_INFINITY
    {
      assert logits[0][IndexOf(path[0])] == NEGATIVE_INFINITY;
    }
  }

  /**
    Nor do they without a bound above: where the first token is far below the sentinel and the second
    far above its opposite, the sentinel beats both legal and illegal starts.
   */
  lemma SentinelCanWin()
    ensures var logits: seq<Row> :=
              [seq(LABEL_COUNT, _ => 2.0 * NEGATIVE_INFINITY), seq(LABEL_COUNT, _ => -2.0 * NEGATIVE_INFINITY)];
            WellShaped(logits) && PathFor(logits, [O, O]) && SentinelWins(logits, ZERO_VITERBI_BIASES)
  {
    var logits: seq<Row> :=
      [seq(LABEL_COUNT, _ => 2.0 * NEGATIVE_INFINITY), seq(LABEL_COUNT, _ => -2.0 * NEGATIVE_INFINITY)];
    assert logits[1][IndexOf(O)] == -2.0 * NEGATIVE_INFINITY;
    assert SentinelScore(logits, ZERO_VITERBI_BIASES, [O], 1) == -NEGATIVE_INFINITY;
    assert SentinelPath(logits, [O]);
    forall other | PathFor(logits, other)
      ensures Score(logits, ZERO_VITERBI_BIASES, other) == 0.0
    {
      assert other[..1] == [other[0]];
      assert logits[0][IndexOf(other[0])] == 2.0 * NEGATIVE_INFINITY;
      assert Score(logits, ZERO_VITERBI_BIASES, [other[0]]) == 2.0 * NEGATIVE_INFINITY;
      assert logits[1][IndexOf(other[1])] == -2.0 * NEGATIVE_INFINITY;
    }
  }

  // A single token with equal logits is decoded exactly if they are above -5e29.
  lemma CutOffIs(x: real)
    ensures var logits: seq<Row> := [seq(LABEL_COUNT, _ => x)];
            WellShaped(logits)
            && (SomePathAboveCutoff(logits, ZERO_VITERBI_BIASES) <==> x > -500_000_000_000_000_000_000_000_000_000.0)
  {
    var logits: seq<Row> := [seq(LABEL_COUNT, _ => x)];
    forall path | PathFor(logits, path)
      ensures Score(logits, ZERO_VITERBI_BIASES, path) == x
    {
      assert logits[0][IndexOf(path[0])] == x;
    }
    assert PathFor(logits, [O]);
  }
}
