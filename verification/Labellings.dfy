/** Which labellings are legal: exactly those that are spelled by whole pieces. */
module Labellings {
  import opened Wrappers
  import opened Labels
  import opened Decoder
  import opened Spans

  // Background, a single token, or a stretch of tokens with so many between its first and its last.
  datatype Piece = Background | Single(category: Category) | Stretch(category: Category, inner: nat)

  function Inside(category: Category, count: nat): (labels: seq<TokenLabel>)
    ensures |labels| == count && forall k | 0 <= k < count :: labels[k] == Tagged(I, category)
  {
    seq(count, _ => Tagged(I, category))
  }

  // O, S-c, or B-c I-c* E-c.
  function Spelled(piece: Piece): seq<TokenLabel> {
    match piece
    case Background => [O]
    case Single(c) => [Tagged(S, c)]
    case Stretch(c, inner) => [Tagged(B, c)] + Inside(c, inner) + [Tagged(E, c)]
  }

  function SpelledAll(pieces: seq<Piece>): seq<TokenLabel> {
    if pieces == [] then [] else Spelled(pieces[0]) + SpelledAll(pieces[1..])
  }

  lemma PieceIsLegal(piece: Piece)
    ensures ValidPath(Spelled(piece))
  {
    var path := Spelled(piece);
    if piece.Stretch? {
      forall i | 0 < i < |path|
        ensures IsValidTransition(path[i - 1], path[i])
      {
        assert path[i] == (if i == |path| - 1 then Tagged(E, piece.category) else Tagged(I, piece.category));
        assert path[i - 1] == (if i == 1 then Tagged(B, piece.category) else Tagged(I, piece.category));
      }
    }
  }

  lemma LegalJoin(a: seq<TokenLabel>, b: seq<TokenLabel>)
    requires ValidPath(a) && ValidPath(b)
    ensures ValidPath(a + b)
  {
    var path := a + b;
    forall i | 0 < i < |path|
      ensures IsValidTransition(path[i - 1], path[i])
    {
      if i < |a| {
        assert IsValidTransition(a[i - 1], a[i]);
      } else if i > |a| {
        assert IsValidTransition(b[i - |a| - 1], b[i - |a|]);
      }
    }
  }

  lemma {:induction false} SpelledIsLegal(pieces: seq<Piece>)
    requires pieces != []
    ensures ValidPath(SpelledAll(pieces))
  {
    PieceIsLegal(pieces[0]);
    if |pieces| == 1 {
      assert pieces[1..] == [] && Spelled(pieces[0]) + [] == Spelled(pieces[0]);
    } else {
      SpelledIsLegal(pieces[1..]);
      LegalJoin(Spelled(pieces[0]), SpelledAll(pieces[1..]));
    }
  }

  // After a B come I of its category until its E.
  lemma {:induction false} StretchFrom(path: seq<TokenLabel>, k: nat) returns (last: nat)
    requires ValidPath(path) && path[0].Tagged? && path[0].tag.B? && 0 < k <= |path|
    requires forall t | 0 < t < k :: path[t] == Tagged(I, path[0].category)
    ensures 0 < last < |path| && path[last] == Tagged(E, path[0].category)
    ensures forall t | 0 < t < last :: path[t] == Tagged(I, path[0].category)
    decreases |path| - k
  {
    assert k < |path| ==> IsValidTransition(path[k - 1], path[k]);
    if path[k].tag.E? {
      last := k;
    } else {
      last := StretchFrom(path, k + 1);
    }
  }

  lemma LegalRest(path: seq<TokenLabel>, n: nat)
    requires ValidPath(path) && 0 < n < |path| && ValidEnd(path[n - 1])
    ensures ValidPath(path[n..])
  {
    assert IsValidTransition(path[n - 1], path[n]);
    forall i | 0 < i < |path[n..]|
      ensures IsValidTransition(path[n..][i - 1], path[n..][i])
    {
      assert IsValidTransition(path[n + i - 1], path[n + i]);
    }
  }

  lemma FirstPiece(path: seq<TokenLabel>) returns (piece: Piece)
    requires ValidPath(path)
    ensures var n := |Spelled(piece)|; n <= |path| && path[..n] == Spelled(piece) && ValidEnd(path[n - 1])
  {
    if path[0].O? {
      piece := Background;
    } else if path[0].tag.S? {
      piece := Single(path[0].category);
    } else {
      var last := StretchFrom(path, 1);
      piece := Stretch(path[0].category, last - 1);
    }
  }

  lemma {:induction false} LegalIsSpelled(path: seq<TokenLabel>) returns (pieces: seq<Piece>)
    requires ValidPath(path)
    ensures pieces != [] && SpelledAll(pieces) == path
    decreases |path|
  {
    var piece := FirstPiece(path);
    var n := |Spelled(piece)|;
    assert path == path[..n] + path[n..];
    if n == |path| {
      pieces := [piece];
      assert pieces[1..] == [] && Spelled(piece) + [] == Spelled(piece);
    } else {
      LegalRest(path, n);
      var rest := LegalIsSpelled(path[n..]);
      pieces := [piece] + rest;
    }
  }

  // A non-empty labelling is legal exactly if it is a row of whole pieces.
  lemma LegalExactly(path: seq<TokenLabel>)
    requires path != []
    ensures ValidPath(path) <==> exists pieces :: SpelledAll(pieces) == path
  {
    if ValidPath(path) {
      var _ := LegalIsSpelled(path);
    }
    if pieces :| SpelledAll(pieces) == path {
      SpelledIsLegal(pieces);
    }
  }

  // ----- Segments of a legal labelling -----

  // Between the B and the E of a segment there are only I.
  lemma InnerAreInside(labels: seq<TokenLabel>, first: nat, last: nat, t: nat)
    requires ValidPath(labels) && Segment(labels, first, last) && first < t < last
    ensures labels[t] == Tagged(I, labels[first].category)
  {
    if first + 1 < t {
      InnerAreInside(labels, first, last, t - 1);
    }
    assert IsValidTransition(labels[t - 1], labels[t]);
  }

  // A token is in at most one segment, so the segments are those that the pieces spell.
  lemma SegmentsApart(labels: seq<TokenLabel>, first: nat, last: nat, other: nat, end: nat, t: nat)
    requires ValidPath(labels) && Segment(labels, first, last) && Segment(labels, other, end)
    requires first <= t <= last && other <= t <= end
    ensures first == other && last == end
  {
    if first < other < last {
      InnerAreInside(labels, first, last, other);
    } else if other < first < end {
      InnerAreInside(labels, other, end, first);
    }
  }

  // ----- What a labelling is worth -----

  // The logits of the labels, added up.
  ghost function LogitSum(logits: seq<Row>, path: seq<TokenLabel>): real
    requires WellShaped(logits) && |path| <= |logits|
  {
    if path == [] then 0.0
    else
      var last := |path| - 1;
      LogitSum(logits, path[..last]) + logits[last][IndexOf(path[last])]
  }

  // One bias for each I of a stretch, and one for its E.
  ghost function InsideBias(b: Biases, inner: nat): real {
    if inner == 0 then b.insideToEnd else b.insideToContinue + InsideBias(b, inner - 1)
  }

  ghost function PieceBias(b: Biases, piece: Piece): real {
    if piece.Stretch? then InsideBias(b, piece.inner) else 0.0
  }

  // The bias between neighbouring pieces.
  ghost function JoinBias(b: Biases, left: Piece, right: Piece): real {
    match (left, right)
    case (Background, Background) => b.backgroundStay
    case (Background, _) => b.backgroundToStart
    case (_, Background) => b.endToBackground
    case (_, _) => b.endToStart
  }

  ghost function PiecesBias(b: Biases, pieces: seq<Piece>): real {
    if pieces == [] then 0.0
    else if |pieces| == 1 then PieceBias(b, pieces[0])
    else PieceBias(b, pieces[0]) + JoinBias(b, pieces[0], pieces[1]) + PiecesBias(b, pieces[1..])
  }

  // The biases between neighbouring labels, added up.
  ghost function StepsBias(b: Biases, path: seq<TokenLabel>): real {
    if |path| <= 1 then 0.0 else TransitionBias(path[0], path[1], b) + StepsBias(b, path[1..])
  }

  lemma {:induction false} StepsSnoc(b: Biases, path: seq<TokenLabel>, l: TokenLabel)
    requires path != []
    ensures StepsBias(b, path + [l]) == StepsBias(b, path) + TransitionBias(path[|path| - 1], l, b)
  {
    if |path| > 1 {
      assert (path + [l])[1..] == path[1..] + [l];
      StepsSnoc(b, path[1..], l);
    } else {
      assert (path + [l])[1..] == [l];
    }
  }

  lemma {:induction false} ScoreSplits(logits: seq<Row>, b: Biases, path: seq<TokenLabel>)
    requires WellShaped(logits) && 0 < |path| <= |logits|
    ensures Score(logits, b, path) == LogitSum(logits, path) + StepsBias(b, path)
  {
    var last := |path| - 1;
    if last > 0 {
      ScoreSplits(logits, b, path[..last]);
      assert path == path[..last] + [path[last]];
      StepsSnoc(b, path[..last], path[last]);
    } else {
      assert path[..0] == [];
    }
  }

  lemma {:induction false} StepsJoin(b: Biases, left: seq<TokenLabel>, right: seq<TokenLabel>)
    requires left != [] && right != []
    ensures StepsBias(b, left + right)
         == StepsBias(b, left) + TransitionBias(left[|left| - 1], right[0], b) + StepsBias(b, right)
  {
    if |left| == 1 {
      assert (left + right)[1..] == right;
    } else {
      assert (left + right)[1..] == left[1..] + right;
      StepsJoin(b, left[1..], right);
    }
  }

  lemma {:induction false} InsideSteps(b: Biases, c: Category, inner: nat)
    ensures StepsBias(b, Inside(c, inner + 1) + [Tagged(E, c)]) == InsideBias(b, inner)
  {
    var path := Inside(c, inner + 1) + [Tagged(E, c)];
    if inner == 0 {
      assert path[1..] == [Tagged(E, c)];
    } else {
      assert path[1..] == Inside(c, inner) + [Tagged(E, c)];
      InsideSteps(b, c, inner - 1);
    }
  }

  lemma PieceSteps(b: Biases, piece: Piece)
    ensures StepsBias(b, Spelled(piece)) == PieceBias(b, piece)
  {
    if piece.Stretch? {
      var path, c := Spelled(piece), piece.category;
      assert path[1..] == Inside(c, piece.inner) + [Tagged(E, c)];
      if piece.inner > 0 {
        InsideSteps(b, c, piece.inner - 1);
      } else {
        assert path[1..] == [Tagged(E, c)];
      }
    }
  }

  lemma {:induction false} PiecesSteps(b: Biases, pieces: seq<Piece>)
    requires pieces != []
    ensures SpelledAll(pieces) != [] && StepsBias(b, SpelledAll(pieces)) == PiecesBias(b, pieces)
  {
    PieceSteps(b, pieces[0]);
    if |pieces| == 1 {
      assert pieces[1..] == [] && Spelled(pieces[0]) + [] == Spelled(pieces[0]);
    } else {
      PiecesSteps(b, pieces[1..]);
      StepsJoin(b, Spelled(pieces[0]), SpelledAll(pieces[1..]));
      assert SpelledAll(pieces[1..])[0] == Spelled(pieces[1])[0];
    }
  }

  /**
    The score of a legal labelling: the logits of its labels, a bias for each token inside and at the end of a
    stretch, and one between neighbouring pieces that depends only on which of the two are background.
   */
  lemma ScoreOfPieces(logits: seq<Row>, b: Biases, pieces: seq<Piece>)
    requires WellShaped(logits) && pieces != [] && |SpelledAll(pieces)| <= |logits|
    ensures SpelledAll(pieces) != []
    ensures Score(logits, b, SpelledAll(pieces)) == LogitSum(logits, SpelledAll(pieces)) + PiecesBias(b, pieces)
  {
    PiecesSteps(b, pieces);
    ScoreSplits(logits, b, SpelledAll(pieces));
  }
}
