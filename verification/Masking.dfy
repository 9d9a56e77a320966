/** Replaces every private span of a text by its placeholder. */
module Masking {
  import opened Wrappers
  import opened Labels
  import opened Decoder
  import opened Utf8
  import opened Offsets
  import opened Sequences
  import opened Spans

  // A match of the deterministic detector, in JavaScript positions.
  datatype Detection = Detection(start: nat, end: nat)

  ghost predicate ValidDetection(text: Text, d: Detection) {
    d.start < d.end <= |text| && IsBoundary(text, d.start) && IsBoundary(text, d.end)
  }

  datatype Raw = Raw(decodedText: Text, tokenOffsets: seq<TokenOffset>, logits: seq<Row>, biases: Biases)

  datatype MaskError =
    | DecodedTextDiffers
    | LengthsDiffer
    | BadTokenOffset
    | OffsetsDoNotCover
    | NotDecoded(decode: DecodeError)

  datatype Detector = PrivacyFilter | DeterministicDetector

  datatype DetectedSpan = DetectedSpan(category: Category, detectors: seq<Detector>, startByte: nat, endByte: nat)

  datatype Masked = Masked(bytes: seq<Byte>, spans: seq<DetectedSpan>)

  function DetectorNames(sources: set<Source>): (names: seq<Detector>)
    ensures PrivacyFilter in names <==> Model in sources
    ensures DeterministicDetector in names <==> Deterministic in sources
  {
    (if Model in sources then [PrivacyFilter] else [])
      + (if Deterministic in sources then [DeterministicDetector] else [])
  }

  function Report(s: Span): DetectedSpan {
    DetectedSpan(s.category, DetectorNames(s.sources), s.start, s.end)
  }

  function Ascii(text: string): seq<Scalar>
    requires forall i | 0 <= i < |text| :: text[i] as int < 0x80
  {
    seq(|text|, i requires 0 <= i < |text| => text[i] as int)
  }

  function Placeholder(c: Category): seq<Scalar> {
    Ascii(PlaceholderFor(c))
  }

  function PlaceholderBytes(c: Category): seq<Byte> {
    Flatten(EncodeEach(Placeholder(c)))
  }

  // ----- What masking means -----

  ghost predicate StartsAt(spans: seq<Span>, i: int) {
    exists s :: s in spans && s.start == i
  }

  ghost function CategoryAt(spans: seq<Span>, i: int): Category
    requires StartsAt(spans, i)
  {
    var s :| s in spans && s.start == i;
    s.category
  }

  // The first n bytes, each hidden byte dropped and each span's first byte replaced by its placeholder.
  ghost function MaskUpTo(source: seq<Byte>, spans: seq<Span>, n: nat): seq<Byte>
    requires n <= |source|
  {
    if n == 0 then []
    else
      MaskUpTo(source, spans, n - 1)
      + if StartsAt(spans, n - 1) then PlaceholderBytes(CategoryAt(spans, n - 1))
        else if Hidden(spans, n - 1) then []
        else [source[n - 1]]
  }

  // The same reading, character by character.
  ghost function MaskCharacters(scalars: seq<Scalar>, cuts: seq<nat>, spans: seq<Span>, n: nat): seq<Scalar>
    requires n <= |scalars| < |cuts|
  {
    if n == 0 then []
    else MaskCharacters(scalars, cuts, spans, n - 1) + MaskedCharacter(scalars[n - 1], cuts[n - 1], spans)
  }

  ghost function MaskedCharacter(scalar: Scalar, at: nat, spans: seq<Span>): seq<Scalar> {
    if StartsAt(spans, at) then Placeholder(CategoryAt(spans, at))
    else if Hidden(spans, at) then []
    else [scalar]
  }

  ghost predicate SpansCut(cuts: seq<nat>, spans: seq<Span>) {
    forall s | s in spans :: s.start in cuts && s.end in cuts
  }

  // Every position of the stretch is hidden, and no span starts there.
  ghost predicate Swallowed(spans: seq<Span>, a: int, b: int) {
    forall i | a <= i < b :: Hidden(spans, i) && !StartsAt(spans, i)
  }

  ghost predicate Visible(spans: seq<Span>, a: int, b: int) {
    forall i | a <= i < b :: !Hidden(spans, i)
  }

  lemma OnlyOne(spans: seq<Span>, s: Span)
    requires NonEmpty(spans) && Disjoint(spans) && s in spans
    ensures StartsAt(spans, s.start) && CategoryAt(spans, s.start) == s.category
    ensures Swallowed(spans, s.start + 1, s.end)
  {
    forall t | t in spans && s.start <= t.start < s.end
      ensures t == s
    {
      OneHome(spans, s, t, t.start);
    }
  }

  // Disjoint spans that share a position are the same.
  lemma OneHome(spans: seq<Span>, s: Span, t: Span, i: int)
    requires Disjoint(spans) && s in spans && t in spans
    requires s.start <= i < s.end && t.start <= i < t.end
    ensures s == t
  {
    var k :| 0 <= k < |spans| && spans[k] == s;
    var l :| 0 <= l < |spans| && spans[l] == t;
  }

  lemma {:induction false} VisibleStretch(source: seq<Byte>, spans: seq<Span>, a: nat, b: nat)
    requires a <= b <= |source| && NonEmpty(spans)
    requires Visible(spans, a, b)
    ensures MaskUpTo(source, spans, b) == MaskUpTo(source, spans, a) + source[a..b]
  {
    if a < b {
      VisibleStretch(source, spans, a, b - 1);
      assert !StartsAt(spans, b - 1) by {
        assert !Hidden(spans, b - 1);
      }
      assert source[a..b] == source[a..b - 1] + [source[b - 1]];
    }
  }

  // From here to there, the mask adds nothing.
  ghost predicate SameMask(source: seq<Byte>, spans: seq<Span>, a: nat, b: nat) {
    a <= b <= |source| && MaskUpTo(source, spans, b) == MaskUpTo(source, spans, a)
  }

  lemma {:induction false} HiddenStretch(source: seq<Byte>, spans: seq<Span>, a: nat, b: nat)
    requires a <= b <= |source|
    requires Swallowed(spans, a, b)
    ensures SameMask(source, spans, a, b)
  {
    if a < b {
      HiddenStretch(source, spans, a, b - 1);
    }
  }

  // From here to there, the mask adds the placeholder of the category and nothing else.
  ghost predicate Replaces(source: seq<Byte>, spans: seq<Span>, start: nat, end: nat, c: Category) {
    && start <= end <= |source|
    && MaskUpTo(source, spans, end) == MaskUpTo(source, spans, start) + PlaceholderBytes(c)
  }

  lemma FirstReplaced(source: seq<Byte>, spans: seq<Span>, start: nat, c: Category)
    requires start < |source| && StartsAt(spans, start) && CategoryAt(spans, start) == c
    ensures Replaces(source, spans, start, start + 1, c)
  {
  }

  lemma ReplacesOn(source: seq<Byte>, spans: seq<Span>, start: nat, mid: nat, end: nat, c: Category)
    requires Replaces(source, spans, start, mid, c) && SameMask(source, spans, mid, end)
    ensures Replaces(source, spans, start, end, c)
  {
  }

  lemma ReplacedSpan(source: seq<Byte>, spans: seq<Span>, s: Span)
    requires NonEmpty(spans) && Disjoint(spans) && s in spans && s.end <= |source|
    ensures Replaces(source, spans, s.start, s.end, s.category)
  {
    OnlyOne(spans, s);
    FirstReplaced(source, spans, s.start, s.category);
    HiddenStretch(source, spans, s.start + 1, s.end);
    ReplacesOn(source, spans, s.start, s.start + 1, s.end, s.category);
  }

  lemma FlattenTwo(output: seq<seq<Byte>>, a: seq<Byte>, b: seq<Byte>)
    ensures Flatten(output + [a, b]) == Flatten(output) + a + b
  {
    assert output + [a, b] == (output + [a]) + [b];
    FlattenAppend(output + [a], [b]);
    FlattenAppend(output, [a]);
    FlattenOne(a);
    FlattenOne(b);
  }

  function EndBefore(union: seq<Span>, n: nat): nat
    requires n <= |union|
  {
    if n == 0 then 0 else union[n - 1].end
  }

  // Between two neighbouring spans, or after the last one, nothing is hidden.
  lemma Gap(union: seq<Span>, n: nat, b: nat)
    requires NonEmpty(union) && Disjoint(union) && n <= |union|
    requires n < |union| ==> b <= union[n].start
    ensures n < |union| ==> EndBefore(union, n) <= union[n].start
    ensures Visible(union, EndBefore(union, n), b)
  {
    forall i | EndBefore(union, n) <= i < b
      ensures !Hidden(union, i)
    {
      forall s | s in union
        ensures !(s.start <= i < s.end)
      {
        var k :| 0 <= k < |union| && union[k] == s;
        EndsRise(union, k, n);
      }
    }
    if n < |union| {
      EndsRise(union, n, n);
    }
  }

  lemma EndsRise(union: seq<Span>, k: nat, n: nat)
    requires NonEmpty(union) && Disjoint(union) && k < |union| && n <= |union|
    ensures k < n ==> union[k].end <= EndBefore(union, n)
    ensures n <= k ==> union[n].start <= union[k].start
  {
    assert union[k] in union;
    assert n < |union| ==> union[n] in union;
    assert n > 0 ==> union[n - 1] in union;
  }

  // One kept stretch and one placeholder.
  lemma MaskRound(source: seq<Byte>, union: seq<Span>, n: nat)
    requires NonEmpty(union) && Disjoint(union) && n < |union| && union[n].end <= |source|
    requires EndBefore(union, n) <= |source|
    ensures EndBefore(union, n) <= union[n].start <= union[n].end
    ensures MaskUpTo(source, union, EndBefore(union, n)) + source[EndBefore(union, n)..union[n].start]
            + PlaceholderBytes(union[n].category)
            == MaskUpTo(source, union, union[n].end)
  {
    Gap(union, n, union[n].start);
    assert union[n] in union;
    VisibleStretch(source, union, EndBefore(union, n), union[n].start);
    ReplacedSpan(source, union, union[n]);
  }

  lemma MaskTail(source: seq<Byte>, union: seq<Span>, output: seq<seq<Byte>>)
    requires NonEmpty(union) && Disjoint(union)
    requires EndBefore(union, |union|) <= |source|
    requires Flatten(output) == MaskUpTo(source, union, EndBefore(union, |union|))
    ensures Flatten(output + [source[EndBefore(union, |union|)..]]) == MaskUpTo(source, union, |source|)
  {
    var from := EndBefore(union, |union|);
    Gap(union, |union|, |source|);
    VisibleStretch(source, union, from, |source|);
    FlattenAppend(output, [source[from..]]);
    FlattenOne(source[from..]);
  }

  // The source from a position on, each of the spans replaced by its placeholder.
  ghost function Spliced(source: seq<Byte>, spans: seq<Span>, from: nat): seq<Byte>
    requires from <= |source|
  {
    if spans == [] then source[from..]
    else if from <= spans[0].start <= spans[0].end <= |source| then
      source[from..spans[0].start] + PlaceholderBytes(spans[0].category)
      + Spliced(source, spans[1..], spans[0].end)
    else []
  }

  lemma SplicedHead(source: seq<Byte>, spans: seq<Span>, rest: seq<Span>, span: Span, from: nat)
    requires spans == [span] + rest && from <= span.start <= span.end <= |source|
    ensures Spliced(source, spans, from)
            == source[from..span.start] + PlaceholderBytes(span.category) + Spliced(source, rest, span.end)
  {
    assert spans[1..] == rest;
  }

  lemma SplitFirst(spans: seq<Span>, n: nat)
    requires n < |spans|
    ensures spans[n..] == [spans[n]] + spans[n + 1..]
  {
  }

  lemma Associate(a: seq<Byte>, b: seq<Byte>, c: seq<Byte>, d: seq<Byte>)
    ensures a + b + c + d == a + (b + c + d)
  {
  }

  lemma SpliceRound(source: seq<Byte>, span: Span, rest: seq<Span>, cursor: nat, output: seq<seq<Byte>>)
    requires cursor <= span.start <= span.end <= |source|
    ensures Flatten(output + [source[cursor..span.start], PlaceholderBytes(span.category)])
            + Spliced(source, rest, span.end)
            == Flatten(output) + Spliced(source, [span] + rest, cursor)
  {
    SplicedHead(source, [span] + rest, rest, span, cursor);
    FlattenTwo(output, source[cursor..span.start], PlaceholderBytes(span.category));
    Associate(Flatten(output), source[cursor..span.start], PlaceholderBytes(span.category),
      Spliced(source, rest, span.end));
  }

  /** Concatenating the kept stretches and the placeholders is the byte-by-byte mask. */
  method MaskBytes(source: seq<Byte>, union: seq<Span>) returns (masked: seq<Byte>)
    requires NonEmpty(union) && Disjoint(union) && forall n | 0 <= n < |union| :: union[n].end <= |source|
    ensures masked == MaskUpTo(source, union, |source|)
    ensures masked == Spliced(source, union, 0)
  {
    var output: seq<seq<Byte>> := [];
    var cursor: nat := 0;
    assert union[0..] == union && Flatten(output) + Spliced(source, union, 0) == Spliced(source, union, 0);
    for n := 0 to |union|
      invariant cursor == EndBefore(union, n) <= |source|
      invariant Flatten(output) == MaskUpTo(source, union, cursor)
      invariant Flatten(output) + Spliced(source, union[n..], cursor) == Spliced(source, union, 0)
    {
      var span := union[n];
      MaskRound(source, union, n);
      SplitFirst(union, n);
      SpliceRound(source, span, union[n + 1..], cursor, output);
      FlattenTwo(output, source[cursor..span.start], PlaceholderBytes(span.category));
      output := output + [source[cursor..span.start], PlaceholderBytes(span.category)];
      cursor := span.end;
    }
    MaskTail(source, union, output);
    FlattenAppend(output, [source[cursor..]]);
    FlattenOne(source[cursor..]);
    return Flatten(output + [source[cursor..]]);
  }

  // ----- No character is split -----

  // Between neighbouring boundaries the mask is all or nothing.
  lemma CharacterIsWhole(cuts: seq<nat>, spans: seq<Span>, c: nat)
    requires Increasing(cuts) && SpansCut(cuts, spans) && NonEmpty(spans) && c + 1 < |cuts|
    ensures if Hidden(spans, cuts[c]) then Swallowed(spans, cuts[c] + 1, cuts[c + 1])
            else Visible(spans, cuts[c], cuts[c + 1])
  {
    forall s | s in spans
      ensures s.start <= cuts[c] || cuts[c + 1] <= s.start
      ensures s.end <= cuts[c] || cuts[c + 1] <= s.end
    {
      var d :| 0 <= d < |cuts| && cuts[d] == s.start;
      var e :| 0 <= e < |cuts| && cuts[e] == s.end;
      CutsApart(cuts, c, d);
      CutsApart(cuts, c, e);
    }
  }

  lemma CutsApart(cuts: seq<nat>, c: nat, d: nat)
    requires Increasing(cuts) && c + 1 < |cuts| && d < |cuts|
    ensures cuts[d] <= cuts[c] || cuts[c + 1] <= cuts[d]
  {
  }

  lemma MaskCharacter(source: seq<Byte>, cuts: seq<nat>, piece: seq<Byte>, spans: seq<Span>, c: nat)
    requires Increasing(cuts) && SpansCut(cuts, spans) && NonEmpty(spans) && Disjoint(spans) && c + 1 < |cuts|
    requires Occupies(source, cuts, piece, c)
    ensures MaskUpTo(source, spans, cuts[c + 1])
            == MaskUpTo(source, spans, cuts[c])
               + if StartsAt(spans, cuts[c]) then PlaceholderBytes(CategoryAt(spans, cuts[c]))
                 else if Hidden(spans, cuts[c]) then []
                 else piece
  {
    CharacterIsWhole(cuts, spans, c);
    if Hidden(spans, cuts[c]) {
      HiddenStretch(source, spans, cuts[c] + 1, cuts[c + 1]);
    } else {
      assert !StartsAt(spans, cuts[c]);
      VisibleStretch(source, spans, cuts[c], cuts[c + 1]);
    }
  }

  // The characters of a text as scalar values, lone surrogates replaced.
  function Scalars(text: Text): (scalars: seq<Scalar>)
    ensures |scalars| == |Characters(text)|
  {
    var characters := Characters(text);
    seq(|characters|, c requires 0 <= c < |characters| => ScalarOf(characters[c]))
  }

  lemma PiecesEncodeScalars(text: Text)
    ensures Pieces(text) == EncodeEach(Scalars(text))
  {
  }

  lemma EncodeEachAppend(a: seq<Scalar>, b: seq<Scalar>)
    ensures Flatten(EncodeEach(a + b)) == Flatten(EncodeEach(a)) + Flatten(EncodeEach(b))
  {
    assert EncodeEach(a + b) == EncodeEach(a) + EncodeEach(b);
    FlattenAppend(EncodeEach(a), EncodeEach(b));
  }

  lemma MaskedCharacterBytes(scalars: seq<Scalar>, c: nat, at: nat, spans: seq<Span>)
    requires c < |scalars|
    ensures Flatten(EncodeEach(MaskedCharacter(scalars[c], at, spans)))
            == if StartsAt(spans, at) then PlaceholderBytes(CategoryAt(spans, at))
               else if Hidden(spans, at) then []
               else EncodeEach(scalars)[c]
  {
    if !StartsAt(spans, at) && !Hidden(spans, at) {
      assert EncodeEach([scalars[c]]) == [EncodeEach(scalars)[c]];
      FlattenOne(EncodeEach(scalars)[c]);
    }
  }

  lemma EncodeStep(
      bytes: seq<Byte>, points: seq<Scalar>, more: seq<Scalar>, nextBytes: seq<Byte>, nextPoints: seq<Scalar>)
    requires bytes == Flatten(EncodeEach(points)) && nextPoints == points + more
    requires nextBytes == bytes + Flatten(EncodeEach(more))
    ensures nextBytes == Flatten(EncodeEach(nextPoints))
  {
    EncodeEachAppend(points, more);
  }

  // The mask of the bytes up to boundary c adds what the mask makes of the character before it.
  ghost predicate Masks(source: seq<Byte>, cuts: seq<nat>, scalars: seq<Scalar>, spans: seq<Span>, c: nat)
    requires 0 < c <= |scalars| < |cuts|
  {
    && cuts[c - 1] <= cuts[c] <= |source|
    && MaskUpTo(source, spans, cuts[c])
       == MaskUpTo(source, spans, cuts[c - 1])
         + Flatten(EncodeEach(MaskedCharacter(scalars[c - 1], cuts[c - 1], spans)))
  }

  lemma MasksCharacter(source: seq<Byte>, cuts: seq<nat>, scalars: seq<Scalar>, spans: seq<Span>, c: nat)
    requires NonEmpty(spans) && Disjoint(spans) && SpansCut(cuts, spans) && Increasing(cuts)
    requires c < |scalars| < |cuts| && Occupies(source, cuts, EncodeEach(scalars)[c], c)
    ensures Masks(source, cuts, scalars, spans, c + 1)
  {
    MaskCharacter(source, cuts, EncodeEach(scalars)[c], spans, c);
    MaskedCharacterBytes(scalars, c, cuts[c], spans);
  }

  // The mask of the bytes up to boundary c encodes the mask of the first c characters.
  ghost predicate MaskedSoFar(source: seq<Byte>, cuts: seq<nat>, scalars: seq<Scalar>, spans: seq<Span>, c: nat)
    requires c <= |scalars| < |cuts|
  {
    && cuts[c] <= |source|
    && MaskUpTo(source, spans, cuts[c]) == Flatten(EncodeEach(MaskCharacters(scalars, cuts, spans, c)))
  }

  lemma MaskedNext(source: seq<Byte>, cuts: seq<nat>, scalars: seq<Scalar>, spans: seq<Span>, c: nat)
    requires 0 < c <= |scalars| < |cuts|
    requires MaskedSoFar(source, cuts, scalars, spans, c - 1) && Masks(source, cuts, scalars, spans, c)
    ensures MaskedSoFar(source, cuts, scalars, spans, c)
  {
    EncodeStep(
      MaskUpTo(source, spans, cuts[c - 1]), MaskCharacters(scalars, cuts, spans, c - 1),
      MaskedCharacter(scalars[c - 1], cuts[c - 1], spans),
      MaskUpTo(source, spans, cuts[c]), MaskCharacters(scalars, cuts, spans, c));
  }

  lemma {:induction false} MaskUpToCharacter(
    source: seq<Byte>, cuts: seq<nat>, scalars: seq<Scalar>, spans: seq<Span>, c: nat)
    requires c <= |scalars| < |cuts| && cuts[0] == 0
    requires forall d: nat | 0 < d <= c :: Masks(source, cuts, scalars, spans, d)
    ensures MaskedSoFar(source, cuts, scalars, spans, c)
  {
    if c > 0 {
      MaskUpToCharacter(source, cuts, scalars, spans, c - 1);
      MaskedNext(source, cuts, scalars, spans, c);
    }
  }

  /**
    The masked bytes decode: their text is the source's characters with each hidden one dropped and
    each span's first one replaced by the placeholder.
   */
  lemma MaskedTextDecodes(text: Text, spans: seq<Span>)
    requires NonEmpty(spans) && Disjoint(spans) && SpansCut(Cuts(Pieces(text)), spans)
    ensures Decode(MaskUpTo(ToUtf8(text), spans, |ToUtf8(text)|))
            == Some(MaskCharacters(Scalars(text), Cuts(Pieces(text)), spans, |Scalars(text)|))
  {
    var source, cuts, scalars := ToUtf8(text), Cuts(Pieces(text)), Scalars(text);
    CutsLocate(Pieces(text));
    PiecesEncodeScalars(text);
    forall c: nat | 0 < c <= |scalars|
      ensures Masks(source, cuts, scalars, spans, c)
    {
      MasksCharacter(source, cuts, scalars, spans, c - 1);
    }
    MaskUpToCharacter(source, cuts, scalars, spans, |scalars|);
    DecodeEncode(MaskCharacters(Scalars(text), Cuts(Pieces(text)), spans, |Scalars(text)|));
  }

  // ----- What a text's spans come from -----

  ghost predicate LegalLabelling(labels: seq<TokenLabel>) {
    labels == [] || ValidPath(labels)
  }

  // Position i belongs to a character with a byte in a tagged token.
  ghost predicate TokenHides(cuts: seq<nat>, labels: seq<TokenLabel>, offsets: seq<TokenOffset>, i: int)
    requires |labels| == |offsets|
  {
    exists t :: 0 <= t < |labels| && labels[t].Tagged? && Touches(cuts, i, offsets[t].startByte, offsets[t].endByte)
  }

  // A tagged token, of category Secret if asked, lies in the span.
  ghost predicate TokenInside(labels: seq<TokenLabel>, offsets: seq<TokenOffset>, o: Span, secret: bool)
    requires |labels| == |offsets|
  {
    exists t :: 0 <= t < |labels| && labels[t].Tagged? && (secret ==> labels[t].category.Secret?)
                && o.start <= offsets[t].startByte && offsets[t].endByte <= o.end
  }

  function DetectionSpan(text: Text, d: Detection): Span
    requires ValidDetection(text, d)
  {
    Span(Secret, ByteLength(text[..d.start]), ByteLength(text[..d.end]), {Deterministic})
  }

  ghost predicate DetectionHides(text: Text, detections: seq<Detection>, i: int)
    requires forall d | d in detections :: ValidDetection(text, d)
  {
    exists d :: d in detections && DetectionSpan(text, d).start <= i < DetectionSpan(text, d).end
  }

  ghost predicate DetectionInside(text: Text, detections: seq<Detection>, o: Span)
    requires forall d | d in detections :: ValidDetection(text, d)
  {
    exists d :: d in detections && Within(DetectionSpan(text, d), o)
  }

  // Widened spans of the model, one per run of the labelling.
  ghost predicate ModelCandidates(
    cuts: seq<nat>, labels: seq<TokenLabel>, offsets: seq<TokenOffset>, runs: seq<Run>, widened: seq<Span>)
    requires Segments(labels, runs) && |labels| == |offsets|
  {
    && |widened| == |runs|
    && forall k | 0 <= k < |runs| ::
         && widened[k].category == labels[runs[k].first].category && widened[k].sources == {Model}
         && WidensTo(cuts, offsets[runs[k].first].startByte, offsets[runs[k].last].endByte,
                     TokenOffset(widened[k].start, widened[k].end))
  }

  /** The widened model spans hide exactly the characters that touch a tagged token. */
  lemma ModelHides(
    cuts: seq<nat>, labels: seq<TokenLabel>, offsets: seq<TokenOffset>, length: nat, runs: seq<Run>,
    widened: seq<Span>, i: int)
    requires |labels| == |offsets| && CoversExactly(offsets, length)
    requires Segments(labels, runs) && RunsReach(labels, runs, |labels|)
    requires ModelCandidates(cuts, labels, offsets, runs, widened)
    ensures Hidden(widened, i) <==> TokenHides(cuts, labels, offsets, i)
  {
    if Hidden(widened, i) {
      HiddenHasToken(cuts, labels, offsets, length, runs, widened, i);
    }
    if TokenHides(cuts, labels, offsets, i) {
      var t :| 0 <= t < |labels| && labels[t].Tagged? && Touches(cuts, i, offsets[t].startByte, offsets[t].endByte);
      TokenIsHidden(cuts, labels, offsets, length, runs, widened, i, t);
    }
  }

  lemma HiddenHasToken(
    cuts: seq<nat>, labels: seq<TokenLabel>, offsets: seq<TokenOffset>, length: nat, runs: seq<Run>,
    widened: seq<Span>, i: int)
    requires |labels| == |offsets| && CoversExactly(offsets, length)
    requires Segments(labels, runs) && ModelCandidates(cuts, labels, offsets, runs, widened) && Hidden(widened, i)
    ensures TokenHides(cuts, labels, offsets, i)
  {
    var s :| s in widened && s.start <= i < s.end;
    var k :| 0 <= k < |widened| && widened[k] == s;
    assert Segment(labels, runs[k].first, runs[k].last);
    RunHides(cuts, labels, offsets, length, runs[k].first, runs[k].last, i);
  }

  lemma RunWith(runs: seq<Run>, labels: seq<TokenLabel>, t: nat) returns (k: nat)
    requires RunsReach(labels, runs, |labels|) && t < |labels| && labels[t].Tagged?
    ensures k < |runs| && runs[k].first <= t <= runs[k].last
  {
    assert InSomeRun(runs, t);
    k :| 0 <= k < |runs| && runs[k].first <= t <= runs[k].last;
  }

  lemma TokenIsHidden(
    cuts: seq<nat>, labels: seq<TokenLabel>, offsets: seq<TokenOffset>, length: nat, runs: seq<Run>, widened: seq<Span>,
    i: int, t: nat)
    requires |labels| == |offsets| && CoversExactly(offsets, length)
    requires Segments(labels, runs) && RunsReach(labels, runs, |labels|)
    requires ModelCandidates(cuts, labels, offsets, runs, widened)
    requires t < |labels| && labels[t].Tagged? && Touches(cuts, i, offsets[t].startByte, offsets[t].endByte)
    ensures Hidden(widened, i)
  {
    var k := RunWith(runs, labels, t);
    TouchesMore(cuts, offsets, length, runs[k].first, t, runs[k].last, i);
    assert widened[k] in widened;
  }

  lemma RunHides(
      cuts: seq<nat>, labels: seq<TokenLabel>, offsets: seq<TokenOffset>, length: nat, first: nat, last: nat, i: int)
    requires |labels| == |offsets| && CoversExactly(offsets, length) && Segment(labels, first, last)
    requires Touches(cuts, i, offsets[first].startByte, offsets[last].endByte)
    ensures TokenHides(cuts, labels, offsets, i)
  {
    var j :| offsets[first].startByte <= j < offsets[last].endByte && SameCharacter(cuts, i, j);
    BytesOfTokens(offsets, length, first, last, j);
    var t :| first <= t <= last && offsets[t].startByte <= j < offsets[t].endByte;
    assert labels[t].Tagged? && Touches(cuts, i, offsets[t].startByte, offsets[t].endByte);
  }

  lemma TouchesMore(cuts: seq<nat>, offsets: seq<TokenOffset>, length: nat, first: nat, t: nat, last: nat, i: int)
    requires CoversExactly(offsets, length) && first <= t <= last < |offsets|
    requires Touches(cuts, i, offsets[t].startByte, offsets[t].endByte)
    ensures Touches(cuts, i, offsets[first].startByte, offsets[last].endByte)
  {
    OffsetsRise(offsets, length, first, t);
    OffsetsRise(offsets, length, t, last);
  }

  /** A merged span swallows a model candidate exactly when a tagged token of that kind lies in it. */
  lemma ModelInside(
    cuts: seq<nat>, labels: seq<TokenLabel>, offsets: seq<TokenOffset>, length: nat, runs: seq<Run>, widened: seq<Span>,
    union: seq<Span>, o: Span, secret: bool)
    requires |labels| == |offsets| && CoversExactly(offsets, length)
    requires Segments(labels, runs) && RunsReach(labels, runs, |labels|)
    requires ModelCandidates(cuts, labels, offsets, runs, widened)
    requires Disjoint(union) && o in union && forall w {:trigger Housed(w, union)} | w in widened :: Housed(w, union)
    ensures TokenInside(labels, offsets, o, secret) <==>
            exists w :: w in widened && Within(w, o) && (secret ==> w.category.Secret?)
  {
    if w :| w in widened && Within(w, o) && (secret ==> w.category.Secret?) {
      TokenOfCandidate(cuts, labels, offsets, length, runs, widened, w, o, secret);
    }
    if TokenInside(labels, offsets, o, secret) {
      var t :| 0 <= t < |labels| && labels[t].Tagged? && (secret ==> labels[t].category.Secret?)
               && o.start <= offsets[t].startByte && offsets[t].endByte <= o.end;
      var w := TokenCandidate(cuts, labels, offsets, length, runs, widened, t);
      HomeOf(union, o, w, offsets, length, t);
    }
  }

  lemma HomeOf(union: seq<Span>, o: Span, w: Span, offsets: seq<TokenOffset>, length: nat, t: nat)
    requires Disjoint(union) && o in union && Housed(w, union)
    requires CoversExactly(offsets, length) && t < |offsets|
    requires w.start <= offsets[t].startByte && offsets[t].endByte <= w.end
    requires o.start <= offsets[t].startByte && offsets[t].endByte <= o.end
    ensures Within(w, o)
  {
    var home :| home in union && Within(w, home);
    assert Follows(offsets, length, t);
    OneHome(union, o, home, offsets[t].startByte);
  }

  lemma TokenOfCandidate(
    cuts: seq<nat>, labels: seq<TokenLabel>, offsets: seq<TokenOffset>, length: nat, runs: seq<Run>, widened: seq<Span>,
    w: Span, o: Span, secret: bool)
    requires |labels| == |offsets| && CoversExactly(offsets, length)
    requires Segments(labels, runs) && ModelCandidates(cuts, labels, offsets, runs, widened)
    requires w in widened && Within(w, o) && (secret ==> w.category.Secret?)
    ensures TokenInside(labels, offsets, o, secret)
  {
    var k :| 0 <= k < |widened| && widened[k] == w;
    var first, last := runs[k].first, runs[k].last;
    assert Segment(labels, first, last);
    OffsetsRise(offsets, length, first, last);
    assert labels[first].Tagged? && o.start <= offsets[first].startByte && offsets[first].endByte <= o.end;
  }

  // The candidate that came from a tagged token's run.
  lemma TokenCandidate(
    cuts: seq<nat>, labels: seq<TokenLabel>, offsets: seq<TokenOffset>, length: nat, runs: seq<Run>,
    widened: seq<Span>, t: nat)
    returns (w: Span)
    requires |labels| == |offsets| && CoversExactly(offsets, length)
    requires Segments(labels, runs) && RunsReach(labels, runs, |labels|)
    requires ModelCandidates(cuts, labels, offsets, runs, widened)
    requires t < |labels| && labels[t].Tagged?
    ensures w in widened && w.category == labels[t].category
    ensures w.start <= offsets[t].startByte && offsets[t].endByte <= w.end
  {
    assert InSomeRun(runs, t);
    var k :| 0 <= k < |runs| && runs[k].first <= t <= runs[k].last;
    assert Segment(labels, runs[k].first, runs[k].last);
    OffsetsRise(offsets, length, runs[k].first, t);
    OffsetsRise(offsets, length, t, runs[k].last);
    w := widened[k];
  }

  function DetectionSpans(text: Text, detections: seq<Detection>): (spans: seq<Span>)
    requires forall d | d in detections :: ValidDetection(text, d)
    ensures |spans| == |detections|
    ensures forall n | 0 <= n < |spans| :: spans[n] == DetectionSpan(text, detections[n])
  {
    seq(|detections|, n requires 0 <= n < |detections| => DetectionSpan(text, detections[n]))
  }

  lemma DetectionsCut(text: Text, detections: seq<Detection>)
    requires forall d | d in detections :: ValidDetection(text, d)
    ensures NonEmpty(DetectionSpans(text, detections))
    ensures SpansCut(Cuts(Pieces(text)), DetectionSpans(text, detections))
    ensures forall s | s in DetectionSpans(text, detections) :: s.end <= ByteLength(text)
  {
    forall s | s in DetectionSpans(text, detections)
      ensures s.start < s.end <= ByteLength(text) && s.start in Cuts(Pieces(text)) && s.end in Cuts(Pieces(text))
    {
      var n :| 0 <= n < |detections| && s == DetectionSpan(text, detections[n]);
      var d := detections[n];
      assert ValidDetection(text, d);
      PrefixIsCut(text, d.start);
      PrefixIsCut(text, d.end);
      PrefixGrows(text, d.start, d.end);
    }
  }

  lemma DetectionHidden(text: Text, detections: seq<Detection>, i: int)
    requires forall d | d in detections :: ValidDetection(text, d)
    ensures Hidden(DetectionSpans(text, detections), i) <==> DetectionHides(text, detections, i)
  {
    var spans := DetectionSpans(text, detections);
    if d :| d in detections && DetectionSpan(text, d).start <= i < DetectionSpan(text, d).end {
      var n :| 0 <= n < |detections| && detections[n] == d;
      assert spans[n] in spans;
    }
    if s :| s in spans && s.start <= i < s.end {
      var n :| 0 <= n < |spans| && spans[n] == s;
      assert detections[n] in detections;
    }
  }

  lemma DetectionHoused(text: Text, detections: seq<Detection>, o: Span)
    requires forall d | d in detections :: ValidDetection(text, d)
    ensures (exists s :: s in DetectionSpans(text, detections) && Within(s, o))
        <==> DetectionInside(text, detections, o)
  {
    var spans := DetectionSpans(text, detections);
    if d :| d in detections && Within(DetectionSpan(text, d), o) {
      var n :| 0 <= n < |detections| && detections[n] == d;
      assert spans[n] in spans;
    }
    if s :| s in spans && Within(s, o) {
      var n :| 0 <= n < |spans| && spans[n] == s;
      assert detections[n] in detections;
    }
  }

  // ----- The whole pipeline -----

  // Which characters are hidden, and what each span is called, in terms of tokens and detections alone.
  ghost predicate HidesExactly(
      text: Text, labels: seq<TokenLabel>, offsets: seq<TokenOffset>, detections: seq<Detection>, union: seq<Span>)
    requires |labels| == |offsets| && forall d | d in detections :: ValidDetection(text, d)
  {
    && (forall i :: Hidden(union, i) <==>
                    TokenHides(Cuts(Pieces(text)), labels, offsets, i) || DetectionHides(text, detections, i))
    && (forall o | o in union :: NamedRight(text, labels, offsets, detections, o))
  }

  ghost predicate NamedRight(
      text: Text, labels: seq<TokenLabel>, offsets: seq<TokenOffset>, detections: seq<Detection>, o: Span)
    requires |labels| == |offsets| && forall d | d in detections :: ValidDetection(text, d)
  {
    && (o.category.Secret? <==> TokenInside(labels, offsets, o, true) || DetectionInside(text, detections, o))
    && (Model in o.sources <==> TokenInside(labels, offsets, o, false))
    && (Deterministic in o.sources <==> DetectionInside(text, detections, o))
  }

  lemma NamesAreRight(
    text: Text, labels: seq<TokenLabel>, offsets: seq<TokenOffset>, runs: seq<Run>, widened: seq<Span>,
    detections: seq<Detection>, union: seq<Span>, o: Span)
    requires |labels| == |offsets| && CoversExactly(offsets, ByteLength(text))
    requires Segments(labels, runs) && RunsReach(labels, runs, |labels|)
    requires ModelCandidates(Cuts(Pieces(text)), labels, offsets, runs, widened)
    requires forall d | d in detections :: ValidDetection(text, d)
    requires UnionOf(widened + DetectionSpans(text, detections), union) && o in union
    ensures NamedRight(text, labels, offsets, detections, o)
  {
    var found := DetectionSpans(text, detections);
    forall w | w in widened
      ensures Housed(w, union)
    {
      assert w in widened + found;
    }
    assert Summarises(widened + found, o);
    ModelInside(Cuts(Pieces(text)), labels, offsets, ByteLength(text), runs, widened, union, o, true);
    ModelInside(Cuts(Pieces(text)), labels, offsets, ByteLength(text), runs, widened, union, o, false);
    DetectionHoused(text, detections, o);
    KindsApart(text, labels, offsets, runs, widened, detections);
    SplitSummary(widened, found, o);
  }

  lemma SplitSummary(widened: seq<Span>, found: seq<Span>, o: Span)
    requires Summarises(widened + found, o)
    requires forall w | w in widened :: w.sources == {Model}
    requires forall s | s in found :: s.sources == {Deterministic} && s.category.Secret?
    ensures o.category.Secret? <==>
            || (exists w :: w in widened && Within(w, o) && (true ==> w.category.Secret?))
            || (exists s :: s in found && Within(s, o))
    ensures Model in o.sources <==> exists w :: w in widened && Within(w, o) && (false ==> w.category.Secret?)
    ensures Deterministic in o.sources <==> exists s :: s in found && Within(s, o)
  {
    assert forall c :: c in widened + found <==> c in widened || c in found;
  }

  lemma KindsApart(
    text: Text, labels: seq<TokenLabel>, offsets: seq<TokenOffset>, runs: seq<Run>, widened: seq<Span>,
    detections: seq<Detection>)
    requires |labels| == |offsets| && Segments(labels, runs)
    requires ModelCandidates(Cuts(Pieces(text)), labels, offsets, runs, widened)
    requires forall d | d in detections :: ValidDetection(text, d)
    ensures forall w | w in widened :: w.sources == {Model}
    ensures forall s | s in DetectionSpans(text, detections) :: s.sources == {Deterministic} && s.category.Secret?
  {
  }

  lemma HiddenAppend(a: seq<Span>, b: seq<Span>, i: int)
    ensures Hidden(a + b, i) <==> Hidden(a, i) || Hidden(b, i)
  {
    assert forall c :: c in a + b <==> c in a || c in b;
  }

  lemma HidingIsExact(
    text: Text, labels: seq<TokenLabel>, offsets: seq<TokenOffset>, runs: seq<Run>, widened: seq<Span>,
    detections: seq<Detection>, union: seq<Span>)
    requires |labels| == |offsets| && CoversExactly(offsets, ByteLength(text))
    requires Segments(labels, runs) && RunsReach(labels, runs, |labels|)
    requires ModelCandidates(Cuts(Pieces(text)), labels, offsets, runs, widened)
    requires forall d | d in detections :: ValidDetection(text, d)
    requires UnionOf(widened + DetectionSpans(text, detections), union)
    ensures HidesExactly(text, labels, offsets, detections, union)
  {
    var found := DetectionSpans(text, detections);
    forall i
      ensures Hidden(union, i)
          <==> TokenHides(Cuts(Pieces(text)), labels, offsets, i) || DetectionHides(text, detections, i)
    {
      assert Hidden(union, i) <==> Hidden(widened + found, i);
      HiddenAppend(widened, found, i);
      ModelHides(Cuts(Pieces(text)), labels, offsets, ByteLength(text), runs, widened, i);
      DetectionHidden(text, detections, i);
    }
    forall o | o in union
      ensures NamedRight(text, labels, offsets, detections, o)
    {
      NamesAreRight(text, labels, offsets, runs, widened, detections, union, o);
    }
  }

  // A candidate hiding a position of a merged span lies within it.
  lemma CandidateInside(candidates: seq<Span>, union: seq<Span>, o: Span, i: int) returns (c: Span)
    requires Covers(candidates, union) && o in union && o.start <= i < o.end
    ensures c in candidates && c.start <= i < c.end && Within(c, o)
  {
    assert Hidden(union, i);
    assert Hidden(candidates, i);
    c :| c in candidates && c.start <= i < c.end;
    assert Housed(c, union);
    var home :| home in union && Within(c, home);
    OneHome(union, o, home, i);
  }

  /** The ends of merged spans are ends of candidates, so they stay on character boundaries and in range. */
  lemma UnionEnds(candidates: seq<Span>, union: seq<Span>, o: Span)
    requires Covers(candidates, union) && o in union
    ensures exists c :: c in candidates && c.start == o.start
    ensures exists c :: c in candidates && c.end == o.end
  {
    assert o.start < o.end;
    var first := CandidateInside(candidates, union, o, o.start);
    var last := CandidateInside(candidates, union, o, o.end - 1);
  }

  lemma UnionStaysOnCuts(cuts: seq<nat>, length: nat, candidates: seq<Span>, union: seq<Span>)
    requires UnionOf(candidates, union) && NonEmpty(candidates) && SpansCut(cuts, candidates)
    requires forall c | c in candidates :: c.end <= length
    ensures SpansCut(cuts, union) && forall n | 0 <= n < |union| :: union[n].end <= length
  {
    forall o | o in union
      ensures o.start in cuts && o.end in cuts && o.end <= length
    {
      UnionEnds(candidates, union, o);
    }
  }

  method CheckOffsets(byteLength: nat, offsets: seq<TokenOffset>) returns (bad: Option<MaskError>)
    ensures bad.None? <==> CoversExactly(offsets, byteLength)
    ensures bad.Some? ==> bad.value in {BadTokenOffset, OffsetsDoNotCover}
  {
    var previousEnd: int := 0;
    for t := 0 to |offsets|
      invariant previousEnd == EndOf(offsets, t)
      invariant forall u | 0 <= u < t :: Follows(offsets, byteLength, u)
    {
      if !ValidByteRange(byteLength, offsets[t].startByte, offsets[t].endByte) {
        assert !Follows(offsets, byteLength, t);
        return Some(BadTokenOffset);
      }
      if offsets[t].startByte != previousEnd {
        assert !Follows(offsets, byteLength, t);
        return Some(OffsetsDoNotCover);
      }
      previousEnd := offsets[t].endByte;
    }
    if previousEnd != byteLength {
      return Some(OffsetsDoNotCover);
    }
    return None;
  }

  // What widening did to one span.
  ghost predicate WidenedFrom(cuts: seq<nat>, s: Span, w: Span) {
    w.category == s.category && w.sources == s.sources && WidensTo(cuts, s.start, s.end, TokenOffset(w.start, w.end))
  }

  method WidenSpans(text: Text, spans: seq<Span>) returns (widened: seq<Span>)
    requires forall n | 0 <= n < |spans| :: ValidByteRange(ByteLength(text), spans[n].start, spans[n].end)
    ensures |widened| == |spans|
    ensures forall n | 0 <= n < |spans| :: WidenedFrom(Cuts(Pieces(text)), spans[n], widened[n])
  {
    widened := [];
    for n := 0 to |spans|
      invariant |widened| == n
      invariant forall m | 0 <= m < n :: WidenedFrom(Cuts(Pieces(text)), spans[m], widened[m])
    {
      var expanded := ExpandToUtf8Boundaries(text, spans[n].start, spans[n].end);
      widened := widened + [spans[n].(start := expanded.value.startByte, end := expanded.value.endByte)];
    }
  }

  lemma RunsInRange(length: nat, labels: seq<TokenLabel>, offsets: seq<TokenOffset>, runs: seq<Run>, spans: seq<Span>)
    requires |labels| == |offsets| && CoversExactly(offsets, length)
    requires Segments(labels, runs) && SpansOfRuns(labels, offsets, runs, spans)
    ensures forall n | 0 <= n < |spans| :: ValidByteRange(length, spans[n].start, spans[n].end)
  {
    forall n | 0 <= n < |spans|
      ensures ValidByteRange(length, spans[n].start, spans[n].end)
    {
      assert SpanOfRun(labels, offsets, runs[n], spans[n]);
      OffsetsRise(offsets, length, runs[n].first, runs[n].last);
      assert Follows(offsets, length, runs[n].first) && Follows(offsets, length, runs[n].last);
    }
  }

  lemma WidenedAreCandidates(
    cuts: seq<nat>, length: nat, labels: seq<TokenLabel>, offsets: seq<TokenOffset>, runs: seq<Run>,
    spans: seq<Span>, widened: seq<Span>)
    requires |labels| == |offsets| && CoversExactly(offsets, length)
    requires Segments(labels, runs) && SpansOfRuns(labels, offsets, runs, spans)
    requires Increasing(cuts) && cuts != [] && cuts[|cuts| - 1] == length
    requires |widened| == |spans| && forall n | 0 <= n < |spans| :: WidenedFrom(cuts, spans[n], widened[n])
    ensures ModelCandidates(cuts, labels, offsets, runs, widened)
    ensures NonEmpty(widened) && SpansCut(cuts, widened) && forall w | w in widened :: w.end <= length
  {
    RunsInRange(length, labels, offsets, runs, spans);
    forall n | 0 <= n < |runs|
      ensures SpanOfRun(labels, offsets, runs[n], spans[n]) && WidenedFrom(cuts, spans[n], widened[n])
    {
    }
    forall w | w in widened
      ensures w.start < w.end <= length && w.start in cuts && w.end in cuts
    {
      var n :| 0 <= n < |widened| && widened[n] == w;
      assert WidenedFrom(cuts, spans[n], w);
      CutInRange(cuts, w.end);
    }
  }

  lemma CutInRange(cuts: seq<nat>, c: int)
    requires Increasing(cuts) && c in cuts
    ensures c <= cuts[|cuts| - 1]
  {
    var d :| 0 <= d < |cuts| && cuts[d] == c;
    assert d == |cuts| - 1 || cuts[d] < cuts[|cuts| - 1];
  }

  // ----- Why a merged span is as long as it is, and what it is called -----

  // The characters that this segment of the labelling touches.
  ghost predicate SegmentRange(
    cuts: seq<nat>, labels: seq<TokenLabel>, offsets: seq<TokenOffset>, first: nat, last: nat, r: TokenOffset)
    requires |labels| == |offsets|
  {
    Segment(labels, first, last) && WidensTo(cuts, offsets[first].startByte, offsets[last].endByte, r)
  }

  ghost predicate SegmentCrosses(cuts: seq<nat>, labels: seq<TokenLabel>, offsets: seq<TokenOffset>, p: int)
    requires |labels| == |offsets|
  {
    exists first: nat, last: nat, r: TokenOffset ::
      SegmentRange(cuts, labels, offsets, first, last, r) && r.startByte < p < r.endByte
  }

  ghost predicate DetectionCrosses(text: Text, detections: seq<Detection>, p: int)
    requires forall d | d in detections :: ValidDetection(text, d)
  {
    exists d :: d in detections && DetectionSpan(text, d).start < p < DetectionSpan(text, d).end
  }

  // A segment or a detection reaches across the position.
  ghost predicate Overlapped(
      text: Text, labels: seq<TokenLabel>, offsets: seq<TokenOffset>, detections: seq<Detection>, p: int)
    requires |labels| == |offsets| && forall d | d in detections :: ValidDetection(text, d)
  {
    SegmentCrosses(Cuts(Pieces(text)), labels, offsets, p) || DetectionCrosses(text, detections, p)
  }

  predicate TokenWithin(offsets: seq<TokenOffset>, t: nat, start: nat, end: nat)
    requires t < |offsets|
  {
    start <= offsets[t].startByte && offsets[t].endByte <= end
  }

  // The first tagged token in the range has this category.
  ghost predicate NamedByFirst(
      labels: seq<TokenLabel>, offsets: seq<TokenOffset>, start: nat, end: nat, category: Category)
    requires |labels| == |offsets|
  {
    exists t: nat :: t < |labels| && IsFirstTagged(labels, offsets, start, end, t) && labels[t].category == category
  }

  ghost predicate IsFirstTagged(labels: seq<TokenLabel>, offsets: seq<TokenOffset>, start: nat, end: nat, t: nat)
    requires |labels| == |offsets| && t < |labels|
  {
    && labels[t].Tagged? && TokenWithin(offsets, t, start, end)
    && forall u: nat | u < t && labels[u].Tagged? :: !TokenWithin(offsets, u, start, end)
  }

  // A widened range starts with the character that holds its first byte.
  lemma NoCutBefore(cuts: seq<nat>, s: int, e: int, r: TokenOffset, b: nat)
    requires s < e && WidensTo(cuts, s, e, r) && r.startByte < b <= s
    ensures b !in cuts
  {
    assert Touches(cuts, r.startByte, s, e);
    var j :| s <= j < e && SameCharacter(cuts, r.startByte, j);
    forall c | 0 <= c < |cuts|
      ensures cuts[c] != b
    {
      assert cuts[c] <= r.startByte <==> cuts[c] <= j;
    }
  }

  // And it ends with the character that holds its last byte.
  lemma NoCutAfter(cuts: seq<nat>, s: int, e: int, r: TokenOffset, b: nat)
    requires s < e && WidensTo(cuts, s, e, r) && e <= b < r.endByte
    ensures b !in cuts
  {
    assert Touches(cuts, r.endByte - 1, s, e);
    var j :| s <= j < e && SameCharacter(cuts, r.endByte - 1, j);
    forall c | 0 <= c < |cuts|
      ensures cuts[c] != b
    {
      assert cuts[c] <= r.endByte - 1 <==> cuts[c] <= j;
    }
  }

  lemma WidenRises(cuts: seq<nat>, s: int, e: int, r: TokenOffset, s2: int, e2: int, r2: TokenOffset)
    requires s < e && s2 < e2 && s <= s2 && e <= e2
    requires WidensTo(cuts, s, e, r) && WidensTo(cuts, s2, e2, r2)
    ensures r.startByte <= r2.startByte && r.endByte <= r2.endByte
  {
    if r2.startByte < r.startByte {
      NoCutBefore(cuts, s2, e2, r2, r.startByte);
    }
    if r2.endByte < r.endByte {
      NoCutAfter(cuts, s, e, r, r2.endByte);
    }
  }

  lemma WidenedRise(
    cuts: seq<nat>, labels: seq<TokenLabel>, offsets: seq<TokenOffset>, length: nat, runs: seq<Run>,
    widened: seq<Span>, i: nat, j: nat)
    requires |labels| == |offsets| && CoversExactly(offsets, length)
    requires Segments(labels, runs) && ModelCandidates(cuts, labels, offsets, runs, widened) && i <= j < |runs|
    ensures widened[i].start <= widened[j].start && widened[i].end <= widened[j].end
  {
    var a, b := runs[i], runs[j];
    assert Segment(labels, a.first, a.last) && Segment(labels, b.first, b.last);
    OffsetsRise(offsets, length, a.first, b.first);
    OffsetsRise(offsets, length, a.last, b.last);
    OffsetsRise(offsets, length, a.first, a.last);
    OffsetsRise(offsets, length, b.first, b.last);
    assert Follows(offsets, length, a.first) && Follows(offsets, length, b.first);
    WidenRises(cuts, offsets[a.first].startByte, offsets[a.last].endByte,
      TokenOffset(widened[i].start, widened[i].end), offsets[b.first].startByte, offsets[b.last].endByte,
      TokenOffset(widened[j].start, widened[j].end));
  }

  // The first of the model's candidates that starts where the span does, if one does.
  lemma {:induction false} FirstStarting(widened: seq<Span>, start: nat, n: nat) returns (j: nat)
    requires n < |widened| && widened[n].start == start
    ensures j <= n && widened[j].start == start && forall i | 0 <= i < j :: widened[i].start != start
  {
    if i :| 0 <= i < n && widened[i].start == start {
      j := FirstStarting(widened, start, i);
    } else {
      j := n;
    }
  }

  lemma LeaderIs(widened: seq<Span>, found: seq<Span>, o: Span, m: nat, j: nat)
    requires Leads(ByStart(widened + found), o, m) && j < |widened| && widened[j].start == o.start
    requires forall i | 0 <= i < j :: widened[i].start != o.start
    requires ByStart(widened + found)[m].end == widened[j].end
    ensures ByStart(widened + found)[m] == widened[j]
  {
    var candidates, sorted := widened + found, ByStart(widened + found);
    assert candidates[j] == widened[j];
    SortRanged(candidates, o.start, widened[j].end);
    RangedFirst(sorted, m);
    RangedFirst(candidates, j);
  }

  // Of the spans with one start the shortest comes first.
  lemma ShortestFirst(sorted: seq<Span>, o: Span, m: nat, w: Span)
    requires Spans.Sorted(sorted) && Leads(sorted, o, m) && w in sorted && w.start == o.start
    ensures sorted[m].end <= w.end
  {
    var q: nat :| q < |sorted| && sorted[q] == w;
    assert m < q ==> Spans.Before(sorted[m], sorted[q]);
  }

  // A merged span that is no secret has the category of the first of the model's candidates that starts where it does.
  lemma FirstCandidate(
    cuts: seq<nat>, labels: seq<TokenLabel>, offsets: seq<TokenOffset>, length: nat, runs: seq<Run>,
    widened: seq<Span>, found: seq<Span>, o: Span)
    returns (j: nat)
    requires |labels| == |offsets| && CoversExactly(offsets, length)
    requires Segments(labels, runs) && ModelCandidates(cuts, labels, offsets, runs, widened)
    requires forall s | s in found :: s.category.Secret?
    requires !o.category.Secret? && Led(ByStart(widened + found), o)
    ensures j < |widened| && widened[j].start == o.start && widened[j].category == o.category
    ensures forall i | 0 <= i < j :: widened[i].start < o.start
  {
    var sorted := ByStart(widened + found);
    var m: nat :| Leads(sorted, o, m);
    ByStartSorts(widened + found);
    assert sorted[m] in widened + found;
    var n: nat :| n < |widened| && widened[n] == sorted[m];
    j := FirstStarting(widened, o.start, n);
    WidenedRise(cuts, labels, offsets, length, runs, widened, j, n);
    assert widened[j] in widened + found;
    ShortestFirst(sorted, o, m, widened[j]);
    LeaderIs(widened, found, o, m, j);
    forall i | 0 <= i < j
      ensures widened[i].start < o.start
    {
      WidenedRise(cuts, labels, offsets, length, runs, widened, i, j);
    }
  }

  lemma NamedByCandidate(
    cuts: seq<nat>, labels: seq<TokenLabel>, offsets: seq<TokenOffset>, length: nat, runs: seq<Run>,
    widened: seq<Span>, union: seq<Span>, o: Span, j: nat)
    requires |labels| == |offsets| && CoversExactly(offsets, length)
    requires Segments(labels, runs) && RunsReach(labels, runs, |labels|)
    requires ModelCandidates(cuts, labels, offsets, runs, widened)
    requires Disjoint(union) && o in union && forall w {:trigger Housed(w, union)} | w in widened :: Housed(w, union)
    requires j < |widened| && widened[j].start == o.start && widened[j].category == o.category && Within(widened[j], o)
    requires forall i | 0 <= i < j :: widened[i].start < o.start
    ensures NamedByFirst(labels, offsets, o.start, o.end, o.category)
  {
    var t := runs[j].first;
    assert Segment(labels, t, runs[j].last);
    OffsetsRise(offsets, length, t, runs[j].last);
    forall u: nat | u < t && labels[u].Tagged?
      ensures !TokenWithin(offsets, u, o.start, o.end)
    {
      EarlierToken(cuts, labels, offsets, length, runs, widened, union, o, j, u);
    }
    assert IsFirstTagged(labels, offsets, o.start, o.end, t);
  }

  // A tagged token before a run is in an earlier one, whose candidate starts outside the span.
  lemma EarlierToken(
    cuts: seq<nat>, labels: seq<TokenLabel>, offsets: seq<TokenOffset>, length: nat, runs: seq<Run>,
    widened: seq<Span>, union: seq<Span>, o: Span, j: nat, u: nat)
    requires |labels| == |offsets| && CoversExactly(offsets, length)
    requires Segments(labels, runs) && RunsReach(labels, runs, |labels|)
    requires ModelCandidates(cuts, labels, offsets, runs, widened)
    requires Disjoint(union) && o in union && forall w {:trigger Housed(w, union)} | w in widened :: Housed(w, union)
    requires j < |widened| && u < runs[j].first && labels[u].Tagged?
    requires forall i | 0 <= i < j :: widened[i].start < o.start
    ensures !TokenWithin(offsets, u, o.start, o.end)
  {
    var i := RunBefore(labels, runs, j, u);
    if TokenWithin(offsets, u, o.start, o.end) {
      RunHome(cuts, labels, offsets, length, runs, widened, union, o, i, u);
    }
  }

  lemma RunBefore(labels: seq<TokenLabel>, runs: seq<Run>, j: nat, u: nat) returns (i: nat)
    requires Segments(labels, runs) && RunsReach(labels, runs, |labels|)
    requires j < |runs| && u < runs[j].first && u < |labels| && labels[u].Tagged?
    ensures i < j && runs[i].first <= u <= runs[i].last
  {
    assert InSomeRun(runs, u);
    i :| 0 <= i < |runs| && runs[i].first <= u <= runs[i].last;
  }

  lemma RunHome(
    cuts: seq<nat>, labels: seq<TokenLabel>, offsets: seq<TokenOffset>, length: nat, runs: seq<Run>,
    widened: seq<Span>, union: seq<Span>, o: Span, i: nat, u: nat)
    requires |labels| == |offsets| && CoversExactly(offsets, length)
    requires Segments(labels, runs) && ModelCandidates(cuts, labels, offsets, runs, widened)
    requires Disjoint(union) && o in union && forall w {:trigger Housed(w, union)} | w in widened :: Housed(w, union)
    requires i < |runs| && runs[i].first <= u <= runs[i].last && TokenWithin(offsets, u, o.start, o.end)
    ensures Within(widened[i], o)
  {
    assert Segment(labels, runs[i].first, runs[i].last);
    OffsetsRise(offsets, length, runs[i].first, u);
    OffsetsRise(offsets, length, u, runs[i].last);
    assert widened[i] in widened;
    HomeOf(union, o, widened[i], offsets, length, u);
  }

  lemma HousedSame(cs: seq<Span>, union: seq<Span>, o: Span, w: Span)
    requires Covers(cs, union) && NonEmpty(cs) && o in union && w in cs && w.start == o.start
    ensures Within(w, o)
  {
    assert Housed(w, union);
    var home :| home in union && Within(w, home);
    OneHome(union, o, home, w.start);
  }

  // What the merged span of a text is called, and why it is no longer.
  ghost predicate SpanRight(
      text: Text, labels: seq<TokenLabel>, offsets: seq<TokenOffset>, detections: seq<Detection>, o: Span)
    requires |labels| == |offsets| && forall d | d in detections :: ValidDetection(text, d)
  {
    && NamedRight(text, labels, offsets, detections, o)
    && (!o.category.Secret? ==> NamedByFirst(labels, offsets, o.start, o.end, o.category))
    && forall p {:trigger Overlapped(text, labels, offsets, detections, p)} | o.start < p < o.end ::
         Overlapped(text, labels, offsets, detections, p)
  }

  lemma CategoryIsRight(
    text: Text, labels: seq<TokenLabel>, offsets: seq<TokenOffset>, runs: seq<Run>, widened: seq<Span>,
    detections: seq<Detection>, union: seq<Span>, o: Span)
    requires |labels| == |offsets| && CoversExactly(offsets, ByteLength(text))
    requires Segments(labels, runs) && RunsReach(labels, runs, |labels|)
    requires ModelCandidates(Cuts(Pieces(text)), labels, offsets, runs, widened)
    requires forall d | d in detections :: ValidDetection(text, d)
    requires var candidates := widened + DetectionSpans(text, detections);
             UnionOf(candidates, union) && NonEmpty(candidates) && Led(ByStart(candidates), o)
    requires o in union && !o.category.Secret?
    ensures NamedByFirst(labels, offsets, o.start, o.end, o.category)
  {
    var found := DetectionSpans(text, detections);
    KindsApart(text, labels, offsets, runs, widened, detections);
    var j := FirstCandidate(Cuts(Pieces(text)), labels, offsets, ByteLength(text), runs, widened, found, o);
    assert widened[j] in widened + found;
    HousedSame(widened + found, union, o, widened[j]);
    forall w | w in widened
      ensures Housed(w, union)
    {
      assert w in widened + found;
    }
    NamedByCandidate(Cuts(Pieces(text)), labels, offsets, ByteLength(text), runs, widened, union, o, j);
  }

  lemma LengthIsRight(
    text: Text, labels: seq<TokenLabel>, offsets: seq<TokenOffset>, runs: seq<Run>, widened: seq<Span>,
    detections: seq<Detection>, p: int)
    requires |labels| == |offsets|
    requires Segments(labels, runs) && ModelCandidates(Cuts(Pieces(text)), labels, offsets, runs, widened)
    requires forall d | d in detections :: ValidDetection(text, d)
    requires Bridged(widened + DetectionSpans(text, detections), p)
    ensures Overlapped(text, labels, offsets, detections, p)
  {
    BridgedApart(widened, DetectionSpans(text, detections), p);
    if Bridged(widened, p) {
      RunCrosses(Cuts(Pieces(text)), labels, offsets, runs, widened, p);
    } else {
      FoundCrosses(text, detections, p);
    }
  }

  lemma BridgedApart(a: seq<Span>, b: seq<Span>, p: int)
    requires Bridged(a + b, p)
    ensures Bridged(a, p) || Bridged(b, p)
  {
    var c :| c in a + b && c.start < p < c.end;
    assert c in a || c in b;
  }

  lemma FoundCrosses(text: Text, detections: seq<Detection>, p: int)
    requires forall d | d in detections :: ValidDetection(text, d)
    requires Bridged(DetectionSpans(text, detections), p)
    ensures DetectionCrosses(text, detections, p)
  {
    var found := DetectionSpans(text, detections);
    var c :| c in found && c.start < p < c.end;
    var n :| 0 <= n < |found| && found[n] == c;
    assert detections[n] in detections;
  }

  lemma RunCrosses(
    cuts: seq<nat>, labels: seq<TokenLabel>, offsets: seq<TokenOffset>, runs: seq<Run>, widened: seq<Span>, p: int)
    requires |labels| == |offsets|
    requires Segments(labels, runs) && ModelCandidates(cuts, labels, offsets, runs, widened) && Bridged(widened, p)
    ensures SegmentCrosses(cuts, labels, offsets, p)
  {
    var c :| c in widened && c.start < p < c.end;
    var k :| 0 <= k < |widened| && widened[k] == c;
    RunOverlaps(cuts, labels, offsets, runs, widened, k);
  }

  lemma RunOverlaps(
    cuts: seq<nat>, labels: seq<TokenLabel>, offsets: seq<TokenOffset>, runs: seq<Run>, widened: seq<Span>, k: nat)
    requires |labels| == |offsets| && Segments(labels, runs)
    requires ModelCandidates(cuts, labels, offsets, runs, widened) && k < |widened|
    ensures SegmentRange(
              cuts, labels, offsets, runs[k].first, runs[k].last, TokenOffset(widened[k].start, widened[k].end))
  {
    assert Segment(labels, runs[k].first, runs[k].last);
  }

  lemma SpansAreRight(
    text: Text, labels: seq<TokenLabel>, offsets: seq<TokenOffset>, runs: seq<Run>, widened: seq<Span>,
    detections: seq<Detection>, union: seq<Span>, o: Span)
    requires |labels| == |offsets| && CoversExactly(offsets, ByteLength(text))
    requires Segments(labels, runs) && RunsReach(labels, runs, |labels|)
    requires ModelCandidates(Cuts(Pieces(text)), labels, offsets, runs, widened)
    requires forall d | d in detections :: ValidDetection(text, d)
    requires var candidates := widened + DetectionSpans(text, detections);
             && UnionOf(candidates, union) && NonEmpty(candidates) && Led(ByStart(candidates), o)
             && Connected(candidates, o)
    requires o in union
    ensures SpanRight(text, labels, offsets, detections, o)
  {
    NamesAreRight(text, labels, offsets, runs, widened, detections, union, o);
    if !o.category.Secret? {
      CategoryIsRight(text, labels, offsets, runs, widened, detections, union, o);
    }
    forall p {:trigger Overlapped(text, labels, offsets, detections, p)} | o.start < p < o.end
      ensures Overlapped(text, labels, offsets, detections, p)
    {
      assert Bridged(widened + DetectionSpans(text, detections), p);
      LengthIsRight(text, labels, offsets, runs, widened, detections, p);
    }
  }

  // ----- What is reported -----

  // The reported ranges are not empty, lie on character boundaries, and follow one another without overlap.
  ghost predicate InOrder(text: Text, spans: seq<DetectedSpan>) {
    && (forall n | 0 <= n < |spans| ::
          && spans[n].startByte < spans[n].endByte
          && spans[n].startByte in Cuts(Pieces(text)) && spans[n].endByte in Cuts(Pieces(text)))
    && (forall m, n | 0 <= m < n < |spans| :: spans[m].endByte <= spans[n].startByte)
  }

  ghost predicate Reported(spans: seq<DetectedSpan>, i: int) {
    exists n :: 0 <= n < |spans| && spans[n].startByte <= i < spans[n].endByte
  }

  // A reported range as a span.
  function AsSpan(d: DetectedSpan): Span {
    Span(d.category, d.startByte, d.endByte,
         (if PrivacyFilter in d.detectors then {Model} else {})
         + (if DeterministicDetector in d.detectors then {Deterministic} else {}))
  }

  function AsSpans(spans: seq<DetectedSpan>): seq<Span> {
    seq(|spans|, n requires 0 <= n < |spans| => AsSpan(spans[n]))
  }

  // A reported range names its category and its detectors, in order, by what lies in it, and is no longer than needed.
  ghost predicate ReportedRight(
      text: Text, labels: seq<TokenLabel>, offsets: seq<TokenOffset>, detections: seq<Detection>, d: DetectedSpan)
    requires |labels| == |offsets| && forall d | d in detections :: ValidDetection(text, d)
  {
    && SpanRight(text, labels, offsets, detections, AsSpan(d))
    && d.detectors == (if PrivacyFilter in d.detectors then [PrivacyFilter] else [])
                      + (if DeterministicDetector in d.detectors then [DeterministicDetector] else [])
  }

  lemma ReportIs(s: Span)
    ensures AsSpan(Report(s)) == s
    ensures var names := Report(s).detectors;
            names == (if PrivacyFilter in names then [PrivacyFilter] else [])
                     + (if DeterministicDetector in names then [DeterministicDetector] else [])
  {
    var sources := AsSpan(Report(s)).sources;
    assert Model in sources <==> Model in s.sources;
    assert Deterministic in sources <==> Deterministic in s.sources;
    forall x: Source
      ensures x in sources <==> x in s.sources
    {
      assert x == Model || x == Deterministic;
    }
    assert sources == s.sources;
  }

  lemma ReportsAre(text: Text, union: seq<Span>, spans: seq<DetectedSpan>)
    requires |spans| == |union| && forall n | 0 <= n < |union| :: spans[n] == Report(union[n])
    requires NonEmpty(union) && Disjoint(union) && SpansCut(Cuts(Pieces(text)), union)
    ensures InOrder(text, spans) && AsSpans(spans) == union
    ensures forall i :: Reported(spans, i) <==> Hidden(union, i)
  {
    forall n | 0 <= n < |union|
      ensures AsSpan(spans[n]) == union[n] && union[n] in union
    {
      ReportIs(union[n]);
    }
    forall i
      ensures Reported(spans, i) <==> Hidden(union, i)
    {
      ReportedIsHidden(union, spans, i);
    }
  }

  lemma ReportedIsHidden(union: seq<Span>, spans: seq<DetectedSpan>, i: int)
    requires |spans| == |union| && forall n | 0 <= n < |union| :: spans[n] == Report(union[n])
    ensures Reported(spans, i) <==> Hidden(union, i)
  {
    if Reported(spans, i) {
      var n :| 0 <= n < |spans| && spans[n].startByte <= i < spans[n].endByte;
      assert union[n] in union;
    }
    if s :| s in union && s.start <= i < s.end {
      var n :| 0 <= n < |union| && union[n] == s;
      assert spans[n].startByte <= i < spans[n].endByte;
    }
  }

  // Exactly the characters that touch a tagged token or a detection are reported, and each range rightly.
  ghost predicate ReportsExactly(
      text: Text, labels: seq<TokenLabel>, offsets: seq<TokenOffset>, detections: seq<Detection>,
      spans: seq<DetectedSpan>)
    requires |labels| == |offsets| && forall d | d in detections :: ValidDetection(text, d)
  {
    && (forall i :: Reported(spans, i) <==>
                    TokenHides(Cuts(Pieces(text)), labels, offsets, i) || DetectionHides(text, detections, i))
    && (forall n | 0 <= n < |spans| :: ReportedRight(text, labels, offsets, detections, spans[n]))
  }

  lemma ReportsAreExact(
    text: Text, labels: seq<TokenLabel>, offsets: seq<TokenOffset>, detections: seq<Detection>, union: seq<Span>,
    spans: seq<DetectedSpan>)
    requires |labels| == |offsets| && forall d | d in detections :: ValidDetection(text, d)
    requires |spans| == |union| && forall n | 0 <= n < |union| :: spans[n] == Report(union[n])
    requires forall i :: Reported(spans, i) <==> Hidden(union, i)
    requires HidesExactly(text, labels, offsets, detections, union)
    requires forall o | o in union :: SpanRight(text, labels, offsets, detections, o)
    ensures ReportsExactly(text, labels, offsets, detections, spans)
  {
    forall n | 0 <= n < |spans|
      ensures ReportedRight(text, labels, offsets, detections, spans[n])
    {
      ReportIs(union[n]);
      assert union[n] in union;
    }
  }

  ghost predicate AcceptableRaw(text: Text, raw: Raw) {
    raw.decodedText == text && |raw.logits| == |raw.tokenOffsets| && CoversExactly(raw.tokenOffsets, ByteLength(text))
  }

  /**
    Masks one field, or refuses.

    A masked field is the source with each merged span replaced by its placeholder and every other
    character kept, in order. For a legal labelling, which every bounded input decodes to, a
    character is hidden exactly when it touches a tagged token or a deterministic match, and a span
    is called secret, and names its detectors, exactly by what lies in it. A field whose decoded text,
    lengths or offsets do not match is refused.
   */
  method MaskClassification(text: Text, raw: Raw, detections: seq<Detection>, ghost k: real)
    returns (r: Result<Masked, MaskError>, ghost labels: seq<TokenLabel>)
    requires forall d | d in detections :: ValidDetection(text, d)
    ensures raw.decodedText != text ==> r == Failure(DecodedTextDiffers)
    ensures raw.decodedText == text && |raw.logits| != |raw.tokenOffsets| ==> r == Failure(LengthsDiffer)
    ensures r.Success? ==> AcceptableRaw(text, raw) && WellShaped(raw.logits)
    ensures AcceptableRaw(text, raw) && r.Failure? ==> r.error.NotDecoded?
    ensures (&& AcceptableRaw(text, raw) && WellShaped(raw.logits)
             && BoundedAbove(raw.logits, raw.biases, k) && BoundedBelow(raw.logits, raw.biases, k))
            ==> r.Success?
    ensures r.Success? ==> |labels| == |raw.tokenOffsets|
    ensures r.Success? && raw.logits != [] && BoundedAbove(raw.logits, raw.biases, k) ==>
              Optimal(raw.logits, raw.biases, labels)
    ensures r.Success? ==>
              && InOrder(text, r.value.spans)
              && r.value.bytes == Spliced(ToUtf8(text), AsSpans(r.value.spans), 0)
              && r.value.bytes == MaskUpTo(ToUtf8(text), AsSpans(r.value.spans), |ToUtf8(text)|)
              && Decode(r.value.bytes)
                 == Some(MaskCharacters(Scalars(text), Cuts(Pieces(text)), AsSpans(r.value.spans), |Scalars(text)|))
    ensures r.Success? && LegalLabelling(labels) ==>
              ReportsExactly(text, labels, raw.tokenOffsets, detections, r.value.spans)
  {
    labels := [];
    if raw.decodedText != text {
      return Failure(DecodedTextDiffers), labels;
    }
    if |raw.logits| != |raw.tokenOffsets| {
      return Failure(LengthsDiffer), labels;
    }
    var bad := CheckOffsets(ByteLength(text), raw.tokenOffsets);
    if bad.Some? {
      return Failure(bad.value), labels;
    }
    var decoded := DecodeBioesViterbi(raw.logits, raw.biases, k);
    if decoded.Failure? {
      return Failure(NotDecoded(decoded.error)), labels;
    }
    labels := decoded.value;
    var merged := MergedSpans(text, decoded.value, raw.tokenOffsets, detections);
    MaskedTextDecodes(text, merged);
    var bytes := MaskBytes(ToUtf8(text), merged);
    var spans := seq(|merged|, n requires 0 <= n < |merged| => Report(merged[n]));
    ReportsAre(text, merged, spans);
    if LegalLabelling(labels) {
      ReportsAreExact(text, labels, raw.tokenOffsets, detections, merged, spans);
    }
    return Success(Masked(bytes, spans)), labels;
  }

  method MergedSpans(text: Text, labels: seq<TokenLabel>, offsets: seq<TokenOffset>, detections: seq<Detection>)
    returns (union: seq<Span>)
    requires |labels| == |offsets| && CoversExactly(offsets, ByteLength(text))
    requires forall d | d in detections :: ValidDetection(text, d)
    ensures NonEmpty(union) && Disjoint(union) && SpansCut(Cuts(Pieces(text)), union)
    ensures forall n | 0 <= n < |union| :: union[n].end <= ByteLength(text)
    ensures LegalLabelling(labels) ==>
              && HidesExactly(text, labels, offsets, detections, union)
              && forall o | o in union :: SpanRight(text, labels, offsets, detections, o)
  {
    var spans, runs := ModelSpans(ByteLength(text), labels, offsets);
    RunsInRange(ByteLength(text), labels, offsets, runs, spans.value);
    var widened := WidenSpans(text, spans.value);
    var candidates := widened + DetectionSpans(text, detections);
    CandidatesFit(text, labels, offsets, runs, spans.value, widened, detections);
    union := UnionSpans(candidates);
    UnionStaysOnCuts(Cuts(Pieces(text)), ByteLength(text), candidates, union);
    if LegalLabelling(labels) {
      HidingIsExact(text, labels, offsets, runs, widened, detections, union);
      forall o | o in union
        ensures SpanRight(text, labels, offsets, detections, o)
      {
        LedInside(ByStart(candidates), union, o);
        SpansAreRight(text, labels, offsets, runs, widened, detections, union, o);
      }
    }
  }

  lemma LedInside(sorted: seq<Span>, union: seq<Span>, o: Span)
    requires LedByFirst(sorted, union) && o in union
    ensures Led(sorted, o)
  {
    var k :| 0 <= k < |union| && union[k] == o;
  }

  lemma CandidatesFit(
    text: Text, labels: seq<TokenLabel>, offsets: seq<TokenOffset>, runs: seq<Run>, spans: seq<Span>,
    widened: seq<Span>,
    detections: seq<Detection>)
    requires |labels| == |offsets| && CoversExactly(offsets, ByteLength(text))
    requires Segments(labels, runs) && SpansOfRuns(labels, offsets, runs, spans)
    requires |widened| == |spans|
    requires forall n | 0 <= n < |spans| :: WidenedFrom(Cuts(Pieces(text)), spans[n], widened[n])
    requires forall d | d in detections :: ValidDetection(text, d)
    ensures ModelCandidates(Cuts(Pieces(text)), labels, offsets, runs, widened)
    ensures var candidates := widened + DetectionSpans(text, detections);
            && NonEmpty(candidates) && SpansCut(Cuts(Pieces(text)), candidates)
            && forall c | c in candidates :: c.end <= ByteLength(text)
  {
    CutsLocate(Pieces(text));
    WidenedAreCandidates(Cuts(Pieces(text)), ByteLength(text), labels, offsets, runs, spans, widened);
    DetectionsCut(text, detections);
    assert forall c | c in widened + DetectionSpans(text, detections) ::
      c in widened || c in DetectionSpans(text, detections);
  }
}
