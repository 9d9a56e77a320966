/**
  Sliding-window inference over one prepared field, and the offsets of byte-level vocabulary tokens.

  A field is cut into cores of 256 tokens; each core is inferred inside a window that adds up to 128
  tokens of context on either side, and only the core's rows are kept.
 */
module Windowing {
  import opened Wrappers
  import opened Sequences
  import opened Offsets
  import opened Utf8

  const WINDOW_CORE_TOKENS := 256
  const WINDOW_CONTEXT_TOKENS := 128
  const WINDOW_MAX_TOKENS := 512

  datatype WindowError = RowsDoNotMatch

  // ----- Windows -----

  predicate IsCoreStart(start: int, length: nat) {
    0 <= start < length && start % WINDOW_CORE_TOKENS == 0
  }

  function CoreEnd(start: int, length: nat): int {
    Min(length, start + WINDOW_CORE_TOKENS)
  }

  function WindowStart(start: int): int {
    Max(0, start - WINDOW_CONTEXT_TOKENS)
  }

  function WindowEnd(start: int, length: nat): int {
    Min(length, CoreEnd(start, length) + WINDOW_CONTEXT_TOKENS)
  }

  function Window(tokens: seq<nat>, start: int): (w: seq<nat>)
    requires 0 <= start < |tokens|
    ensures 1 <= |w| <= WINDOW_MAX_TOKENS
  {
    tokens[WindowStart(start)..WindowEnd(start, |tokens|)]
  }

  // The start of the core that holds token i.
  function CoreOf(i: nat): (start: nat)
    ensures start <= i < start + WINDOW_CORE_TOKENS && start % WINDOW_CORE_TOKENS == 0
  {
    i - i % WINDOW_CORE_TOKENS
  }

  lemma OneCore(i: nat, start: nat)
    requires start % WINDOW_CORE_TOKENS == 0 && start <= i < start + WINDOW_CORE_TOKENS
    ensures CoreOf(i) == start
  {
  }

  /**
    The window that gives the row of token i: the 256 tokens of its core, up to 128 before and 128 behind them,
    each in its place, and never more than 512.
   */
  lemma WindowReaches(tokens: seq<nat>, i: nat, j: nat)
    requires i < |tokens| && j < |tokens|
    ensures var core, from, w := 256 * (i / 256), WindowStart(CoreOf(i)), Window(tokens, CoreOf(i));
            && |w| <= 512 && 0 <= from <= i < from + |w|
            && (from <= j < from + |w| <==> core - 128 <= j < core + 384)
            && (from <= j < from + |w| ==> w[j - from] == tokens[j])
  {
    assert i == 256 * (i / 256) + i % 256;
  }

  predicate Matches<Row>(infer: seq<nat> -> seq<Row>, window: seq<nat>) {
    |infer(window)| == |window|
  }

  // The row of token i in the window around its core.
  function RowFrom<Row>(infer: seq<nat> -> seq<Row>, tokens: seq<nat>, i: nat): Row
    requires i < |tokens| && Matches(infer, Window(tokens, CoreOf(i)))
  {
    infer(Window(tokens, CoreOf(i)))[i - WindowStart(CoreOf(i))]
  }

  // The rows of the first tokens, each from the window whose core holds that token.
  ghost predicate RowsKept<Row>(infer: seq<nat> -> seq<Row>, tokens: seq<nat>, rows: seq<Row>) {
    && |rows| <= |tokens|
    && forall i | 0 <= i < |rows| :: Matches(infer, Window(tokens, CoreOf(i))) && rows[i] == RowFrom(infer, tokens, i)
  }

  lemma CoreKept<Row>(infer: seq<nat> -> seq<Row>, tokens: seq<nat>, rows: seq<Row>, start: nat)
    requires IsCoreStart(start, |tokens|) && RowsKept(infer, tokens, rows) && |rows| == start
    requires Matches(infer, Window(tokens, start))
    ensures var from := start - WindowStart(start); var size := CoreEnd(start, |tokens|) - start;
            RowsKept(infer, tokens, rows + infer(Window(tokens, start))[from..from + size])
  {
    var from, size := start - WindowStart(start), CoreEnd(start, |tokens|) - start;
    var more := infer(Window(tokens, start))[from..from + size];
    forall i | 0 <= i < start + size
      ensures Matches(infer, Window(tokens, CoreOf(i))) && (rows + more)[i] == RowFrom(infer, tokens, i)
    {
      if i >= start {
        OneCore(i, start);
        assert (rows + more)[i] == more[i - start];
      }
    }
  }

  // The windows of the cores before this position come back with a row per token.
  ghost predicate MatchesBefore<Row>(infer: seq<nat> -> seq<Row>, tokens: seq<nat>, end: int) {
    forall start | IsCoreStart(start, |tokens|) && start < end :: Matches(infer, Window(tokens, start))
  }

  lemma MatchesNext<Row>(infer: seq<nat> -> seq<Row>, tokens: seq<nat>, coreStart: int)
    requires IsCoreStart(coreStart, |tokens|) && MatchesBefore(infer, tokens, coreStart)
    requires Matches(infer, Window(tokens, coreStart))
    ensures MatchesBefore(infer, tokens, coreStart + WINDOW_CORE_TOKENS)
  {
    forall start | IsCoreStart(start, |tokens|) && start < coreStart + WINDOW_CORE_TOKENS
      ensures Matches(infer, Window(tokens, start))
    {
      if start >= coreStart {
        OneCore(start, coreStart);
        OneCore(start, start);
      }
    }
  }

  /**
    One row per token, each from the window whose core holds that token; an error exactly when some
    window's inference returns a different number of rows than the window has tokens.
   */
  method ClassifyPrepared<Row>(infer: seq<nat> -> seq<Row>, tokens: seq<nat>) returns (r: Result<seq<Row>, WindowError>)
    ensures r.Success? <==> forall start | IsCoreStart(start, |tokens|) :: Matches(infer, Window(tokens, start))
    ensures r.Success? ==> |r.value| == |tokens| && RowsKept(infer, tokens, r.value)
  {
    var logits: seq<Row> := [];
    var coreStart := 0;
    while coreStart < |tokens|
      invariant 0 <= coreStart && coreStart % WINDOW_CORE_TOKENS == 0 && |logits| == Min(coreStart, |tokens|)
      invariant MatchesBefore(infer, tokens, coreStart) && RowsKept(infer, tokens, logits)
    {
      var coreEnd := Min(|tokens|, coreStart + WINDOW_CORE_TOKENS);
      var windowStart := Max(0, coreStart - WINDOW_CONTEXT_TOKENS);
      var windowEnd := Min(|tokens|, coreEnd + WINDOW_CONTEXT_TOKENS);
      var windowIds := tokens[windowStart..windowEnd];
      var windowLogits := infer(windowIds);
      assert windowIds == Window(tokens, coreStart);
      if |windowLogits| != |windowIds| {
        assert !Matches(infer, Window(tokens, coreStart));
        return Failure(RowsDoNotMatch);
      }
      var retainedStart := coreStart - windowStart;
      CoreKept(infer, tokens, logits, coreStart);
      MatchesNext(infer, tokens, coreStart);
      logits := logits + windowLogits[retainedStart..retainedStart + (coreEnd - coreStart)];
      coreStart := coreStart + WINDOW_CORE_TOKENS;
    }
    r := Success(logits);
  }

  // ----- Windows change nothing for a model with a bounded reach -----

  // What a row may depend on: the tokens within the context radius, and how far the ends are inside it.
  function Surroundings(tokens: seq<nat>, i: nat): (seq<nat>, seq<nat>)
    requires i < |tokens|
  {
    (tokens[Max(0, i - WINDOW_CONTEXT_TOKENS)..i], tokens[i..Min(|tokens|, i + WINDOW_CONTEXT_TOKENS + 1)])
  }

  ghost predicate SameRow<Row>(infer: seq<nat> -> seq<Row>, a: seq<nat>, i: nat, b: seq<nat>, j: nat)
    requires i < |a| && j < |b|
  {
    && Matches(infer, a) && Matches(infer, b)
    && (Surroundings(a, i) == Surroundings(b, j) ==> infer(a)[i] == infer(b)[j])
  }

  // One row per token, and equal rows for tokens with equal surroundings.
  ghost predicate Local<Row>(infer: seq<nat> -> seq<Row>) {
    forall a: seq<nat>, b: seq<nat>, i: nat, j: nat {:trigger SameRow(infer, a, i, b, j)} |
      i < |a| && j < |b| :: SameRow(infer, a, i, b, j)
  }

  lemma Slice(tokens: seq<nat>, a: nat, b: nat, c: nat, d: nat)
    requires a <= b <= |tokens| && c <= d <= b - a
    ensures tokens[a..b][c..d] == tokens[a + c..a + d]
  {
    assert forall k | 0 <= k < d - c :: tokens[a..b][c..d][k] == tokens[a + c..a + d][k];
  }

  lemma SameSurroundings(tokens: seq<nat>, i: nat)
    requires i < |tokens|
    ensures var start := CoreOf(i); var w := Window(tokens, start);
            && WindowStart(start) <= i && i - WindowStart(start) < |w|
            && Surroundings(w, i - WindowStart(start)) == Surroundings(tokens, i)
  {
    var start := CoreOf(i);
    var from, w := WindowStart(start), Window(tokens, start);
    var j := i - from;
    Slice(tokens, from, WindowEnd(start, |tokens|), Max(0, j - WINDOW_CONTEXT_TOKENS), j);
    Slice(tokens, from, WindowEnd(start, |tokens|), j, Min(|w|, j + WINDOW_CONTEXT_TOKENS + 1));
  }

  // For a model whose reach is the context radius, the windowed rows are those of the whole field.
  lemma WindowsAgreeWithWhole<Row>(infer: seq<nat> -> seq<Row>, tokens: seq<nat>, i: nat)
    requires Local(infer) && i < |tokens|
    ensures |infer(tokens)| == |tokens| && Matches(infer, Window(tokens, CoreOf(i)))
        && RowFrom(infer, tokens, i) == infer(tokens)[i]
  {
    SameSurroundings(tokens, i);
    assert SameRow(infer, Window(tokens, CoreOf(i)), i - WindowStart(CoreOf(i)), tokens, i);
  }

  method ClassifyLocally<Row>(infer: seq<nat> -> seq<Row>, tokens: seq<nat>) returns (r: Result<seq<Row>, WindowError>)
    requires Local(infer) && tokens != []
    ensures r == Success(infer(tokens))
  {
    r := ClassifyPrepared(infer, tokens);
    forall start | IsCoreStart(start, |tokens|)
      ensures Matches(infer, Window(tokens, start))
    {
      OneCore(start, start);
      WindowsAgreeWithWhole(infer, tokens, start);
    }
    forall i | 0 <= i < |tokens|
      ensures |infer(tokens)| == |tokens| && r.value[i] == infer(tokens)[i]
    {
      WindowsAgreeWithWhole(infer, tokens, i);
    }
    WindowsAgreeWithWhole(infer, tokens, 0);
    assert r.value == infer(tokens);
  }

  // ----- Offsets of byte-level vocabulary tokens -----

  datatype VocabularyError = OmittedToken | UnsupportedToken | EmptyToken | BytesDoNotMatch

  // What the vocabulary says about a token id: nothing, a value with an unknown character, or its bytes.
  datatype Entry = Missing | Unsupported | Bytes(bytes: seq<Byte>)

  predicate Usable(e: Entry) {
    e.Bytes? && e.bytes != []
  }

  // The bytes of the first n tokens.
  function Spelled(vocabulary: nat -> Entry, tokenIds: seq<nat>, n: nat): seq<Byte>
    requires n <= |tokenIds|
  {
    if n == 0 then []
    else
      var entry := vocabulary(tokenIds[n - 1]);
      Spelled(vocabulary, tokenIds, n - 1) + if entry.Bytes? then entry.bytes else []
  }

  predicate AllUsable(vocabulary: nat -> Entry, tokenIds: seq<nat>, n: nat)
    requires n <= |tokenIds|
  {
    forall k | 0 <= k < n :: Usable(vocabulary(tokenIds[k]))
  }

  predicate OffsetsSpell(vocabulary: nat -> Entry, tokenIds: seq<nat>, offsets: seq<TokenOffset>) {
    && |offsets| <= |tokenIds|
    && forall k | 0 <= k < |offsets| ::
         offsets[k] == TokenOffset(|Spelled(vocabulary, tokenIds, k)|, |Spelled(vocabulary, tokenIds, k + 1)|)
  }

  lemma NextToken(vocabulary: nat -> Entry, tokenIds: seq<nat>, offsets: seq<TokenOffset>, cursor: int)
    requires OffsetsSpell(vocabulary, tokenIds, offsets) && |offsets| < |tokenIds|
    requires Usable(vocabulary(tokenIds[|offsets|]))
    requires cursor == |Spelled(vocabulary, tokenIds, |offsets|)|
    ensures var bytes := vocabulary(tokenIds[|offsets|]).bytes;
            && OffsetsSpell(vocabulary, tokenIds, offsets + [TokenOffset(cursor, cursor + |bytes|)])
            && Spelled(vocabulary, tokenIds, |offsets| + 1) == Spelled(vocabulary, tokenIds, |offsets|) + bytes
  {
  }

  /**
    It fails exactly when a token has no bytes or the tokens together do not spell the source;
    otherwise each token gets the place of its bytes.
   */
  method VocabularyTokenOffsets(vocabulary: nat -> Entry, tokenIds: seq<nat>, source: seq<Byte>)
    returns (r: Result<seq<TokenOffset>, VocabularyError>)
    ensures r.Success? <==>
              AllUsable(vocabulary, tokenIds, |tokenIds|) && Spelled(vocabulary, tokenIds, |tokenIds|) == source
    ensures r.Success? ==> |r.value| == |tokenIds| && OffsetsSpell(vocabulary, tokenIds, r.value)
  {
    var decoded: seq<Byte> := [];
    var offsets: seq<TokenOffset> := [];
    var cursor := 0;
    for n := 0 to |tokenIds|
      invariant cursor == |decoded| && |offsets| == n && AllUsable(vocabulary, tokenIds, n)
      invariant decoded == Spelled(vocabulary, tokenIds, n)
      invariant OffsetsSpell(vocabulary, tokenIds, offsets)
    {
      var entry := vocabulary(tokenIds[n]);
      if entry.Missing? {
        return Failure(OmittedToken);
      }
      if entry.Unsupported? {
        return Failure(UnsupportedToken);
      }
      if entry.bytes == [] {
        return Failure(EmptyToken);
      }
      NextToken(vocabulary, tokenIds, offsets, cursor);
      decoded := decoded + entry.bytes;
      offsets := offsets + [TokenOffset(cursor, cursor + |entry.bytes|)];
      cursor := cursor + |entry.bytes|;
    }
    if decoded != source {
      return Failure(BytesDoNotMatch);
    }
    r := Success(offsets);
  }

  lemma {:induction false} SpelledPrefix(vocabulary: nat -> Entry, tokenIds: seq<nat>, k: nat, n: nat)
    requires k <= n <= |tokenIds|
    ensures Spelled(vocabulary, tokenIds, k) <= Spelled(vocabulary, tokenIds, n)
  {
    if k < n {
      SpelledPrefix(vocabulary, tokenIds, k, n - 1);
    }
  }

  lemma Middle(before: seq<Byte>, own: seq<Byte>, whole: seq<Byte>)
    requires before + own <= whole
    ensures |before| + |own| <= |whole| && whole[|before|..|before| + |own|] == own
  {
    assert whole[..|before| + |own|] == before + own;
  }

  /**
    The offsets tile the source: they start at its first byte, end at its last, each begins where the
    one before it ended, none is empty, and each spells its own token.
   */
  lemma OffsetsTile(vocabulary: nat -> Entry, tokenIds: seq<nat>, source: seq<Byte>, k: nat)
    requires k < |tokenIds| && AllUsable(vocabulary, tokenIds, |tokenIds|)
    requires Spelled(vocabulary, tokenIds, |tokenIds|) == source
    ensures var from, to := |Spelled(vocabulary, tokenIds, k)|, |Spelled(vocabulary, tokenIds, k + 1)|;
            && (k == 0 ==> from == 0) && (k == |tokenIds| - 1 ==> to == |source|)
            && from < to <= |source| && source[from..to] == vocabulary(tokenIds[k]).bytes
  {
    SpelledPrefix(vocabulary, tokenIds, k + 1, |tokenIds|);
    assert Usable(vocabulary(tokenIds[k]));
    Middle(Spelled(vocabulary, tokenIds, k), vocabulary(tokenIds[k]).bytes, source);
  }
}
