/** Byte offsets of JavaScript ranges, and the table that looks them up. */
module Offsets {
  import opened Wrappers
  import opened Utf8

  datatype TokenOffset = TokenOffset(startByte: int, endByte: int)

  datatype OffsetError = InvalidOffset | SplitSurrogatePair | InvalidByteOffset | InvalidUtf8Range

  predicate ValidByteRange(byteLength: nat, startByte: int, endByte: int) {
    0 <= startByte < endByte <= byteLength
  }

  function CheckJsRange(text: Text, start: int, end: int): Option<OffsetError> {
    if start < 0 || end <= start || end > |text| then Some(InvalidOffset)
    else if start > 0 && IsHigh(text[start - 1]) && IsLow(text[start]) then Some(SplitSurrogatePair)
    else if end < |text| && IsHigh(text[end - 1]) && IsLow(text[end]) then Some(SplitSurrogatePair)
    else None
  }

  // Slices the text and measures both prefixes.
  function Utf8Offsets(text: Text, jsStart: int, jsEnd: int): Result<TokenOffset, OffsetError> {
    var bad := CheckJsRange(text, jsStart, jsEnd);
    if bad.Some? then Failure(bad.value)
    else Success(TokenOffset(ByteLength(text[..jsStart]), ByteLength(text[..jsEnd])))
  }

  type OffsetTable = seq<Option<nat>>

  // The closure returned by createUtf8OffsetLookup; an entry left undefined is an error.
  function Lookup(text: Text, byteOffsets: OffsetTable, jsStart: int, jsEnd: int): Result<TokenOffset, OffsetError>
    requires |byteOffsets| == |text| + 1
  {
    var bad := CheckJsRange(text, jsStart, jsEnd);
    if bad.Some? then Failure(bad.value)
    else if byteOffsets[jsStart].None? || byteOffsets[jsEnd].None? then Failure(InvalidUtf8Range)
    else Success(TokenOffset(byteOffsets[jsStart].value, byteOffsets[jsEnd].value))
  }

  // Defined exactly at the character boundaries, with the bytes before each.
  ghost predicate Tabulates(text: Text, byteOffsets: OffsetTable, upTo: nat) {
    && |byteOffsets| == |text| + 1
    && forall k: nat | k <= |text| ::
         byteOffsets[k] == if k <= upTo && IsBoundary(text, k) then Some(ByteLength(text[..k])) else None
  }

  /** One pass over the characters tabulates every boundary. */
  method CreateUtf8OffsetLookup(text: Text) returns (byteOffsets: OffsetTable)
    ensures Tabulates(text, byteOffsets, |text|)
  {
    byteOffsets := seq(|text| + 1, _ => None);
    byteOffsets := byteOffsets[0 := Some(0)];
    var jsCursor: nat, byteCursor: nat := 0, 0;
    assert text[..0] == [];
    while jsCursor < |text|
      invariant jsCursor <= |text| && IsBoundary(text, jsCursor) && byteCursor == ByteLength(text[..jsCursor])
      invariant Tabulates(text, byteOffsets, jsCursor)
    {
      var length := CharLength(text, jsCursor);
      byteCursor := byteCursor + ByteLength(text[jsCursor..jsCursor + length]);
      TabulateNext(text, byteOffsets, jsCursor, byteCursor);
      jsCursor := jsCursor + length;
      byteOffsets := byteOffsets[jsCursor := Some(byteCursor)];
    }
  }

  lemma TabulateNext(text: Text, byteOffsets: OffsetTable, k: nat, bytes: nat)
    requires k < |text| && IsBoundary(text, k) && Tabulates(text, byteOffsets, k)
    requires bytes == ByteLength(text[..k]) + ByteLength(text[k..k + CharLength(text, k)])
    ensures var next := k + CharLength(text, k);
            && IsBoundary(text, next) && bytes == ByteLength(text[..next])
            && Tabulates(text, byteOffsets[next := Some(bytes)], next)
  {
    Utf8Step(text, k);
    var next := k + CharLength(text, k);
    var updated := byteOffsets[next := Some(bytes)];
    forall i: nat | i <= |text|
      ensures updated[i] == if i <= next && IsBoundary(text, i) then Some(ByteLength(text[..i])) else None
    {
      if i != next {
        assert updated[i] == byteOffsets[i];
        assert k < i < next ==> !IsBoundary(text, i);
      }
    }
  }

  /**
    The precomputed table agrees with slicing and measuring on every range of every text, refusals
    included, and never meets an undefined entry.
   */
  lemma LookupAgrees(text: Text, byteOffsets: OffsetTable, a: int, b: int)
    requires Tabulates(text, byteOffsets, |text|)
    ensures Lookup(text, byteOffsets, a, b) == Utf8Offsets(text, a, b)
    ensures Lookup(text, byteOffsets, a, b) != Failure(InvalidUtf8Range)
  {
    if CheckJsRange(text, a, b).None? {
      assert IsBoundary(text, a) && IsBoundary(text, b);
      assert byteOffsets[a] == Some(ByteLength(text[..a]));
      assert byteOffsets[b] == Some(ByteLength(text[..b]));
    }
  }

  // ----- Widening a byte range to whole characters -----

  // Positions i and j lie in the same character: no boundary separates them.
  ghost predicate SameCharacter(cuts: seq<nat>, i: int, j: int) {
    forall c | 0 <= c < |cuts| :: cuts[c] <= i <==> cuts[c] <= j
  }

  // The character holding position i has a byte in [s, e).
  ghost predicate Touches(cuts: seq<nat>, i: int, s: int, e: int) {
    exists j :: s <= j < e && SameCharacter(cuts, i, j)
  }

  // `r` is the union of the characters that touch [s, e).
  ghost predicate WidensTo(cuts: seq<nat>, s: int, e: int, r: TokenOffset) {
    && r.startByte in cuts && r.endByte in cuts
    && 0 <= r.startByte <= s && e <= r.endByte
    && forall i :: r.startByte <= i < r.endByte <==> Touches(cuts, i, s, e)
  }

  /** Widens [startByte, endByte) to exactly the bytes of the characters it touches. */
  method ExpandToUtf8Boundaries(text: Text, startByte: int, endByte: int)
    returns (r: Result<TokenOffset, OffsetError>)
    ensures r.Success? <==> ValidByteRange(ByteLength(text), startByte, endByte)
    ensures r.Failure? ==> r.error == InvalidByteOffset
    ensures r.Success? ==> WidensTo(Cuts(Pieces(text)), startByte, endByte, r.value)
  {
    if !ValidByteRange(ByteLength(text), startByte, endByte) {
      return Failure(InvalidByteOffset);
    }
    CutsLocate(Pieces(text));
    var boundaries := BoundaryList(Pieces(text));
    r := ExpandWithin(boundaries, startByte, endByte);
  }

  method ExpandWithin(boundaries: seq<nat>, startByte: int, endByte: int)
    returns (r: Result<TokenOffset, OffsetError>)
    requires Increasing(boundaries) && boundaries != [] && boundaries[0] == 0
    requires ValidByteRange(boundaries[|boundaries| - 1], startByte, endByte)
    ensures r.Success? && WidensTo(boundaries, startByte, endByte, r.value)
  {
    var expandedStart := LastAtOrBefore(boundaries, startByte);
    var expandedEnd := FirstAtOrAfter(boundaries, endByte);
    if expandedStart.None? || expandedEnd.None? {
      return Failure(InvalidUtf8Range);
    }
    Widened(boundaries, startByte, endByte, expandedStart.value, expandedEnd.value);
    return Success(TokenOffset(boundaries[expandedStart.value], boundaries[expandedEnd.value]));
  }

  method LastAtOrBefore(boundaries: seq<nat>, s: int) returns (r: Option<nat>)
    ensures r.Some? ==> r.value < |boundaries| && boundaries[r.value] <= s
    ensures r.Some? ==> (r.value + 1 < |boundaries| ==> s < boundaries[r.value + 1])
    ensures r.None? ==> boundaries == [] || s < boundaries[0]
  {
    r := None;
    var n := 0;
    while n < |boundaries| && boundaries[n] <= s
      invariant n <= |boundaries|
      invariant if n == 0 then r == None else r == Some(n - 1) && boundaries[n - 1] <= s
    {
      r := Some(n);
      n := n + 1;
    }
  }

  method FirstAtOrAfter(boundaries: seq<nat>, e: int) returns (r: Option<nat>)
    ensures r.Some? ==> r.value < |boundaries| && e <= boundaries[r.value]
    ensures r.Some? ==> (r.value > 0 ==> boundaries[r.value - 1] < e)
    ensures r.None? ==> boundaries == [] || boundaries[|boundaries| - 1] < e
  {
    var n := 0;
    while n < |boundaries|
      invariant n <= |boundaries|
      invariant n > 0 ==> boundaries[n - 1] < e
    {
      if e <= boundaries[n] {
        return Some(n);
      }
      n := n + 1;
    }
    return None;
  }

  method BoundaryList(pieces: seq<seq<Byte>>) returns (boundaries: seq<nat>)
    ensures boundaries == Cuts(pieces)
  {
    boundaries := [0];
    var byteCursor: nat := 0;
    for c := 0 to |pieces|
      invariant boundaries == Cuts(pieces[..c]) && byteCursor == boundaries[c]
    {
      assert pieces[..c + 1][..c] == pieces[..c];
      byteCursor := byteCursor + |pieces[c]|;
      boundaries := boundaries + [byteCursor];
    }
    assert pieces[..|pieces|] == pieces;
  }

  // n is the last boundary at or before s, m the first at or after e.
  lemma Widened(cuts: seq<nat>, s: int, e: int, n: nat, m: nat)
    requires Increasing(cuts) && s < e
    requires n < |cuts| && cuts[n] <= s && (n + 1 < |cuts| ==> s < cuts[n + 1])
    requires m < |cuts| && e <= cuts[m] && (m > 0 ==> cuts[m - 1] < e)
    ensures forall i :: cuts[n] <= i < cuts[m] <==> Touches(cuts, i, s, e)
  {
    forall i | cuts[n] <= i < cuts[m]
      ensures Touches(cuts, i, s, e)
    {
      var j := if i < s then s else if i < e then i else e - 1;
      forall c | 0 <= c < |cuts|
        ensures cuts[c] <= i <==> cuts[c] <= j
      {
        assert c <= n || cuts[n + 1] <= cuts[c];
        assert m <= c || cuts[c] <= cuts[m - 1];
      }
      assert SameCharacter(cuts, i, j);
    }
  }
}
