/**
  JavaScript text as UTF-16 code units, its characters, and its UTF-8 bytes.

  A character is a surrogate pair or a single unit; a unit that is a lone surrogate is written as
  U+FFFD, as Buffer does.
 */
module Utf8 {
  import opened Wrappers
  import opened Sequences

  type CodeUnit = u: int | 0 <= u < 0x10000
  type Byte = b: int | 0 <= b < 0x100
  type Text = seq<CodeUnit>

  predicate IsHigh(u: int) { 0xD800 <= u < 0xDC00 }

  predicate IsLow(u: int) { 0xDC00 <= u < 0xE000 }

  // for (const character of text): the number of units of the character at position i.
  function CharLength(text: Text, i: nat): (n: nat)
    requires i < |text|
    ensures 1 <= n <= 2 && i + n <= |text|
  {
    if i + 1 < |text| && IsHigh(text[i]) && IsLow(text[i + 1]) then 2 else 1
  }

  type Scalar = p: int | 0 <= p < 0xD800 || 0xE000 <= p < 0x110000

  function ScalarOf(character: Text): Scalar {
    if |character| == 2 && IsHigh(character[0]) && IsLow(character[1]) then
      var (high: int, low: int) := (character[0], character[1]);
      0x10000 + (high - 0xD800) * 0x400 + (low - 0xDC00)
    else if |character| == 1 && !IsHigh(character[0]) && !IsLow(character[0]) then
      character[0]
    else
      0xFFFD
  }

  function Encode(p: Scalar): (bytes: seq<Byte>)
    ensures 1 <= |bytes| <= 4
  {
    if p < 0x80 then [p]
    else if p < 0x800 then [0xC0 + p / 0x40, 0x80 + p % 0x40]
    else if p < 0x10000 then [0xE0 + p / 0x1000, 0x80 + p / 0x40 % 0x40, 0x80 + p % 0x40]
    else [0xF0 + p / 0x40000, 0x80 + p / 0x1000 % 0x40, 0x80 + p / 0x40 % 0x40, 0x80 + p % 0x40]
  }

  function Characters(text: Text): seq<Text> {
    if text == [] then []
    else
      var n := CharLength(text, 0);
      [text[..n]] + Characters(text[n..])
  }

  // The UTF-8 bytes of each character, in order.
  function Pieces(text: Text): (pieces: seq<seq<Byte>>)
    ensures |pieces| == |Characters(text)|
    ensures forall c | 0 <= c < |pieces| :: pieces[c] != []
  {
    var characters := Characters(text);
    seq(|characters|, c requires 0 <= c < |characters| => Encode(ScalarOf(characters[c])))
  }

  function ToUtf8(text: Text): seq<Byte> {
    Flatten(Pieces(text))
  }

  function ByteLength(text: Text): nat {
    |ToUtf8(text)|
  }

  // Position k of the text does not fall inside a surrogate pair.
  predicate IsBoundary(text: Text, k: nat)
    requires k <= |text|
  {
    !(0 < k < |text| && IsHigh(text[k - 1]) && IsLow(text[k]))
  }

  // The first character of a text is the first character of every prefix that ends at a later boundary.
  lemma FirstCharacter(text: Text, k: nat)
    requires 0 < k <= |text| && IsBoundary(text, k)
    ensures var n := CharLength(text, 0);
            && n <= k && CharLength(text[..k], 0) == n && text[..k][..n] == text[..n]
            && text[n..][..k - n] == text[..k][n..] && text[n..][k - n..] == text[k..]
            && IsBoundary(text[n..], k - n)
  {
  }

  lemma {:induction false} CharactersSplit(text: Text, k: nat)
    requires k <= |text| && IsBoundary(text, k)
    ensures Characters(text) == Characters(text[..k]) + Characters(text[k..])
  {
    if k > 0 {
      FirstCharacter(text, k);
      CharactersSplit(text[CharLength(text, 0)..], k - CharLength(text, 0));
    } else {
      assert text[..0] == [] && text[0..] == text;
    }
  }

  lemma PiecesSplit(text: Text, k: nat)
    requires k <= |text| && IsBoundary(text, k)
    ensures Pieces(text) == Pieces(text[..k]) + Pieces(text[k..])
  {
    CharactersSplit(text, k);
  }

  /** Encoding splits at every boundary. */
  lemma Utf8Split(text: Text, k: nat)
    requires k <= |text| && IsBoundary(text, k)
    ensures ToUtf8(text) == ToUtf8(text[..k]) + ToUtf8(text[k..])
  {
    PiecesSplit(text, k);
    FlattenAppend(Pieces(text[..k]), Pieces(text[k..]));
  }

  /** One more character adds its own bytes. */
  lemma Utf8Step(text: Text, k: nat)
    requires k < |text| && IsBoundary(text, k)
    ensures IsBoundary(text, k + CharLength(text, k))
    ensures ByteLength(text[..k + CharLength(text, k)])
            == ByteLength(text[..k]) + ByteLength(text[k..k + CharLength(text, k)])
  {
    var front := text[..k + CharLength(text, k)];
    assert front[..k] == text[..k] && front[k..] == text[k..k + CharLength(text, k)];
    Utf8Split(front, k);
  }

  // ----- Byte positions of the character boundaries -----

  function Cuts(pieces: seq<seq<Byte>>): (cuts: seq<nat>)
    ensures |cuts| == |pieces| + 1
  {
    if pieces == [] then [0]
    else
      var last := |pieces| - 1;
      var front := Cuts(pieces[..last]);
      front + [front[last] + |pieces[last]|]
  }

  ghost predicate Increasing(cuts: seq<nat>) {
    forall c, d | 0 <= c < d < |cuts| :: cuts[c] < cuts[d]
  }

  // Piece c occupies the bytes between boundaries c and c + 1.
  ghost predicate Occupies(bytes: seq<Byte>, cuts: seq<nat>, piece: seq<Byte>, c: nat)
    requires c + 1 < |cuts|
  {
    cuts[c] <= cuts[c + 1] <= |bytes| && bytes[cuts[c]..cuts[c + 1]] == piece
  }

  lemma IncreasingMore(cuts: seq<nat>, cut: nat)
    requires Increasing(cuts) && cuts != [] && cut > cuts[|cuts| - 1]
    ensures Increasing(cuts + [cut])
  {
  }

  lemma OccupiesStill(bytes: seq<Byte>, cuts: seq<nat>, piece: seq<Byte>, c: nat, more: seq<Byte>)
    requires c + 1 < |cuts| && Occupies(bytes, cuts, piece, c)
    ensures Occupies(bytes + more, cuts + [cuts[|cuts| - 1] + |more|], piece, c)
  {
  }

  lemma OccupiesLast(bytes: seq<Byte>, cuts: seq<nat>, piece: seq<Byte>)
    requires cuts != [] && cuts[|cuts| - 1] == |bytes|
    ensures Occupies(bytes + piece, cuts + [cuts[|cuts| - 1] + |piece|], piece, |cuts| - 1)
  {
  }

  /** The boundary list rises from 0 to the length, and cuts the bytes back into the pieces. */
  lemma {:induction false} CutsLocate(pieces: seq<seq<Byte>>)
    requires forall c | 0 <= c < |pieces| :: pieces[c] != []
    ensures Increasing(Cuts(pieces)) && Cuts(pieces)[0] == 0 && Cuts(pieces)[|pieces|] == |Flatten(pieces)|
    ensures forall c | 0 <= c < |pieces| :: Occupies(Flatten(pieces), Cuts(pieces), pieces[c], c)
  {
    if pieces != [] {
      var last := |pieces| - 1;
      var front := pieces[..last];
      CutsLocate(front);
      FlattenLast(pieces);
      IncreasingMore(Cuts(front), Cuts(front)[last] + |pieces[last]|);
      forall c | 0 <= c < |pieces|
        ensures Occupies(Flatten(pieces), Cuts(pieces), pieces[c], c)
      {
        if c < last {
          OccupiesStill(Flatten(front), Cuts(front), front[c], c, pieces[last]);
        } else {
          OccupiesLast(Flatten(front), Cuts(front), pieces[last]);
        }
      }
    }
  }

  // ----- Reading UTF-8 back -----

  // ----- The scalar values spell the text -----

  // The UTF-16 code units of a scalar value.
  function Units(p: Scalar): (units: seq<CodeUnit>)
    ensures 1 <= |units| <= 2
  {
    if p < 0x10000 then [p] else [0xD800 + (p - 0x10000) / 0x400, 0xDC00 + (p - 0x10000) % 0x400]
  }

  // A surrogate that is not half of a pair.
  predicate Lone(text: Text, i: nat)
    requires i < |text|
  {
    || (IsHigh(text[i]) && (i + 1 == |text| || !IsLow(text[i + 1])))
    || (IsLow(text[i]) && (i == 0 || !IsHigh(text[i - 1])))
  }

  // The scalar values of the characters, written as code units again.
  function Respelled(characters: seq<Text>): seq<CodeUnit> {
    if characters == [] then [] else Units(ScalarOf(characters[0])) + Respelled(characters[1..])
  }

  lemma FirstUnits(text: Text)
    requires text != []
    ensures var n := CharLength(text, 0);
            && |Units(ScalarOf(text[..n]))| == n
            && forall i | 0 <= i < n :: Units(ScalarOf(text[..n]))[i] == if Lone(text, i) then 0xFFFD else text[i]
  {
    if CharLength(text, 0) == 2 {
      PairUnits(text[0], text[1]);
      assert text[..2] == [text[0], text[1]];
    } else {
      assert text[..1] == [text[0]];
    }
  }

  lemma PairUnits(high: CodeUnit, low: CodeUnit)
    requires IsHigh(high) && IsLow(low)
    ensures Units(ScalarOf([high, low])) == [high, low]
  {
    var p: int := ScalarOf([high, low]);
    assert p - 0x10000 == (high - 0xD800) * 0x400 + (low - 0xDC00);
  }

  lemma LoneBehind(text: Text, i: nat)
    requires text != [] && CharLength(text, 0) <= i < |text|
    ensures Lone(text[CharLength(text, 0)..], i - CharLength(text, 0)) <==> Lone(text, i)
  {
  }

  /** The scalar values spell the text, unit for unit, with every lone surrogate replaced by U+FFFD. */
  lemma {:induction false} CharactersSpell(text: Text, i: nat)
    ensures |Respelled(Characters(text))| == |text|
    ensures i < |text| ==> Respelled(Characters(text))[i] == if Lone(text, i) then 0xFFFD else text[i]
  {
    if text != [] {
      var n := CharLength(text, 0);
      var first := Units(ScalarOf(text[..n]));
      FirstUnits(text);
      CharactersSpell(text[n..], if i < n then 0 else i - n);
      assert Characters(text)[0] == text[..n] && Characters(text)[1..] == Characters(text[n..]);
      assert Respelled(Characters(text)) == first + Respelled(Characters(text[n..]));
      if n <= i < |text| {
        LoneBehind(text, i);
      }
    }
  }

  // The encodings of a list of scalar values.
  function EncodeEach(points: seq<Scalar>): (pieces: seq<seq<Byte>>)
    ensures |pieces| == |points|
  {
    seq(|points|, i requires 0 <= i < |points| => Encode(points[i]))
  }

  predicate Continuation(b: Byte) { 0x80 <= b < 0xC0 }

  // The value and length of the well-formed sequence at the front, if there is one.
  function DecodeHead(bytes: seq<Byte>): (r: Option<(int, nat)>)
    ensures r.Some? ==> 1 <= r.value.1 <= |bytes|
  {
    var n := |bytes|;
    if n >= 1 && bytes[0] < 0x80 then
      Some((bytes[0], 1))
    else if n >= 2 && 0xC2 <= bytes[0] < 0xE0 && Continuation(bytes[1]) then
      Some(((bytes[0] as int - 0xC0) * 0x40 + (bytes[1] as int - 0x80), 2))
    else if n >= 3 && 0xE0 <= bytes[0] < 0xF0 && Continuation(bytes[1]) && Continuation(bytes[2]) then
      Some(((bytes[0] as int - 0xE0) * 0x1000 + (bytes[1] as int - 0x80) * 0x40 + (bytes[2] as int - 0x80), 3))
    else if n >= 4 && 0xF0 <= bytes[0] < 0xF5 && Continuation(bytes[1]) && Continuation(bytes[2])
         && Continuation(bytes[3]) then
      Some(((bytes[0] as int - 0xF0) * 0x40000 + (bytes[1] as int - 0x80) * 0x1000 + (bytes[2] as int - 0x80) * 0x40
            + (bytes[3] as int - 0x80), 4))
    else
      None
  }

  function Decode(bytes: seq<Byte>): Option<seq<int>> {
    if bytes == [] then Some([])
    else
      var head := DecodeHead(bytes);
      if head.None? then None
      else
        var rest := Decode(bytes[head.value.1..]);
        if rest.None? then None else Some([head.value.0] + rest.value)
  }

  lemma Digits(q: int)
    requires 0 <= q < 0x110000
    ensures q == q / 0x40 * 0x40 + q % 0x40
    ensures q / 0x40 == q / 0x1000 * 0x40 + q / 0x40 % 0x40
    ensures q / 0x1000 == q / 0x40000 * 0x40 + q / 0x1000 % 0x40
  {
    assert q / 0x1000 == q / 0x40 / 0x40;
    assert q / 0x40000 == q / 0x1000 / 0x40;
  }

  lemma DecodeHeadEncode(p: Scalar, rest: seq<Byte>)
    ensures DecodeHead(Encode(p) + rest) == Some((p, |Encode(p)|))
  {
    Digits(p);
    var bytes := Encode(p) + rest;
    assert bytes[..|Encode(p)|] == Encode(p);
    assert forall i | 0 <= i < |Encode(p)| :: bytes[i] == Encode(p)[i];
  }

  lemma DecodeCons(p: Scalar, tail: seq<Byte>, points: seq<Scalar>)
    requires Decode(tail) == Some(points)
    ensures Decode(Encode(p) + tail) == Some([p] + points)
  {
    DecodeHeadEncode(p, tail);
    var head := Encode(p);
    assert (head + tail)[|head|..] == tail;
  }

  ghost predicate ReadsBack(points: seq<Scalar>) {
    Decode(Flatten(EncodeEach(points))) == Some(points)
  }

  lemma ReadsOneMore(p: Scalar, rest: seq<Scalar>)
    requires ReadsBack(rest)
    ensures ReadsBack([p] + rest)
  {
    DecodeCons(p, Flatten(EncodeEach(rest)), rest);
    assert EncodeEach([p] + rest) == [Encode(p)] + EncodeEach(rest);
    FlattenAppend([Encode(p)], EncodeEach(rest));
    FlattenOne(Encode(p));
  }

  /** Encoding is lossless: the bytes of any scalar values read back as those values. */
  lemma {:induction false} DecodeEncode(points: seq<Scalar>)
    ensures ReadsBack(points)
  {
    if points != [] {
      DecodeEncode(points[1..]);
      ReadsOneMore(points[0], points[1..]);
      assert points == [points[0]] + points[1..];
    }
  }

  lemma {:induction false} CutsPrefix(a: seq<seq<Byte>>, b: seq<seq<Byte>>)
    ensures Cuts(a + b)[|a|] == |Flatten(a)|
    decreases |a| + |b|
  {
    if b == [] {
      assert a + b == a;
      if a != [] {
        var last := |a| - 1;
        CutsPrefix(a[..last], []);
        FlattenLast(a);
        assert a[..last] + [] == a[..last];
      }
    } else {
      var last := |b| - 1;
      CutsPrefix(a, b[..last]);
      assert (a + b)[..|a| + last] == a + b[..last];
    }
  }

  /** The bytes before a character boundary of the text end at a boundary of its bytes. */
  lemma PrefixIsCut(text: Text, k: nat)
    requires k <= |text| && IsBoundary(text, k)
    ensures ByteLength(text[..k]) in Cuts(Pieces(text)) && ByteLength(text[..k]) <= ByteLength(text)
  {
    PiecesSplit(text, k);
    CutsPrefix(Pieces(text[..k]), Pieces(text[k..]));
    FlattenAppend(Pieces(text[..k]), Pieces(text[k..]));
  }

  /** Longer prefixes have more bytes. */
  lemma PrefixGrows(text: Text, a: nat, b: nat)
    requires a < b <= |text| && IsBoundary(text, a)
    ensures ByteLength(text[..a]) < ByteLength(text[..b])
  {
    var front := text[..b];
    assert front[..a] == text[..a];
    Utf8Split(front, a);
    assert front[a..] != [];
    var pieces := Pieces(front[a..]);
    assert pieces != [];
    FlattenLonger(pieces);
  }

  lemma FlattenLonger(pieces: seq<seq<Byte>>)
    requires pieces != [] && forall c | 0 <= c < |pieces| :: pieces[c] != []
    ensures Flatten(pieces) != []
  {
  }
}
