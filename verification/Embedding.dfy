/**
  Embedding of texts: cut into chunks the model can take, gathered into batches, and answered in order.

  Tokenization, detokenization and the model are parameters.
 */
module Embedding {
  import opened Wrappers
  import opened Sequences

  datatype Config = Config(nBatch: int, nUbatch: int, headroom: int, maxTokens: int, nCtx: int, dimensions: nat)

  datatype Chunk = Chunk(inputIndex: nat, chunkIndex: nat, chunkCount: nat, text: string, tokenCount: nat)

  datatype ChunkText = ChunkText(text: string, tokenCount: nat)

  type Vector = seq<real>

  datatype EmbeddedChunk = EmbeddedChunk(chunk: Chunk, vector: Vector)

  datatype EmbedError = UnexpectedCount | UnexpectedDimensions

  function BatchTokenLimit(c: Config): (limit: nat)
    ensures limit >= 1
  {
    Max(1, Min(c.nBatch, c.nUbatch) - Max(0, c.headroom))
  }

  function ChunkTokens(c: Config): (limit: nat)
    ensures 1 <= limit <= BatchTokenLimit(c)
  {
    Max(1, Min(Min(c.maxTokens, c.nCtx), BatchTokenLimit(c)))
  }

  // The room that is kept free in every batch.
  function Reserve(c: Config): nat {
    if c.headroom > 0 then c.headroom else 0
  }

  /** A full batch and the headroom just fit what the model takes at once; without room for that the limit is one. */
  lemma LimitIs(c: Config)
    ensures var limit := BatchTokenLimit(c);
            if c.nBatch <= Reserve(c) || c.nUbatch <= Reserve(c) then limit == 1
            else
              && limit + Reserve(c) <= c.nBatch && limit + Reserve(c) <= c.nUbatch
              && (limit + Reserve(c) == c.nBatch || limit + Reserve(c) == c.nUbatch)
  {
  }

  // A chunk is as long as the configuration, the context and a batch allow, and no longer.
  lemma ChunkTokensAre(c: Config)
    ensures var size := ChunkTokens(c);
            if c.maxTokens < 1 || c.nCtx < 1 then size == 1
            else
              && size <= c.maxTokens && size <= c.nCtx && size <= BatchTokenLimit(c)
              && (size == c.maxTokens || size == c.nCtx || size == BatchTokenLimit(c))
  {
  }

  // ----- Cutting a text -----

  // The pieces of a long text, in runs of `size`.
  function Slices(pieces: seq<nat>, size: nat): seq<seq<nat>>
    requires size >= 1
  {
    if |pieces| <= size then (if pieces == [] then [] else [pieces])
    else [pieces[..size]] + Slices(pieces[size..], size)
  }

  // Cutting loses no piece, keeps their order, and leaves no slice empty or too long.
  lemma {:induction false} SlicesJoin(pieces: seq<nat>, size: nat)
    requires size >= 1
    ensures Flatten(Slices(pieces, size)) == pieces
    ensures forall k | 0 <= k < |Slices(pieces, size)| :: 1 <= |Slices(pieces, size)[k]| <= size
  {
    if |pieces| <= size {
      if pieces != [] {
        assert [pieces][1..] == [] && pieces + [] == pieces;
      }
    } else {
      SlicesJoin(pieces[size..], size);
      assert pieces[..size] + pieces[size..] == pieces;
    }
  }

  // The texts of the slices that are not blank, with the number of pieces each was made from.
  function ChunkTexts(slices: seq<seq<nat>>, detokenize: seq<nat> -> string): seq<ChunkText> {
    if slices == [] then []
    else if detokenize(slices[0]) == "" then ChunkTexts(slices[1..], detokenize)
    else [ChunkText(detokenize(slices[0]), |slices[0]|)] + ChunkTexts(slices[1..], detokenize)
  }

  function Numbered(inputIndex: nat, texts: seq<ChunkText>): seq<Chunk> {
    seq(|texts|, k requires 0 <= k < |texts| => Chunk(inputIndex, k, |texts|, texts[k].text, texts[k].tokenCount))
  }

  function TextChunks(
      c: Config, text: string, inputIndex: nat, tokenize: string -> seq<nat>,
      detokenize: seq<nat> -> string): seq<Chunk>
  {
    var pieces := tokenize(text);
    if |pieces| <= ChunkTokens(c) then [Chunk(inputIndex, 0, 1, text, |pieces|)]
    else Numbered(inputIndex, ChunkTexts(Slices(pieces, ChunkTokens(c)), detokenize))
  }

  lemma {:induction false} ChunkTextsShort(slices: seq<seq<nat>>, detokenize: seq<nat> -> string, size: nat)
    requires forall k | 0 <= k < |slices| :: |slices[k]| <= size
    ensures forall k | 0 <= k < |ChunkTexts(slices, detokenize)| ::
        ChunkTexts(slices, detokenize)[k].tokenCount <= size && ChunkTexts(slices, detokenize)[k].text != ""
  {
    if slices != [] {
      ChunkTextsShort(slices[1..], detokenize, size);
    }
  }

  // No chunk is larger than a batch may be.
  lemma ChunksFit(
      c: Config, text: string, inputIndex: nat, tokenize: string -> seq<nat>, detokenize: seq<nat> -> string)
    ensures forall k | 0 <= k < |TextChunks(c, text, inputIndex, tokenize, detokenize)| ::
              TextChunks(c, text, inputIndex, tokenize, detokenize)[k].tokenCount <= BatchTokenLimit(c)
  {
    SlicesJoin(tokenize(text), ChunkTokens(c));
    ChunkTextsShort(Slices(tokenize(text), ChunkTokens(c)), detokenize, ChunkTokens(c));
  }

  // The pieces of the slice with this number.
  function SliceOf(pieces: seq<nat>, size: nat, m: nat): seq<nat>
    requires m * size < |pieces|
  {
    pieces[m * size..Min(|pieces|, m * size + size)]
  }

  lemma OneSliceOn(size: nat, m: nat)
    requires m > 0
    ensures m * size == size + (m - 1) * size
  {
  }

  lemma OneSliceAtLeast(size: nat, m: nat)
    ensures m * size >= 0
  {
  }

  // There is a slice for every stretch that begins inside the text, and it is that stretch.
  lemma {:induction false} SlicesAre(pieces: seq<nat>, size: nat, m: nat)
    requires size >= 1
    ensures m < |Slices(pieces, size)| <==> m * size < |pieces|
    ensures m < |Slices(pieces, size)| ==> Slices(pieces, size)[m] == SliceOf(pieces, size, m)
    decreases m
  {
    if m > 0 {
      OneSliceOn(size, m);
      OneSliceAtLeast(size, m - 1);
      if |pieces| > size {
        SlicesAre(pieces[size..], size, m - 1);
        if m < |Slices(pieces, size)| {
          Shifted(pieces, size, (m - 1) * size, Min(|pieces|, m * size + size) - size);
        }
      }
    }
  }

  lemma Shifted(pieces: seq<nat>, size: nat, a: nat, b: nat)
    requires a <= b && size + b <= |pieces|
    ensures pieces[size..][a..b] == pieces[size + a..size + b]
  {
  }

  predicate Blank(slice: seq<nat>, detokenize: seq<nat> -> string) {
    detokenize(slice) == ""
  }

  // The numbers, from `m` on, of the slices that are not blank.
  function Kept(slices: seq<seq<nat>>, detokenize: seq<nat> -> string, m: nat): seq<nat>
    decreases |slices| - m
  {
    if m >= |slices| then []
    else if Blank(slices[m], detokenize) then Kept(slices, detokenize, m + 1)
    else [m] + Kept(slices, detokenize, m + 1)
  }

  lemma InEither(a: seq<nat>, b: seq<nat>, i: nat)
    ensures i in a + b <==> i in a || i in b
  {
  }

  lemma {:induction false} KeptAre(slices: seq<seq<nat>>, detokenize: seq<nat> -> string, m: nat, i: nat)
    ensures i in Kept(slices, detokenize, m) <==> m <= i < |slices| && !Blank(slices[i], detokenize)
    decreases |slices| - m
  {
    if m < |slices| {
      KeptAre(slices, detokenize, m + 1, i);
      InEither([m], Kept(slices, detokenize, m + 1), i);
    }
  }

  lemma {:induction false} KeptRise(slices: seq<seq<nat>>, detokenize: seq<nat> -> string, m: nat)
    ensures forall k, l | 0 <= k < l < |Kept(slices, detokenize, m)| ::
              Kept(slices, detokenize, m)[k] < Kept(slices, detokenize, m)[l]
    decreases |slices| - m
  {
    if m < |slices| {
      KeptRise(slices, detokenize, m + 1);
      var rest := Kept(slices, detokenize, m + 1);
      forall k | 0 <= k < |rest|
        ensures rest[k] > m
      {
        KeptAre(slices, detokenize, m + 1, rest[k]);
      }
    }
  }

  // The texts are those of the slices kept.
  lemma {:induction false} TextsAreKept(slices: seq<seq<nat>>, detokenize: seq<nat> -> string, m: nat)
    requires m <= |slices|
    ensures ChunkTexts(slices[m..], detokenize)
         == seq(|Kept(slices, detokenize, m)|, k requires 0 <= k < |Kept(slices, detokenize, m)| =>
                TextOf(slices, detokenize, Kept(slices, detokenize, m)[k]))
    decreases |slices| - m
  {
    if m < |slices| {
      assert slices[m..][1..] == slices[m + 1..];
      TextsAreKept(slices, detokenize, m + 1);
    }
  }

  function TextOf(slices: seq<seq<nat>>, detokenize: seq<nat> -> string, i: nat): ChunkText {
    if i < |slices| then ChunkText(detokenize(slices[i]), |slices[i]|) else ChunkText("", 0)
  }

  // The chunk is this stretch of the text.
  predicate CutFrom(pieces: seq<nat>, size: nat, detokenize: seq<nat> -> string, m: nat, chunk: Chunk) {
    && m * size < |pieces|
    && chunk.text == detokenize(SliceOf(pieces, size, m)) && chunk.text != ""
    && chunk.tokenCount == |SliceOf(pieces, size, m)|
  }

  /**
    The chunks of a text are numbered from 0 and know how many they are. A short text is one chunk. A longer one
    is cut at every multiple of the chunk size; every stretch that is not blank becomes a chunk, in order.
   */
  lemma ChunksOfText(
      c: Config, text: string, inputIndex: nat, tokenize: string -> seq<nat>, detokenize: seq<nat> -> string)
    returns (kept: seq<nat>)
    ensures var pieces, chunks, size := tokenize(text), TextChunks(c, text, inputIndex, tokenize, detokenize),
        ChunkTokens(c);
            && (forall k | 0 <= k < |chunks| :: chunks[k].inputIndex == inputIndex && chunks[k].chunkIndex == k
                                              && chunks[k].chunkCount == |chunks|)
            && (|pieces| <= size ==> |chunks| == 1 && chunks[0].text == text && chunks[0].tokenCount == |pieces|)
            && (|pieces| > size ==>
                  && |kept| == |chunks| && (forall k, l | 0 <= k < l < |kept| :: kept[k] < kept[l])
                  && (forall k | 0 <= k < |chunks| :: CutFrom(pieces, size, detokenize, kept[k], chunks[k]))
                  && (forall m: nat | m * size < |pieces| && detokenize(SliceOf(pieces, size, m)) != "" :: m in kept))
  {
    var pieces, size := tokenize(text), ChunkTokens(c);
    var slices := Slices(pieces, size);
    kept := Kept(slices, detokenize, 0);
    TextsAreKept(slices, detokenize, 0);
    KeptRise(slices, detokenize, 0);
    assert slices[0..] == slices;
    forall m: nat
      ensures m < |slices| <==> m * size < |pieces|
      ensures m < |slices| ==> slices[m] == SliceOf(pieces, size, m)
      ensures m in kept <==> m < |slices| && !Blank(slices[m], detokenize)
    {
      SlicesAre(pieces, size, m);
      KeptAre(slices, detokenize, 0, m);
    }
  }

  // The slices from a position on.
  function SlicesFrom(pieces: seq<nat>, start: nat, size: nat): seq<seq<nat>>
    requires size >= 1
  {
    if start < |pieces| then Slices(pieces[start..], size) else []
  }

  // What the texts will be, with those already cut.
  function TextsWith(
      texts: seq<ChunkText>, pieces: seq<nat>, start: nat, size: nat, detokenize: seq<nat> -> string): seq<ChunkText>
    requires size >= 1
  {
    texts + ChunkTexts(SlicesFrom(pieces, start, size), detokenize)
  }

  lemma AllTexts(pieces: seq<nat>, size: nat, detokenize: seq<nat> -> string)
    requires size >= 1
    ensures TextsWith([], pieces, 0, size, detokenize) == ChunkTexts(Slices(pieces, size), detokenize)
  {
    assert pieces[0..] == pieces;
  }

  lemma NextSlice(pieces: seq<nat>, start: nat, size: nat)
    requires start < |pieces| && size >= 1
    ensures SlicesFrom(pieces, start, size) != []
    ensures SlicesFrom(pieces, start, size)[0] == pieces[start..Min(|pieces|, start + size)]
    ensures SlicesFrom(pieces, start, size)[1..] == SlicesFrom(pieces, start + size, size)
  {
    var rest := pieces[start..];
    if |rest| > size {
      assert rest[..size] == pieces[start..start + size] && rest[size..] == pieces[start + size..];
    } else {
      assert pieces[start..|pieces|] == rest;
    }
  }

  lemma NextText(texts: seq<ChunkText>, pieces: seq<nat>, start: nat, size: nat, detokenize: seq<nat> -> string)
    requires start < |pieces| && size >= 1
    ensures var slice := pieces[start..Min(|pieces|, start + size)];
            var more := if detokenize(slice) == "" then texts else texts + [ChunkText(detokenize(slice), |slice|)];
            TextsWith(texts, pieces, start, size, detokenize) == TextsWith(more, pieces, start + size, size, detokenize)
  {
    NextSlice(pieces, start, size);
  }

  // `text` has been trimmed, and `detokenize` trims what it returns.
  method SplitTextByEmbeddingTokens(
      c: Config, text: string, inputIndex: nat, tokenize: string -> seq<nat>, detokenize: seq<nat> -> string)
    returns (chunks: seq<Chunk>)
    ensures chunks == TextChunks(c, text, inputIndex, tokenize, detokenize)
  {
    var maxTokens: nat := ChunkTokens(c);
    var pieces := tokenize(text);
    if |pieces| <= maxTokens {
      return [Chunk(inputIndex, 0, 1, text, |pieces|)];
    }
    var chunkTexts := CutTexts(pieces, maxTokens, detokenize);
    chunks := Numbered(inputIndex, chunkTexts);
  }

  method CutTexts(pieces: seq<nat>, maxTokens: nat, detokenize: seq<nat> -> string) returns (chunkTexts: seq<ChunkText>)
    requires maxTokens >= 1
    ensures chunkTexts == ChunkTexts(Slices(pieces, maxTokens), detokenize)
  {
    chunkTexts := [];
    var start: nat := 0;
    AllTexts(pieces, maxTokens, detokenize);
    while start < |pieces|
      invariant TextsWith(chunkTexts, pieces, start, maxTokens, detokenize)
             == TextsWith([], pieces, 0, maxTokens, detokenize)
    {
      var chunkPieces := pieces[start..Min(|pieces|, start + maxTokens)];
      var chunk := detokenize(chunkPieces);
      NextText(chunkTexts, pieces, start, maxTokens, detokenize);
      if chunk != "" {
        chunkTexts := chunkTexts + [ChunkText(chunk, |chunkPieces|)];
      }
      start := start + maxTokens;
    }
  }

  // ----- Gathering chunks into groups -----

  function Total(chunks: seq<Chunk>): nat {
    if chunks == [] then 0 else chunks[0].tokenCount + Total(chunks[1..])
  }

  predicate GroupFits(group: seq<Chunk>, limit: nat) {
    group != [] && (Total(group) <= limit || |group| == 1)
  }

  // A cut of the chunks into consecutive groups that fit, or are one chunk each.
  predicate Grouping(groups: seq<seq<Chunk>>, chunks: seq<Chunk>, limit: nat) {
    Flatten(groups) == chunks && forall k | 0 <= k < |groups| :: GroupFits(groups[k], limit)
  }

  // How many of the chunks fit into the room that is left.
  function Fit(chunks: seq<Chunk>, room: int): (n: nat)
    ensures n <= |chunks|
  {
    if chunks == [] || chunks[0].tokenCount > room then 0 else 1 + Fit(chunks[1..], room - chunks[0].tokenCount)
  }

  function FirstSize(chunks: seq<Chunk>, limit: nat): (n: nat)
    requires chunks != []
    ensures 1 <= n <= |chunks|
  {
    if chunks[0].tokenCount > limit then 1 else Fit(chunks, limit)
  }

  // Each group takes as many chunks as fit.
  function Greedy(chunks: seq<Chunk>, limit: nat): seq<seq<Chunk>>
    decreases |chunks|
  {
    if chunks == [] then []
    else [chunks[..FirstSize(chunks, limit)]] + Greedy(chunks[FirstSize(chunks, limit)..], limit)
  }

  lemma {:induction false} FitIsMost(chunks: seq<Chunk>, room: int, n: nat)
    requires n <= |chunks|
    ensures Fit(chunks, room) >= n <==> (n == 0 || Total(chunks[..n]) <= room)
  {
    if n > 0 {
      assert chunks[..n][1..] == chunks[1..][..n - 1];
      FitIsMost(chunks[1..], room - chunks[0].tokenCount, n - 1);
      TotalsGrow(chunks[1..], n - 1);
    }
  }

  lemma TotalsGrow(chunks: seq<Chunk>, n: nat)
    requires n <= |chunks|
    ensures n == 0 ==> Total(chunks[..n]) == 0
  {
  }

  lemma {:induction false} GreedyGroups(chunks: seq<Chunk>, limit: nat)
    ensures Grouping(Greedy(chunks, limit), chunks, limit)
    decreases |chunks|
  {
    if chunks != [] {
      var n := FirstSize(chunks, limit);
      GreedyGroups(chunks[n..], limit);
      FitIsMost(chunks, limit, n);
      assert chunks[..n] + chunks[n..] == chunks;
    }
  }

  // The groups that are left when the first m chunks are taken away.
  function Without(groups: seq<seq<Chunk>>, m: nat): seq<seq<Chunk>>
    requires m <= |Flatten(groups)|
  {
    if groups == [] || m == 0 then groups
    else if m >= |groups[0]| then Without(groups[1..], m - |groups[0]|)
    else [groups[0][m..]] + groups[1..]
  }

  lemma {:induction false} DropTotal(chunks: seq<Chunk>, m: nat)
    requires m <= |chunks|
    ensures Total(chunks[m..]) <= Total(chunks)
  {
    if m > 0 {
      assert chunks[m..] == chunks[1..][m - 1..];
      DropTotal(chunks[1..], m - 1);
    }
  }

  lemma {:induction false} WithoutGroups(groups: seq<seq<Chunk>>, chunks: seq<Chunk>, limit: nat, m: nat)
    requires Grouping(groups, chunks, limit) && m <= |chunks|
    ensures Grouping(Without(groups, m), chunks[m..], limit) && |Without(groups, m)| <= |groups|
    ensures groups != [] && m >= |groups[0]| ==> |Without(groups, m)| < |groups|
  {
    if groups == [] || m == 0 {
      assert chunks[0..] == chunks;
      assert groups != [] ==> GroupFits(groups[0], limit);
    } else if m >= |groups[0]| {
      assert GroupFits(groups[0], limit);
      var rest := Flatten(groups[1..]);
      assert chunks == groups[0] + rest;
      assert chunks[m..] == rest[m - |groups[0]|..];
      WithoutGroups(groups[1..], rest, limit, m - |groups[0]|);
    } else {
      DropTotal(groups[0], m);
      assert chunks == groups[0] + Flatten(groups[1..]);
      assert chunks[m..] == groups[0][m..] + Flatten(groups[1..]);
      assert ([groups[0][m..]] + groups[1..])[1..] == groups[1..];
      assert GroupFits(groups[0], limit);
    }
  }

  // Taking as many as fit never needs more groups than any other cut.
  lemma {:induction false} GreedyIsFewest(chunks: seq<Chunk>, limit: nat, other: seq<seq<Chunk>>)
    requires Grouping(other, chunks, limit)
    ensures |Greedy(chunks, limit)| <= |other|
    decreases |chunks|
  {
    if chunks != [] {
      var n := FirstSize(chunks, limit);
      assert GroupFits(other[0], limit);
      assert chunks[..|other[0]|] == other[0];
      FitIsMost(chunks, limit, |other[0]|);
      WithoutGroups(other, chunks, limit, n);
      GreedyIsFewest(chunks[n..], limit, Without(other, n));
    }
  }

  lemma {:induction false} FitAfter(current: seq<Chunk>, rest: seq<Chunk>, room: int)
    requires Total(current) <= room
    ensures Fit(current + rest, room) == |current| + Fit(rest, room - Total(current))
  {
    if current == [] {
      assert current + rest == rest;
    } else {
      assert (current + rest)[1..] == current[1..] + rest;
      FitAfter(current[1..], rest, room - current[0].tokenCount);
    }
  }

  lemma {:induction false} TotalAppend(chunks: seq<Chunk>, last: Chunk)
    ensures Total(chunks + [last]) == Total(chunks) + last.tokenCount
  {
    if chunks != [] {
      assert (chunks + [last])[1..] == chunks[1..] + [last];
      TotalAppend(chunks[1..], last);
    } else {
      assert chunks + [last] == [last];
    }
  }

  // What the groups will be, with `current` still open and `rest` still to come.
  function Outlook(groups: seq<seq<Chunk>>, current: seq<Chunk>, rest: seq<Chunk>, limit: nat): seq<seq<Chunk>> {
    groups + Greedy(current + rest, limit)
  }

  // A full group is closed: the next chunk does not fit, or there is none.
  lemma GroupCloses(groups: seq<seq<Chunk>>, current: seq<Chunk>, rest: seq<Chunk>, limit: nat)
    requires current != [] && Total(current) <= limit && (rest == [] || Total(current) + rest[0].tokenCount > limit)
    ensures Outlook(groups, current, rest, limit) == Outlook(groups + [current], [], rest, limit)
  {
    FitAfter(current, rest, limit);
    assert (current + rest)[..|current|] == current && (current + rest)[|current|..] == rest;
    assert current[0].tokenCount <= Total(current);
    assert [] + rest == rest;
  }

  lemma LoneGroup(groups: seq<seq<Chunk>>, chunk: Chunk, rest: seq<Chunk>, limit: nat)
    requires chunk.tokenCount > limit
    ensures Outlook(groups, [], [chunk] + rest, limit) == Outlook(groups + [[chunk]], [], rest, limit)
  {
    var all := [] + ([chunk] + rest);
    assert all[..1] == [chunk] && all[1..] == rest && [] + rest == rest;
  }

  lemma GroupGrows(groups: seq<seq<Chunk>>, current: seq<Chunk>, chunk: Chunk, rest: seq<Chunk>, limit: nat)
    ensures Outlook(groups, current, [chunk] + rest, limit) == Outlook(groups, current + [chunk], rest, limit)
  {
    assert current + ([chunk] + rest) == (current + [chunk]) + rest;
  }

  // The groups so far and the open one lead to the greedy grouping.
  predicate OnTrack(groups: seq<seq<Chunk>>, current: seq<Chunk>, chunks: seq<Chunk>, n: nat, limit: nat)
    requires n <= |chunks|
  {
    Outlook(groups, current, chunks[n..], limit) == Greedy(chunks, limit)
  }

  lemma TrackStarts(chunks: seq<Chunk>, limit: nat)
    ensures OnTrack([], [], chunks, 0, limit)
  {
    assert [] + chunks[0..] == chunks;
  }

  lemma TrackCloses(groups: seq<seq<Chunk>>, current: seq<Chunk>, chunks: seq<Chunk>, n: nat, limit: nat)
    requires n <= |chunks| && OnTrack(groups, current, chunks, n, limit) && current != [] && Total(current) <= limit
    requires n < |chunks| ==> Total(current) + chunks[n].tokenCount > limit
    ensures OnTrack(groups + [current], [], chunks, n, limit)
  {
    GroupCloses(groups, current, chunks[n..], limit);
  }

  lemma TrackAlone(groups: seq<seq<Chunk>>, chunks: seq<Chunk>, n: nat, limit: nat)
    requires n < |chunks| && OnTrack(groups, [], chunks, n, limit) && chunks[n].tokenCount > limit
    ensures OnTrack(groups + [[chunks[n]]], [], chunks, n + 1, limit)
  {
    assert chunks[n..] == [chunks[n]] + chunks[n + 1..];
    LoneGroup(groups, chunks[n], chunks[n + 1..], limit);
  }

  lemma TrackGrows(groups: seq<seq<Chunk>>, current: seq<Chunk>, chunks: seq<Chunk>, n: nat, limit: nat)
    requires n < |chunks| && OnTrack(groups, current, chunks, n, limit)
    ensures OnTrack(groups, current + [chunks[n]], chunks, n + 1, limit)
  {
    assert chunks[n..] == [chunks[n]] + chunks[n + 1..];
    GroupGrows(groups, current, chunks[n], chunks[n + 1..], limit);
  }

  method EmbeddingGroups(chunks: seq<Chunk>, batchTokenLimit: nat) returns (groups: seq<seq<Chunk>>)
    ensures groups == Greedy(chunks, batchTokenLimit)
  {
    groups := [];
    var current: seq<Chunk> := [];
    var currentTokens := 0;
    TrackStarts(chunks, batchTokenLimit);
    for n := 0 to |chunks|
      invariant currentTokens == Total(current) <= batchTokenLimit
      invariant OnTrack(groups, current, chunks, n, batchTokenLimit)
    {
      var chunk := chunks[n];
      if chunk.tokenCount > batchTokenLimit {
        if current != [] {
          TrackCloses(groups, current, chunks, n, batchTokenLimit);
          groups := groups + [current];
          current := [];
          currentTokens := 0;
        }
        TrackAlone(groups, chunks, n, batchTokenLimit);
        groups := groups + [[chunk]];
        continue;
      }
      if current != [] && currentTokens + chunk.tokenCount > batchTokenLimit {
        TrackCloses(groups, current, chunks, n, batchTokenLimit);
        groups := groups + [current];
        current := [];
        currentTokens := 0;
      }
      TrackGrows(groups, current, chunks, n, batchTokenLimit);
      TotalAppend(current, chunk);
      current := current + [chunk];
      currentTokens := currentTokens + chunk.tokenCount;
    }
    if current != [] {
      TrackCloses(groups, current, chunks, |chunks|, batchTokenLimit);
      groups := groups + [current];
    }
  }

  // The groups join to the chunks, each fits or is one chunk, and no such cut has fewer.
  lemma GroupsAreBest(chunks: seq<Chunk>, limit: nat)
    ensures Grouping(Greedy(chunks, limit), chunks, limit)
    ensures forall other {:trigger Grouping(other, chunks, limit)} | Grouping(other, chunks, limit) ::
        |Greedy(chunks, limit)| <= |other|
  {
    GreedyGroups(chunks, limit);
    forall other | Grouping(other, chunks, limit)
      ensures |Greedy(chunks, limit)| <= |other|
    {
      GreedyIsFewest(chunks, limit, other);
    }
  }

  // ----- Embedding -----

  predicate AllFit(chunks: seq<Chunk>, limit: nat) {
    forall k | 0 <= k < |chunks| :: chunks[k].tokenCount <= limit
  }

  // When every chunk fits a batch, so does every group: none is the single oversized chunk.
  lemma {:induction false} NoOversizedGroup(chunks: seq<Chunk>, limit: nat, k: nat)
    requires AllFit(chunks, limit) && k < |Greedy(chunks, limit)|
    ensures Total(Greedy(chunks, limit)[k]) <= limit
    decreases |chunks|
  {
    var n := FirstSize(chunks, limit);
    if k == 0 {
      FitIsMost(chunks, limit, n);
    } else {
      NoOversizedGroup(chunks[n..], limit, k - 1);
    }
  }

  function Texts(group: seq<Chunk>): seq<string> {
    seq(|group|, k requires 0 <= k < |group| => group[k].text)
  }

  // The model answers every text of a batch, in order.
  ghost predicate Faithful(embed: seq<string> -> seq<Vector>, one: string -> Vector) {
    forall texts {:trigger embed(texts)} ::
      |embed(texts)| == |texts| && forall k | 0 <= k < |texts| :: embed(texts)[k] == one(texts[k])
  }

  method EmbedGroup(group: seq<Chunk>, embed: seq<string> -> seq<Vector>) returns (r: Result<seq<Vector>, EmbedError>)
    ensures r == if |embed(Texts(group))| == |group| then Success(embed(Texts(group))) else Failure(UnexpectedCount)
  {
    var vectors := embed(Texts(group));
    if |vectors| != |group| {
      return Failure(UnexpectedCount);
    }
    r := Success(vectors);
  }

  // What the model answers to each group, in order.
  function AnswersOf(groups: seq<seq<Chunk>>, embed: seq<string> -> seq<Vector>): seq<seq<Vector>> {
    seq(|groups|, k requires 0 <= k < |groups| => embed(Texts(groups[k])))
  }

  // Every batch comes back with as many vectors as it has chunks.
  predicate CountsMatch(groups: seq<seq<Chunk>>, embed: seq<string> -> seq<Vector>) {
    forall k | 0 <= k < |groups| :: |embed(Texts(groups[k]))| == |groups[k]|
  }

  lemma AnswersMore(groups: seq<seq<Chunk>>, n: nat, embed: seq<string> -> seq<Vector>)
    requires n < |groups|
    ensures Flatten(AnswersOf(groups[..n + 1], embed))
        == Flatten(AnswersOf(groups[..n], embed)) + embed(Texts(groups[n]))
  {
    FlattenAppend(AnswersOf(groups[..n], embed), [embed(Texts(groups[n]))]);
    FlattenOne(embed(Texts(groups[n])));
    assert AnswersOf(groups[..n + 1], embed) == AnswersOf(groups[..n], embed) + [embed(Texts(groups[n]))];
  }

  // The answers of the batches in order, as many as there are chunks; otherwise a failure.
  method ScheduledEmbeddings(chunks: seq<Chunk>, limit: nat, embed: seq<string> -> seq<Vector>)
    returns (r: Result<seq<Vector>, EmbedError>)
    ensures r.Success? <==> CountsMatch(Greedy(chunks, limit), embed)
    ensures r.Success? ==> r.value == Flatten(AnswersOf(Greedy(chunks, limit), embed)) && |r.value| == |chunks|
    ensures r.Failure? ==> r.error == UnexpectedCount
  {
    var groups := EmbeddingGroups(chunks, limit);
    var vectors: seq<Vector> := [];
    for n := 0 to |groups|
      invariant vectors == Flatten(AnswersOf(groups[..n], embed)) && |vectors| == |Flatten(groups[..n])|
      invariant CountsMatch(groups[..n], embed)
    {
      var result := EmbedGroup(groups[n], embed);
      if result.Failure? {
        return result;
      }
      AnswersMore(groups, n, embed);
      FlattenAppend(groups[..n], [groups[n]]);
      FlattenOne(groups[n]);
      assert groups[..n + 1] == groups[..n] + [groups[n]];
      vectors := vectors + result.value;
    }
    assert groups[..|groups|] == groups;
    GreedyGroups(chunks, limit);
    r := Success(vectors);
  }

  // A chunk and the vector in its place: the same position of the same group.
  lemma {:induction false} SamePlace(groups: seq<seq<Chunk>>, embed: seq<string> -> seq<Vector>, i: nat)
    returns (g: nat, j: nat)
    requires CountsMatch(groups, embed) && i < |Flatten(groups)|
    ensures |Flatten(AnswersOf(groups, embed))| == |Flatten(groups)|
    ensures g < |groups| && j < |groups[g]| && Flatten(groups)[i] == groups[g][j]
    ensures Flatten(AnswersOf(groups, embed))[i] == embed(Texts(groups[g]))[j]
  {
    var rest, answers := groups[1..], AnswersOf(groups, embed);
    assert answers[1..] == AnswersOf(rest, embed) && |answers[0]| == |groups[0]|;
    JoinedAnswers(rest, embed);
    if i < |groups[0]| {
      g, j := 0, i;
    } else {
      g, j := SamePlace(rest, embed, i - |groups[0]|);
      g := g + 1;
    }
  }

  lemma {:induction false} JoinedAnswers(groups: seq<seq<Chunk>>, embed: seq<string> -> seq<Vector>)
    requires CountsMatch(groups, embed)
    ensures |Flatten(AnswersOf(groups, embed))| == |Flatten(groups)|
  {
    if groups != [] {
      assert AnswersOf(groups, embed)[1..] == AnswersOf(groups[1..], embed);
      JoinedAnswers(groups[1..], embed);
    }
  }

  // Whatever the model computes: vector i is the one its batch gives in the place of chunk i.
  lemma VectorOfChunk(chunks: seq<Chunk>, limit: nat, embed: seq<string> -> seq<Vector>, i: nat)
    returns (g: nat, j: nat)
    requires CountsMatch(Greedy(chunks, limit), embed) && i < |chunks|
    ensures var groups := Greedy(chunks, limit);
            && g < |groups| && j < |groups[g]| && chunks[i] == groups[g][j]
            && |Flatten(AnswersOf(groups, embed))| == |chunks|
            && Flatten(AnswersOf(groups, embed))[i] == embed(Texts(groups[g]))[j]
  {
    GreedyGroups(chunks, limit);
    g, j := SamePlace(Greedy(chunks, limit), embed, i);
  }

  // A faithful model gives every chunk the vector of its own text.
  lemma FaithfulVectors(chunks: seq<Chunk>, limit: nat, embed: seq<string> -> seq<Vector>, one: string -> Vector)
    requires Faithful(embed, one)
    ensures CountsMatch(Greedy(chunks, limit), embed)
    ensures var vectors := Flatten(AnswersOf(Greedy(chunks, limit), embed));
            |vectors| == |chunks| && forall i | 0 <= i < |chunks| :: vectors[i] == one(chunks[i].text)
  {
    GreedyGroups(chunks, limit);
    JoinedAnswers(Greedy(chunks, limit), embed);
    forall i: nat | i < |chunks|
      ensures Flatten(AnswersOf(Greedy(chunks, limit), embed))[i] == one(chunks[i].text)
    {
      var g, j := VectorOfChunk(chunks, limit, embed, i);
    }
  }

  // The chunks of the first texts, in order.
  function AllChunks(
      c: Config, texts: seq<string>, tokenize: string -> seq<nat>, detokenize: seq<nat> -> string): seq<Chunk>
  {
    if texts == [] then []
    else
      var last := |texts| - 1;
      AllChunks(c, texts[..last], tokenize, detokenize) + TextChunks(c, texts[last], last, tokenize, detokenize)
  }

  lemma {:induction false} AllChunksFit(
      c: Config, texts: seq<string>, tokenize: string -> seq<nat>, detokenize: seq<nat> -> string)
    ensures AllFit(AllChunks(c, texts, tokenize, detokenize), BatchTokenLimit(c))
  {
    if texts != [] {
      AllChunksFit(c, texts[..|texts| - 1], tokenize, detokenize);
      ChunksFit(c, texts[|texts| - 1], |texts| - 1, tokenize, detokenize);
    }
  }

  // The chunks of every text are among them, at its place.
  lemma {:induction false} NoChunkLost(
      c: Config, texts: seq<string>, tokenize: string -> seq<nat>, detokenize: seq<nat> -> string, n: nat, k: nat)
    returns (i: nat)
    requires n < |texts| && k < |TextChunks(c, texts[n], n, tokenize, detokenize)|
    ensures i < |AllChunks(c, texts, tokenize, detokenize)|
    ensures AllChunks(c, texts, tokenize, detokenize)[i] == TextChunks(c, texts[n], n, tokenize, detokenize)[k]
  {
    var last := |texts| - 1;
    if n == last {
      i := |AllChunks(c, texts[..last], tokenize, detokenize)| + k;
    } else {
      i := NoChunkLost(c, texts[..last], tokenize, detokenize, n, k);
    }
  }

  // And nothing else is: the texts' chunks one after another.
  lemma {:induction false} ChunksInOrder(
      c: Config, texts: seq<string>, tokenize: string -> seq<nat>, detokenize: seq<nat> -> string)
    ensures AllChunks(c, texts, tokenize, detokenize)
         == Flatten(seq(|texts|, n requires 0 <= n < |texts| => TextChunks(c, texts[n], n, tokenize, detokenize)))
  {
    var parts := seq(|texts|, n requires 0 <= n < |texts| => TextChunks(c, texts[n], n, tokenize, detokenize));
    if texts == [] {
      assert parts == [];
    } else {
      var last := |texts| - 1;
      var front := texts[..last];
      ChunksInOrder(c, front, tokenize, detokenize);
      assert parts[..last]
          == seq(|front|, n requires 0 <= n < |front| => TextChunks(c, front[n], n, tokenize, detokenize));
      FlattenLast(parts);
    }
  }

  // No batch of embedText is over the limit, so its single-chunk fallback is never taken.
  lemma EveryBatchFits(
      c: Config, texts: seq<string>, tokenize: string -> seq<nat>, detokenize: seq<nat> -> string, k: nat)
    requires k < |Greedy(AllChunks(c, texts, tokenize, detokenize), BatchTokenLimit(c))|
    ensures Total(Greedy(AllChunks(c, texts, tokenize, detokenize), BatchTokenLimit(c))[k]) <= BatchTokenLimit(c)
  {
    AllChunksFit(c, texts, tokenize, detokenize);
    NoOversizedGroup(AllChunks(c, texts, tokenize, detokenize), BatchTokenLimit(c), k);
  }

  /** Where the model takes more than the headroom at once, no batch with its headroom is more than it takes. */
  lemma BatchesRespectTheModel(
      c: Config, texts: seq<string>, tokenize: string -> seq<nat>, detokenize: seq<nat> -> string, k: nat)
    requires k < |Greedy(AllChunks(c, texts, tokenize, detokenize), BatchTokenLimit(c))|
    requires Reserve(c) < c.nBatch && Reserve(c) < c.nUbatch
    ensures var tokens := Total(Greedy(AllChunks(c, texts, tokenize, detokenize), BatchTokenLimit(c))[k]);
            tokens + Reserve(c) <= c.nBatch && tokens + Reserve(c) <= c.nUbatch
  {
    EveryBatchFits(c, texts, tokenize, detokenize, k);
    LimitIs(c);
  }

  function FirstDimensions(vectors: seq<Vector>): nat {
    if vectors == [] then 0 else |vectors[0]|
  }

  function Paired(chunks: seq<Chunk>, vectors: seq<Vector>): seq<EmbeddedChunk>
    requires |chunks| == |vectors|
  {
    seq(|chunks|, k requires 0 <= k < |chunks| => EmbeddedChunk(chunks[k], vectors[k]))
  }

  // What embedText answers: the chunks in order, each with the vector its batch gives in its place.
  function Answer(chunks: seq<Chunk>, limit: nat, dimensions: nat, embed: seq<string> -> seq<Vector>):
    Result<seq<EmbeddedChunk>, EmbedError>
  {
    var groups := Greedy(chunks, limit);
    var vectors := Flatten(AnswersOf(groups, embed));
    if !CountsMatch(groups, embed) then Failure(UnexpectedCount)
    else if FirstDimensions(vectors) != dimensions then Failure(UnexpectedDimensions)
    else
      JoinedAnswers(groups, embed);
      GreedyGroups(chunks, limit);
      Success(Paired(chunks, vectors))
  }

  predicate ExpectedDimensions(chunks: seq<Chunk>, one: string -> Vector, dimensions: nat) {
    dimensions == if chunks == [] then 0 else |one(chunks[0].text)|
  }

  /**
    With a model that answers each text by itself, every chunk gets its own vector. Only the first
    vector's dimensions are compared with the expected number, and no vector counts as none.
   */
  lemma FaithfulAnswer(
      chunks: seq<Chunk>, limit: nat, dimensions: nat, embed: seq<string> -> seq<Vector>, one: string -> Vector)
    requires Faithful(embed, one)
    ensures var r := Answer(chunks, limit, dimensions, embed);
            && (r.Success? <==> ExpectedDimensions(chunks, one, dimensions))
            && (r.Failure? ==> r.error == UnexpectedDimensions)
            && (r.Success? ==>
                  && |r.value| == |chunks|
                  && forall k | 0 <= k < |chunks| :: r.value[k] == EmbeddedChunk(chunks[k], one(chunks[k].text)))
  {
    FaithfulVectors(chunks, limit, embed, one);
  }

  method EmbedChunks(chunks: seq<Chunk>, limit: nat, dimensions: nat, embed: seq<string> -> seq<Vector>)
    returns (r: Result<seq<EmbeddedChunk>, EmbedError>)
    ensures r == Answer(chunks, limit, dimensions, embed)
  {
    var vectors := ScheduledEmbeddings(chunks, limit, embed);
    if vectors.Failure? {
      return Failure(vectors.error);
    }
    if FirstDimensions(vectors.value) != dimensions {
      return Failure(UnexpectedDimensions);
    }
    r := Success(Paired(chunks, vectors.value));
  }

  method EmbedText(
      c: Config, texts: seq<string>, tokenize: string -> seq<nat>, detokenize: seq<nat> -> string,
      embed: seq<string> -> seq<Vector>)
    returns (r: Result<seq<EmbeddedChunk>, EmbedError>)
    ensures r == Answer(AllChunks(c, texts, tokenize, detokenize), BatchTokenLimit(c), c.dimensions, embed)
  {
    var chunks: seq<Chunk> := [];
    for n := 0 to |texts|
      invariant chunks == AllChunks(c, texts[..n], tokenize, detokenize)
    {
      var more := SplitTextByEmbeddingTokens(c, texts[n], n, tokenize, detokenize);
      assert texts[..n + 1][..n] == texts[..n];
      chunks := chunks + more;
    }
    assert texts[..|texts|] == texts;
    r := EmbedChunks(chunks, BatchTokenLimit(c), c.dimensions, embed);
  }
}
