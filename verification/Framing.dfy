/**
  The worker's frames: a four-byte length and a body, arriving in chunks of any size.

  One job is outstanding at a time. A frame resolves the job only if it names the protocol, the
  generation and the job; anything else fails the worker for good.
 */
module Framing {
  import opened Wrappers
  import opened Sequences
  import opened Utf8

  const MAX_FRAME_BYTES := 2_097_152
  const PROTOCOL := 2

  datatype Frame = Frame(protocol: int, generation: string, job: string, body: string)

  // How bodies are written and read; reading what was written gives the frame back.
  datatype Codec = Codec(encode: Frame -> seq<Byte>, decode: seq<Byte> -> Option<Frame>)

  ghost predicate RoundTrips(codec: Codec, frame: Frame) {
    codec.decode(codec.encode(frame)) == Some(frame) && 0 < |codec.encode(frame)| <= MAX_FRAME_BYTES
  }

  // ----- The length in front of a body -----

  function Header(length: nat): (h: seq<Byte>)
    requires length < 0x1_0000_0000
    ensures |h| == 4
  {
    [length / 0x100_0000, length / 0x1_0000 % 0x100, length / 0x100 % 0x100, length % 0x100]
  }

  function Digits(a: nat, b: nat, c: nat, d: nat): nat {
    a * 0x100_0000 + b * 0x1_0000 + c * 0x100 + d
  }

  function ReadHeader(bytes: seq<Byte>): nat
    requires |bytes| >= 4
  {
    Digits(bytes[0], bytes[1], bytes[2], bytes[3])
  }

  lemma HeaderReads(length: nat, rest: seq<Byte>)
    requires length < 0x1_0000_0000
    ensures ReadHeader(Header(length) + rest) == length
    ensures var h := Header(length);
            (h[0] as int) * 16_777_216 + (h[1] as int) * 65_536 + (h[2] as int) * 256 + (h[3] as int) == length
  {
    assert length / 0x1_0000 == length / 0x100_0000 * 0x100 + length / 0x1_0000 % 0x100;
    assert length / 0x100 == length / 0x1_0000 * 0x100 + length / 0x100 % 0x100;
  }

  // What the worker sends.
  function Message(codec: Codec, frame: Frame): seq<Byte>
    requires |codec.encode(frame)| < 0x1_0000_0000
  {
    Header(|codec.encode(frame)|) + codec.encode(frame)
  }

  // ----- Steps -----

  datatype Settlement = Resolved(job: string, frame: Frame) | Rejected(job: string)

  datatype Worker = Worker(
    generation: string,
    buffer: seq<Byte>,
    pending: Option<string>,
    ready: bool,
    failed: bool,
    settled: seq<Settlement>)

  const IDLE := Worker("", [], None, false, false, [])

  function Fail(s: Worker): Worker {
    s.(ready := false, failed := true, pending := None, buffer := [],
       settled := if s.pending.Some? then s.settled + [Rejected(s.pending.value)] else s.settled)
  }

  // `start`: the worker announces itself under the job "ready".
  function Start(s: Worker, generation: string): Worker {
    if s.failed || s.ready || s.pending.Some? then s
    else s.(generation := generation, pending := Some("ready"))
  }

  function Started(s: Worker, metadataValid: bool): Worker {
    if s.failed || s.pending.Some? then s else if metadataValid then s.(ready := true) else Fail(s)
  }

  // `exchange`, up to the write of the request.
  function Dispatch(s: Worker, job: string): Worker {
    if !s.ready || s.failed || s.pending.Some? then s else s.(pending := Some(job))
  }

  predicate Accepted(s: Worker, frame: Frame) {
    s.pending.Some? && frame.protocol == PROTOCOL && frame.generation == s.generation && frame.job == s.pending.value
  }

  function Receive(codec: Codec, s: Worker, chunk: seq<Byte>): Worker {
    if |s.buffer| + |chunk| > MAX_FRAME_BYTES + 4 then Fail(s)
    else
      var buffer := s.buffer + chunk;
      if |buffer| < 4 then s.(buffer := buffer)
      else
        var length := ReadHeader(buffer);
        if length == 0 || length > MAX_FRAME_BYTES then Fail(s)
        else if |buffer| < length + 4 then s.(buffer := buffer)
        else if |buffer| != length + 4 || s.pending.None? then Fail(s)
        else
          var frame := codec.decode(buffer[4..]);
          if frame.Some? && Accepted(s, frame.value)
          then s.(buffer := [], pending := None, settled := s.settled + [Resolved(s.pending.value, frame.value)])
          else Fail(s)
  }

  /**
    A chunk that leaves the frame unfinished is kept. A finished frame resolves the outstanding job exactly if it
    names protocol 2, the worker's generation and the job. Anything else fails the worker: more than 2 097 152
    bytes, none, bytes behind the frame, or a frame that nobody waits for.
   */
  lemma ReceiveDecides(codec: Codec, s: Worker, chunk: seq<Byte>)
    requires !s.failed
    ensures var t, buffer := Receive(codec, s, chunk), s.buffer + chunk;
            if |buffer| < 4 then t == s.(buffer := buffer)
            else
              var length := (buffer[0] as int) * 16_777_216 + (buffer[1] as int) * 65_536
                            + (buffer[2] as int) * 256 + (buffer[3] as int);
              if 1 <= length <= 2_097_152 && |buffer| < 4 + length then t == s.(buffer := buffer)
              else if && 1 <= length <= 2_097_152 && |buffer| == 4 + length && s.pending.Some?
                      && codec.decode(buffer[4..]).Some?
                      && var frame := codec.decode(buffer[4..]).value;
                         frame.protocol == 2 && frame.generation == s.generation && frame.job == s.pending.value
              then
                && t.settled == s.settled + [Resolved(s.pending.value, codec.decode(buffer[4..]).value)]
                && t.pending.None? && t.buffer == [] && t.ready == s.ready && !t.failed
              else
                && t.failed && !t.ready && t.pending.None? && t.buffer == []
                && t.settled == (if s.pending.Some? then s.settled + [Rejected(s.pending.value)] else s.settled)
  {
  }

  function ReceiveAll(codec: Codec, s: Worker, chunks: seq<seq<Byte>>): Worker
    decreases |chunks|
  {
    if chunks == [] then s else ReceiveAll(codec, Receive(codec, s, chunks[0]), chunks[1..])
  }

  // ----- A response arrives whole, however it is cut -----

  lemma PartReceived(codec: Codec, s: Worker, frame: Frame, chunk: seq<Byte>)
    requires RoundTrips(codec, frame) && s.buffer + chunk <= Message(codec, frame)
    requires s.buffer + chunk != Message(codec, frame)
    ensures Receive(codec, s, chunk) == s.(buffer := s.buffer + chunk)
  {
    var message, buffer := Message(codec, frame), s.buffer + chunk;
    HeaderReads(|codec.encode(frame)|, codec.encode(frame));
    if |buffer| >= 4 {
      assert buffer[..4] == message[..4];
      assert ReadHeader(buffer) == ReadHeader(message);
    }
  }

  lemma WholeReceived(codec: Codec, s: Worker, frame: Frame, chunk: seq<Byte>)
    requires RoundTrips(codec, frame) && s.buffer + chunk == Message(codec, frame) && Accepted(s, frame)
    ensures Receive(codec, s, chunk)
        == s.(buffer := [], pending := None, settled := s.settled + [Resolved(frame.job, frame)])
  {
    HeaderReads(|codec.encode(frame)|, codec.encode(frame));
    assert (s.buffer + chunk)[4..] == codec.encode(frame);
  }

  lemma {:induction false} NothingReceived(codec: Codec, s: Worker, chunks: seq<seq<Byte>>)
    requires Flatten(chunks) == [] && s.buffer == []
    ensures ReceiveAll(codec, s, chunks) == s
    decreases |chunks|
  {
    if chunks != [] {
      assert chunks[0] == [] && Flatten(chunks[1..]) == [];
      assert s.buffer + chunks[0] == [];
      NothingReceived(codec, s, chunks[1..]);
    }
  }

  /**
    However the bytes of the outstanding job's response are cut into chunks, the job resolves with
    exactly that frame and the worker is ready for the next one.
   */
  lemma {:induction false} ResponseArrives(codec: Codec, s: Worker, frame: Frame, chunks: seq<seq<Byte>>)
    requires RoundTrips(codec, frame) && Accepted(s, frame)
    requires s.buffer + Flatten(chunks) == Message(codec, frame) && Flatten(chunks) != []
    ensures ReceiveAll(codec, s, chunks)
        == s.(buffer := [], pending := None, settled := s.settled + [Resolved(frame.job, frame)])
    decreases |chunks|
  {
    var rest := Flatten(chunks[1..]);
    assert s.buffer + Flatten(chunks) == (s.buffer + chunks[0]) + rest;
    if rest == [] {
      assert (s.buffer + chunks[0]) + rest == s.buffer + chunks[0];
      WholeReceived(codec, s, frame, chunks[0]);
      NothingReceived(codec, Receive(codec, s, chunks[0]), chunks[1..]);
    } else {
      PartReceived(codec, s, frame, chunks[0]);
      ResponseArrives(codec, Receive(codec, s, chunks[0]), frame, chunks[1..]);
    }
  }

  // One job after another, each with its own response in chunks of its own.
  datatype Exchange = Exchange(job: string, frame: Frame, chunks: seq<seq<Byte>>)

  function ExchangeAll(codec: Codec, s: Worker, exchanges: seq<Exchange>): Worker
    decreases |exchanges|
  {
    if exchanges == [] then s
    else ExchangeAll(codec, ReceiveAll(codec, Dispatch(s, exchanges[0].job), exchanges[0].chunks), exchanges[1..])
  }

  ghost predicate Answered(codec: Codec, generation: string, e: Exchange) {
    && RoundTrips(codec, e.frame) && Flatten(e.chunks) == Message(codec, e.frame)
    && e.frame.protocol == PROTOCOL && e.frame.generation == generation && e.frame.job == e.job
  }

  function Answers(exchanges: seq<Exchange>): seq<Settlement> {
    if exchanges == [] then [] else [Resolved(exchanges[0].job, exchanges[0].frame)] + Answers(exchanges[1..])
  }

  // Ready for a request, with nothing received.
  predicate AtRest(s: Worker) {
    s.ready && !s.failed && s.pending.None? && s.buffer == []
  }

  lemma OneJobGetsItsFrame(codec: Codec, s: Worker, e: Exchange)
    requires AtRest(s) && Answered(codec, s.generation, e)
    ensures ReceiveAll(codec, Dispatch(s, e.job), e.chunks) == s.(settled := s.settled + [Resolved(e.job, e.frame)])
  {
    assert [] + Flatten(e.chunks) == Message(codec, e.frame);
    ResponseArrives(codec, Dispatch(s, e.job), e.frame, e.chunks);
  }

  predicate Serves(codec: Codec, s: Worker, exchanges: seq<Exchange>) {
    ExchangeAll(codec, s, exchanges) == s.(settled := s.settled + Answers(exchanges))
  }

  lemma ServesOneMore(codec: Codec, s: Worker, exchanges: seq<Exchange>)
    requires AtRest(s) && exchanges != [] && Answered(codec, s.generation, exchanges[0])
    requires Serves(codec, s.(settled := s.settled + [Resolved(exchanges[0].job, exchanges[0].frame)]), exchanges[1..])
    ensures Serves(codec, s, exchanges)
  {
    var e := exchanges[0];
    OneJobGetsItsFrame(codec, s, e);
    Regroup(s.settled, [Resolved(e.job, e.frame)], Answers(exchanges[1..]));
  }

  // Every job of a session resolves with its own frame, in order.
  lemma {:induction false} EveryJobGetsItsFrame(codec: Codec, s: Worker, exchanges: seq<Exchange>)
    requires AtRest(s)
    requires forall k | 0 <= k < |exchanges| :: Answered(codec, s.generation, exchanges[k])
    ensures Serves(codec, s, exchanges)
    decreases |exchanges|
  {
    if exchanges == [] {
      assert s.settled + [] == s.settled;
    } else {
      var e := exchanges[0];
      EveryJobGetsItsFrame(codec, s.(settled := s.settled + [Resolved(e.job, e.frame)]), exchanges[1..]);
      ServesOneMore(codec, s, exchanges);
    }
  }

  // ----- Every run -----

  datatype Event =
    | Starts(generation: string)
    | Metadata(valid: bool)
    | Dispatches(job: string)
    | Data(chunk: seq<Byte>)
    | Fails

  function Step(codec: Codec, s: Worker, e: Event): Worker {
    match e
    case Starts(generation) => Start(s, generation)
    case Metadata(valid) => Started(s, valid)
    case Dispatches(job) => Dispatch(s, job)
    case Data(chunk) => Receive(codec, s, chunk)
    case Fails => Fail(s)
  }

  function Run(codec: Codec, s: Worker, events: seq<Event>): Worker
    decreases |events|
  {
    if events == [] then s else Run(codec, Step(codec, s, events[0]), events[1..])
  }

  predicate Matching(x: Settlement) {
    x.Resolved? ==> x.frame.protocol == PROTOCOL && x.frame.job == x.job
  }

  // A failed worker expects nothing, the buffer stays bounded, and a frame that resolved a job named it.
  predicate Inv(s: Worker) {
    && (s.failed ==> s.pending.None? && !s.ready)
    && |s.buffer| <= MAX_FRAME_BYTES + 4
    && forall n | 0 <= n < |s.settled| :: Matching(s.settled[n])
  }

  lemma {:induction false} RunInv(codec: Codec, s: Worker, events: seq<Event>)
    requires Inv(s)
    ensures Inv(Run(codec, s, events)) && s.settled <= Run(codec, s, events).settled
    decreases |events|
  {
    if events != [] {
      RunInv(codec, Step(codec, s, events[0]), events[1..]);
    }
  }

  // A job resolves only in a step that received a frame naming the protocol, the generation and that job.
  lemma OnlyMatchingResolves(codec: Codec, s: Worker, e: Event)
    requires Inv(s)
    ensures var t := Step(codec, s, e);
            |t.settled| <= |s.settled| + 1
            && (|t.settled| > |s.settled| ==>
                  && t.pending.None? && s.pending.Some? && t.settled[|s.settled|].job == s.pending.value
                  && (t.settled[|s.settled|].Resolved? ==> e.Data? && Accepted(s, t.settled[|s.settled|].frame)))
  {
  }

  // After the first failure nothing resolves any more, whatever arrives.
  lemma {:induction false} NothingAfterFailure(codec: Codec, s: Worker, events: seq<Event>)
    requires Inv(s) && s.failed
    ensures Run(codec, s, events).failed && Run(codec, s, events).settled == s.settled
    decreases |events|
  {
    if events != [] {
      NothingAfterFailure(codec, Step(codec, s, events[0]), events[1..]);
    }
  }

  // ----- The worker, updated in place -----

  class OnnxWorkerExecution {
    const codec: Codec
    var generation: string
    var buffer: seq<Byte>
    var pending: Option<string>
    var ready: bool
    var failed: bool
    ghost var settled: seq<Settlement>

    ghost function State(): Worker
      reads this
    {
      Worker(generation, buffer, pending, ready, failed, settled)
    }

    constructor (codec: Codec)
      ensures State() == IDLE && this.codec == codec
    {
      this.codec := codec;
      generation, buffer, pending, ready, failed, settled := "", [], None, false, false, [];
    }

    method Expect(job: string) returns (ok: bool)
      modifies this`pending
      ensures ok <==> old(pending).None?
      ensures State() == if ok then old(State()).(pending := Some(job)) else old(State())
    {
      ok := pending.None?;
      if ok {
        pending := Some(job);
      }
    }

    // `exchange` up to its write.
    method DispatchJob(job: string) returns (ok: bool)
      modifies this`pending
      ensures State() == Dispatch(old(State()), job)
      ensures ok <==> old(ready && !failed && pending.None?)
    {
      if !ready || failed {
        return false;
      }
      ok := Expect(job);
    }

    method FailWorker()
      modifies this
      ensures State() == Fail(old(State()))
    {
      if pending.Some? {
        settled := settled + [Rejected(pending.value)];
      }
      ready, failed, pending, buffer := false, true, None, [];
    }

    method ReceiveChunk(chunk: seq<Byte>)
      modifies this
      ensures State() == Receive(codec, old(State()), chunk)
    {
      if |buffer| + |chunk| > MAX_FRAME_BYTES + 4 {
        FailWorker();
        return;
      }
      var joined := buffer + chunk;
      if |joined| >= 4 {
        var length := ReadHeader(joined);
        if length == 0 || length > MAX_FRAME_BYTES {
          FailWorker();
          return;
        }
        if |joined| >= length + 4 {
          if |joined| != length + 4 || pending.None? {
            FailWorker();
            return;
          }
          var frame := codec.decode(joined[4..]);
          if frame.None? || frame.value.protocol != PROTOCOL || frame.value.generation != generation
            || frame.value.job != pending.value {
            FailWorker();
            return;
          }
          settled := settled + [Resolved(pending.value, frame.value)];
          buffer, pending := [], None;
          return;
        }
      }
      buffer := joined;
    }
  }
}
