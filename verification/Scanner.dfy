/** The resynchronising response scanner: frames out of a noisy, arbitrarily split byte stream. */
module Scanner {
  import opened Wrappers
  import opened Bytes
  import opened Frames

  predicate HeaderOk(b: Octets)
    requires |b| >= HEADER
  {
    b[4] as int == VERSION && KnownOpcode(b[5] as int) && RequestId(b) != 0 && PayloadSize(b) <= MAX_PAYLOAD
  }

  function FrameSize(b: Octets): nat
    requires |b| >= HEADER
  {
    HEADER + PayloadSize(b) + 4
  }

  /** The bytes seen so far already rule out a frame starting at the first byte. */
  predicate Dead(crc: Checksum, b: Octets) {
    || (|b| >= 4 && b[..4] != MAGIC)
    || (|b| >= HEADER && !HeaderOk(b))
    || (|b| >= HEADER && |b| >= FrameSize(b) && Decode(crc, b[..FrameSize(b)]).Failure?)
  }

  /** A whole frame starts at the first byte. */
  predicate Ready(crc: Checksum, b: Octets) {
    |b| >= HEADER && |b| >= FrameSize(b) && !Dead(crc, b)
  }

  datatype Popped = Popped(frame: Option<Frame>, rest: Octets)

  /** What one scan is for: skip every start that can no longer become a frame, then take a whole frame or wait. */
  function Pop(crc: Checksum, b: Octets): Popped
    decreases |b|
  {
    if Dead(crc, b) then
      Pop(crc, b[1..])
    else if Ready(crc, b) then
      Popped(Some(Decode(crc, b[..FrameSize(b)]).value), b[FrameSize(b)..])
    else
      Popped(None, b)
  }

  /** Later bytes change no verdict that earlier bytes settled. */
  lemma VerdictsAreStable(crc: Checksum, b: Octets, x: Octets)
    ensures Dead(crc, b) ==> Dead(crc, b + x)
    ensures Ready(crc, b) ==> Ready(crc, b + x) && FrameSize(b + x) == FrameSize(b)
  {
    if |b| >= 4 {
      assert (b + x)[..4] == b[..4];
    }
    if |b| >= HEADER {
      assert (b + x)[6..8] == b[6..8] && (b + x)[8..12] == b[8..12];
      if |b| >= FrameSize(b) {
        assert (b + x)[..FrameSize(b)] == b[..FrameSize(b)];
      }
    }
  }

  /** Splitting the byte stream never changes one scan. */
  lemma {:induction false} PopSplit(crc: Checksum, b: Octets, x: Octets)
    ensures var p := Pop(crc, b);
      Pop(crc, b + x) == if p.frame.Some? then Popped(p.frame, p.rest + x) else Pop(crc, p.rest + x)
    decreases |b|
  {
    VerdictsAreStable(crc, b, x);
    if Dead(crc, b) {
      assert (b + x)[1..] == b[1..] + x;
      PopSplit(crc, b[1..], x);
    } else if Ready(crc, b) {
      var size := FrameSize(b);
      assert (b + x)[..size] == b[..size] && (b + x)[size..] == b[size..] + x;
    }
  }

  /** A popped frame consumes bytes, and a scan that waits retains less than one maximal frame. */
  lemma {:induction false} PopBounds(crc: Checksum, b: Octets)
    ensures var p := Pop(crc, b);
      && |p.rest| <= |b|
      && (p.frame.Some? ==> |p.rest| + HEADER + 4 <= |b| && Admissible(p.frame.value))
      && (p.frame.None? ==> |p.rest| < MAX_FRAME && !Dead(crc, p.rest) && !Ready(crc, p.rest))
    decreases |b|
  {
    if Dead(crc, b) {
      PopBounds(crc, b[1..]);
    } else if Ready(crc, b) {
      EncodeAfterDecode(crc, b[..FrameSize(b)]);
    }
  }

  // ---------------------------------------------------------------- whole streams

  datatype Drained = Drained(frames: seq<Frame>, rest: Octets)

  /** Scan until nothing more can be taken. */
  function Drain(crc: Checksum, b: Octets): Drained
    decreases |b|
  {
    PopBounds(crc, b);
    var p := Pop(crc, b);
    if p.frame.None? then
      Drained([], p.rest)
    else
      var d := Drain(crc, p.rest);
      Drained([p.frame.value] + d.frames, d.rest)
  }

  /** Reads arrive one by one; after each, everything available is taken. */
  function Feed(crc: Checksum, pending: Octets, chunks: seq<Octets>): Drained
    decreases |chunks|
  {
    if chunks == [] then
      Drain(crc, pending)
    else
      var now := Drain(crc, pending + chunks[0]);
      var later := Feed(crc, now.rest, chunks[1..]);
      Drained(now.frames + later.frames, later.rest)
  }

  lemma {:induction false} DrainSplit(crc: Checksum, b: Octets, x: Octets)
    ensures var d := Drain(crc, b);
      var e := Drain(crc, d.rest + x);
      Drain(crc, b + x) == Drained(d.frames + e.frames, e.rest)
    decreases |b|
  {
    PopBounds(crc, b);
    PopSplit(crc, b, x);
    var p := Pop(crc, b);
    if p.frame.Some? {
      DrainSplit(crc, p.rest, x);
      var d := Drain(crc, p.rest);
      var e := Drain(crc, d.rest + x);
      Associative([p.frame.value], d.frames, e.frames);
    } else {
      PopBounds(crc, b + x);
      PopBounds(crc, p.rest + x);
    }
  }

  /** Any chunking of a stream yields the frames, and leaves the bytes, of the undivided stream. */
  lemma {:induction false} ChunkingInvariance(crc: Checksum, pending: Octets, chunks: seq<Octets>)
    ensures Feed(crc, pending, chunks) == Drain(crc, pending + Concat(chunks))
    decreases |chunks|
  {
    if chunks == [] {
      assert pending + Concat(chunks) == pending;
    } else {
      var now := Drain(crc, pending + chunks[0]);
      ChunkingInvariance(crc, now.rest, chunks[1..]);
      Associative(pending, chunks[0], Concat(chunks[1..]));
      DrainSplit(crc, pending + chunks[0], Concat(chunks[1..]));
    }
  }

  function EncodeAll(crc: Checksum, frames: seq<Frame>): (wires: seq<Octets>)
    requires forall f <- frames :: Admissible(f)
    ensures |wires| == |frames|
  {
    if frames == [] then [] else [Encode(crc, frames[0]).value] + EncodeAll(crc, frames[1..])
  }

  lemma {:induction false} DrainAfterPop(crc: Checksum, b: Octets)
    requires Pop(crc, b).frame.Some?
    ensures var p := Pop(crc, b);
      var d := Drain(crc, p.rest);
      Drain(crc, b) == Drained([p.frame.value] + d.frames, d.rest)
  {
    PopBounds(crc, b);
  }

  /** Encoded frames come back in order, whatever follows them. */
  lemma {:induction false} EncodedFramesPopBack(crc: Checksum, frames: seq<Frame>, tail: Octets)
    requires forall f <- frames :: Admissible(f)
    ensures var d := Drain(crc, tail);
      Drain(crc, Concat(EncodeAll(crc, frames)) + tail) == Drained(frames + d.frames, d.rest)
    decreases |frames|
  {
    if frames == [] {
      assert Concat(EncodeAll(crc, frames)) + tail == tail;
      assert frames + Drain(crc, tail).frames == Drain(crc, tail).frames;
    } else {
      EncodedFramesPopBack(crc, frames[1..], tail);
      ConcatEncoded(crc, frames, tail);
      DrainEncoded(crc, frames[0], Concat(EncodeAll(crc, frames[1..])) + tail);
      Associative([frames[0]], frames[1..], Drain(crc, tail).frames);
      assert [frames[0]] + frames[1..] == frames;
    }
  }

  lemma {:induction false} ConcatEncoded(crc: Checksum, frames: seq<Frame>, tail: Octets)
    requires frames != [] && forall f <- frames :: Admissible(f)
    ensures Concat(EncodeAll(crc, frames)) + tail
      == Encode(crc, frames[0]).value + (Concat(EncodeAll(crc, frames[1..])) + tail)
  {
    assert EncodeAll(crc, frames)[1..] == EncodeAll(crc, frames[1..]);
  }

  lemma {:induction false} DrainEncoded(crc: Checksum, f: Frame, stream: Octets)
    requires Admissible(f)
    ensures var d := Drain(crc, stream);
      Drain(crc, Encode(crc, f).value + stream) == Drained([f] + d.frames, d.rest)
  {
    PopEncoded(crc, f, stream);
    DrainAfterPop(crc, Encode(crc, f).value + stream);
  }

  lemma EncodedIsReady(crc: Checksum, f: Frame, tail: Octets)
    requires Admissible(f)
    ensures var wire := Encode(crc, f).value;
      && Ready(crc, wire + tail) && FrameSize(wire + tail) == |wire|
      && (wire + tail)[..|wire|] == wire && (wire + tail)[|wire|..] == tail
  {
    var body := Body(f);
    var wire := body + Pack(crc(body), 4);
    DecodeAfterEncode(crc, f);
    BodyFields(f, Pack(crc(body), 4));
    Widths();
    UnpackPack(|f.payload|, 2);
    UnpackPack(f.requestId, 4);
    assert Ready(crc, wire) && FrameSize(wire) == |wire| by {
      assert wire[..|wire|] == wire;
    }
    VerdictsAreStable(crc, wire, tail);
    assert (wire + tail)[..|wire|] == wire && (wire + tail)[|wire|..] == tail;
  }

  lemma {:induction false} PopEncoded(crc: Checksum, f: Frame, tail: Octets)
    requires Admissible(f)
    ensures Pop(crc, Encode(crc, f).value + tail) == Popped(Some(f), tail)
  {
    EncodedIsReady(crc, f, tail);
    DecodeAfterEncode(crc, f);
  }

  // ---------------------------------------------------------------- what a scan finds

  predicate StartsWithFrame(crc: Checksum, b: Octets, f: Frame, tail: Octets) {
    Admissible(f) && b == Encode(crc, f).value + tail
  }

  /** However the bytes go on, no encoded frame starts with them. */
  ghost predicate Hopeless(crc: Checksum, b: Octets) {
    forall more, f, tail :: !StartsWithFrame(crc, b + more, f, tail)
  }

  lemma DeadIsHopeless(crc: Checksum, b: Octets)
    requires Dead(crc, b)
    ensures Hopeless(crc, b)
  {
    hide Dead, Encode;
    forall more, f, tail ensures !StartsWithFrame(crc, b + more, f, tail) {
      if StartsWithFrame(crc, b + more, f, tail) {
        VerdictsAreStable(crc, b, more);
        EncodedIsReady(crc, f, tail);
      }
    }
  }

  /** `i` is where the scan stopped: nothing before can be a frame, and there is a whole frame or none yet. */
  ghost predicate Stops(crc: Checksum, b: Octets, i: nat, p: Popped) {
    && i <= |b| && (forall k | 0 <= k < i :: Hopeless(crc, b[k..]))
    && if p.frame.Some? then StartsWithFrame(crc, b[i..], p.frame.value, p.rest)
       else p.rest == b[i..] && forall f, tail :: !StartsWithFrame(crc, b[i..], f, tail)
  }

  /** A scan takes the first encoded frame of the bytes, skipping only what can never become one, and leaves what follows it. */
  lemma {:induction false} PopIsFirst(crc: Checksum, b: Octets)
    ensures exists i :: Stops(crc, b, i, Pop(crc, b))
    decreases |b|
  {
    hide Hopeless;
    var p := Pop(crc, b);
    if Dead(crc, b) {
      PopIsFirst(crc, b[1..]);
      var i: nat :| Stops(crc, b[1..], i, p);
      DeadIsHopeless(crc, b);
      assert b[0..] == b && b[1..][i..] == b[i + 1..];
      forall k | 0 <= k < i + 1 ensures Hopeless(crc, b[k..]) {
        if k > 0 {
          assert b[1..][k - 1..] == b[k..];
        }
      }
      assert Stops(crc, b, i + 1, p);
    } else {
      assert b[0..] == b;
      if Ready(crc, b) {
        EncodeAfterDecode(crc, b[..FrameSize(b)]);
        assert b == b[..FrameSize(b)] + b[FrameSize(b)..];
      } else {
        forall f, tail ensures !StartsWithFrame(crc, b, f, tail) {
          if StartsWithFrame(crc, b, f, tail) {
            EncodedIsReady(crc, f, tail);
          }
        }
      }
      assert Stops(crc, b, 0, p);
    }
  }

  /** Noise without the first magic byte is always skipped, whatever its length. */
  lemma {:induction false} NoiseIsSkipped(crc: Checksum, noise: Octets, b: Octets)
    requires 76 !in noise && |b| >= 4
    ensures Pop(crc, noise + b) == Pop(crc, b)
    decreases |noise|
  {
    if noise == [] {
      assert noise + b == b;
    } else {
      assert noise[0] in noise;
      assert (noise + b)[1..] == noise[1..] + b;
      assert (noise + b)[..4][0] == noise[0] && MAGIC[0] == 76;
      NoiseIsSkipped(crc, noise[1..], b);
    }
  }

  // ---------------------------------------------------------------- the in-place scanner

  predicate MagicAt(b: Octets, k: int) {
    0 <= k <= |b| - 4 && b[k..k + 4] == MAGIC
  }

  lemma MagicAtTail(b: Octets, k: int)
    requires |b| > 0 && k >= 1
    ensures MagicAt(b, k) == MagicAt(b[1..], k - 1)
  {
    if k <= |b| - 4 {
      assert b[1..][k - 1..k + 3] == b[k..k + 4];
    }
  }

  /** `bytearray.find(MAGIC)`: the least occurrence, or -1. */
  function FindMagic(b: Octets): (start: int)
    ensures start == -1 || MagicAt(b, start)
    ensures forall k | 0 <= k && (start == -1 || k < start) :: !MagicAt(b, k)
    decreases |b|
  {
    if |b| < 4 then
      -1
    else if MagicAt(b, 0) then
      0
    else
      var later := FindMagic(b[1..]);
      assert forall k | 1 <= k :: MagicAt(b, k) == MagicAt(b[1..], k - 1) by {
        forall k | 1 <= k ensures MagicAt(b, k) == MagicAt(b[1..], k - 1) { MagicAtTail(b, k); }
      }
      if later == -1 then -1 else later + 1
  }

  lemma {:induction false} SkipToMagic(crc: Checksum, b: Octets, count: nat)
    requires count <= |b| && (count > 0 ==> count <= |b| - 3)
    requires forall k | 0 <= k < count :: !MagicAt(b, k)
    ensures Pop(crc, b) == Pop(crc, b[count..])
    decreases count
  {
    if count > 0 {
      assert !MagicAt(b, 0) && b[0..4] == b[..4];
      forall k | 0 <= k < count - 1 ensures !MagicAt(b[1..], k) { MagicAtTail(b, k + 1); }
      SkipToMagic(crc, b[1..], count - 1);
      assert b[1..][count - 1..] == b[count..];
    } else {
      assert b[0..] == b;
    }
  }

  lemma {:induction false} ShortWaits(crc: Checksum, b: Octets)
    requires |b| < 4
    ensures Pop(crc, b) == Popped(None, b)
  {
  }

  /** The four ways one pass of the loop can end once the magic is in front. */
  lemma {:induction false} PassVerdicts(crc: Checksum, b: Octets)
    requires MagicAt(b, 0)
    ensures |b| < HEADER ==> Pop(crc, b) == Popped(None, b)
    ensures |b| >= HEADER && !HeaderOk(b) ==> Pop(crc, b) == Pop(crc, b[1..])
    ensures |b| >= HEADER && HeaderOk(b) && |b| < FrameSize(b) ==> Pop(crc, b) == Popped(None, b)
    ensures |b| >= HEADER && HeaderOk(b) && |b| >= FrameSize(b) ==>
              var decoded := Decode(crc, b[..FrameSize(b)]);
              Pop(crc, b) == if decoded.Failure? then Pop(crc, b[1..]) else Popped(Some(decoded.value), b[FrameSize(b)..])
  {
    assert b[..4] == b[0..4];
  }

  class ResponseBuffer {
    const crc: Checksum
    var buffer: Octets

    constructor (crc: Checksum)
      ensures this.crc == crc && buffer == []
    {
      this.crc := crc;
      buffer := [];
    }

    method Extend(chunk: Octets)
      modifies this
      ensures buffer == old(buffer) + chunk
    {
      buffer := buffer + chunk;
    }

    /** Deletes prefixes in place until a frame is taken or more input is needed. */
    method PopResponse() returns (response: Option<Frame>)
      modifies this
      ensures Popped(response, buffer) == Pop(crc, old(buffer))
    {
      hide Pop, Decode, HeaderOk;
      ghost var result := Pop(crc, buffer);
      while true
        invariant Pop(crc, buffer) == result
        decreases |buffer|
      {
        var start := FindMagic(buffer);
        if start < 0 {
          assert forall k | 0 <= k :: !MagicAt(buffer, k);
          var drop := if |buffer| > 3 then |buffer| - 3 else 0;
          SkipToMagic(crc, buffer, drop);
          ShortWaits(crc, buffer[drop..]);
          buffer := buffer[drop..];
          return None;
        }
        if start != 0 {
          SkipToMagic(crc, buffer, start);
          buffer := buffer[start..];
        }
        assert MagicAt(buffer, 0);
        PassVerdicts(crc, buffer);
        if |buffer| < HEADER {
          return None;
        }
        if !HeaderOk(buffer) {
          buffer := buffer[1..];
          continue;
        }
        var size := FrameSize(buffer);
        if |buffer| < size {
          return None;
        }
        var decoded := Decode(crc, buffer[..size]);
        if decoded.Failure? {
          buffer := buffer[1..];
          continue;
        }
        buffer := buffer[size..];
        return Some(decoded.value);
      }
    }
  }

  lemma {:induction false} NothingLeft(chunks: seq<Octets>)
    requires chunks == []
    ensures Concat(chunks) == []
  {
  }

  lemma {:induction false} TakeOne(buffer: Octets, chunks: seq<Octets>)
    requires chunks != []
    ensures buffer + Concat(chunks) == (buffer + chunks[0]) + Concat(chunks[1..])
  {
    Associative(buffer, chunks[0], Concat(chunks[1..]));
  }

  /**
   * The receive loop of one serial exchange: scan, and read more only when the scan has to wait.
   * However the reads split the stream, the response is the first frame of the undivided stream,
   * and the live input stays below three maximal frames.
   */
  method ReceiveResponse(crc: Checksum, chunks: seq<Octets>) returns (response: Option<Frame>)
    requires forall r <- chunks :: |r| <= 2 * MAX_FRAME
    ensures response == Pop(crc, Concat(chunks)).frame
  {
    hide Pop, Concat;
    var received := new ResponseBuffer(crc);
    var next := 0;
    assert [] + Concat(chunks[0..]) == Concat(chunks);
    while true
      invariant fresh(received) && received.crc == crc
      invariant 0 <= next <= |chunks|
      invariant |received.buffer| < 3 * MAX_FRAME
      invariant Pop(crc, Concat(chunks)) == Pop(crc, received.buffer + Concat(chunks[next..]))
      decreases |chunks| - next
    {
      var before := received.buffer;
      PopSplit(crc, before, Concat(chunks[next..]));
      PopBounds(crc, before);
      response := received.PopResponse();
      if response.Some? || next == |chunks| {
        if next == |chunks| {
          NothingLeft(chunks[next..]);
          assert before + [] == before;
        }
        return;
      }
      assert chunks[next..][1..] == chunks[next + 1..];
      TakeOne(received.buffer, chunks[next..]);
      received.Extend(chunks[next]);
      next := next + 1;
    }
  }
}
