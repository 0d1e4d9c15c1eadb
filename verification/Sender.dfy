/** The sender's frame list for one content, and its journey to the device's sink. */
module Sender {
  import opened Wrappers
  import opened Bytes
  import opened Frames
  import opened Staging
  import opened Sessions
  import opened Scanner

  const MAX_CHUNK := MAX_PAYLOAD - 24

  function Min(a: int, b: int): int {
    if a < b then a else b
  }

  function BeginFrame(content: Octets, digest: Octets, requestId: nat, nonce: Octets, transferId: Octets): Frame {
    Frame(3, requestId, nonce, transferId + Pack(|content|, 8) + digest, VERSION)
  }

  function DataFrame(content: Octets, offset: nat, requestId: nat, nonce: Octets, chunkSize: nat, transferId: Octets): Frame
    requires offset <= |content|
  {
    Frame(4, requestId, nonce, transferId + Pack(offset, 8) + content[offset..Min(offset + chunkSize, |content|)], VERSION)
  }

  function DataFrames(content: Octets, offset: nat, requestId: nat, nonce: Octets, chunkSize: nat, transferId: Octets): seq<Frame>
    requires offset <= |content| && chunkSize >= 1
    decreases |content| - offset
  {
    if offset == |content| then
      []
    else
      [DataFrame(content, offset, requestId, nonce, chunkSize, transferId)]
      + DataFrames(content, Min(offset + chunkSize, |content|), requestId + 1, nonce, chunkSize, transferId)
  }

  /** How many DATA frames `remaining` bytes need. */
  function Chunks(remaining: nat, chunkSize: nat): nat
    requires chunkSize >= 1
    decreases remaining
  {
    if remaining == 0 then 0 else 1 + Chunks(remaining - Min(chunkSize, remaining), chunkSize)
  }

  function SenderFrames(content: Octets, digest: Octets, requestId: nat, nonce: Octets, chunkSize: nat, transferId: Octets): seq<Frame>
    requires chunkSize >= 1
  {
    [BeginFrame(content, digest, requestId, nonce, transferId)]
    + DataFrames(content, 0, requestId + 1, nonce, chunkSize, transferId)
    + [Frame(5, requestId + 1 + Chunks(|content|, chunkSize), nonce, transferId, VERSION)]
  }

  lemma {:induction false} DataFramesAreAdmissible(
      content: Octets, offset: nat, requestId: nat, nonce: Octets, chunkSize: nat, transferId: Octets)
    requires offset <= |content| && 1 <= chunkSize <= MAX_CHUNK && |nonce| == 16 && |transferId| == 16
    requires 1 <= requestId && requestId + Chunks(|content| - offset, chunkSize) <= LAST_REQUEST_ID
    ensures var frames := DataFrames(content, offset, requestId, nonce, chunkSize, transferId);
      && |frames| == Chunks(|content| - offset, chunkSize)
      && forall f <- frames :: Admissible(f)
    decreases |content| - offset
  {
    if offset < |content| {
      DataFramesAreAdmissible(content, Min(offset + chunkSize, |content|), requestId + 1, nonce, chunkSize, transferId);
      assert Admissible(DataFrame(content, offset, requestId, nonce, chunkSize, transferId));
    }
  }

  /** Exactly when the sender builds frames at all. */
  predicate Sendable(content: Octets, requestId: int, nonce: Octets, chunkSize: int, transferId: Octets) {
    && requestId >= 1
    && |nonce| == 16
    && 1 <= chunkSize <= MAX_CHUNK
    && |transferId| == 16 && AnyBit(transferId)
    && |content| < 0x1_0000_0000_0000_0000
    && requestId + 1 + Chunks(|content|, chunkSize) <= LAST_REQUEST_ID
  }

  /** A content is sendable exactly while its last frame still has a u32 request: so much fits, chunk by chunk. */
  lemma SendableMeans(content: Octets, requestId: int, nonce: Octets, chunkSize: int, transferId: Octets)
    ensures Sendable(content, requestId, nonce, chunkSize, transferId) <==>
      && requestId >= 1 && |nonce| == 16 && 1 <= chunkSize <= 1000
      && |transferId| == 16 && (exists b <- transferId :: b != 0)
      && |content| <= 18446744073709551615
      && requestId <= 4294967294 && |content| <= (4294967294 - requestId) * chunkSize
  {
    if chunkSize >= 1 && requestId <= 4294967294 {
      ChunksMean(|content|, chunkSize, 4294967294 - requestId);
    }
  }

  lemma {:induction false} ChunksMean(remaining: nat, chunkSize: nat, most: nat)
    requires chunkSize >= 1
    ensures Chunks(remaining, chunkSize) <= most <==> remaining <= most * chunkSize
    decreases remaining
  {
    if remaining > 0 && most > 0 {
      ChunksMean(remaining - Min(chunkSize, remaining), chunkSize, most - 1);
      assert most * chunkSize == (most - 1) * chunkSize + chunkSize;
    }
  }

  lemma SenderFramesAreAdmissible(content: Octets, digest: Octets, requestId: nat, nonce: Octets, chunkSize: nat, transferId: Octets)
    requires Sendable(content, requestId, nonce, chunkSize, transferId) && |digest| == 32
    ensures forall f <- SenderFrames(content, digest, requestId, nonce, chunkSize, transferId) :: Admissible(f)
  {
    DataFramesAreAdmissible(content, 0, requestId + 1, nonce, chunkSize, transferId);
    assert Admissible(BeginFrame(content, digest, requestId, nonce, transferId));
  }

  function SenderWires(crc: Checksum, content: Octets, digest: Octets, requestId: nat, nonce: Octets,
                       chunkSize: nat, transferId: Octets): seq<Octets>
    requires Sendable(content, requestId, nonce, chunkSize, transferId) && |digest| == 32
  {
    SenderFramesAreAdmissible(content, digest, requestId, nonce, chunkSize, transferId);
    EncodeAll(crc, SenderFrames(content, digest, requestId, nonce, chunkSize, transferId))
  }

  function EffectiveTransferId(sha256: Octets -> Octets, content: Octets, transferId: Option<Octets>): Octets
    requires |sha256(content)| == 32
  {
    if transferId.Some? then transferId.value else sha256(content)[..16]
  }

  lemma {:induction false} EncodeAllSnoc(crc: Checksum, a: seq<Frame>, f: Frame)
    requires (forall g <- a :: Admissible(g)) && Admissible(f)
    ensures forall g <- a + [f] :: Admissible(g)
    ensures EncodeAll(crc, a + [f]) == EncodeAll(crc, a) + [Encode(crc, f).value]
    decreases |a|
  {
    if a == [] {
      assert a + [f] == [f];
    } else {
      assert (a + [f])[1..] == a[1..] + [f];
      EncodeAllSnoc(crc, a[1..], f);
    }
  }

  lemma {:induction false} NothingLeft(content: Octets, requestId: nat, nonce: Octets, chunkSize: nat, transferId: Octets)
    requires chunkSize >= 1
    ensures DataFrames(content, |content|, requestId, nonce, chunkSize, transferId) == []
    ensures Chunks(0, chunkSize) == 0
    ensures forall sent: seq<Frame> :: sent + [] == sent
  {
  }

  lemma EncodeOne(crc: Checksum, f: Frame)
    requires Admissible(f)
    ensures EncodeAll(crc, [f]) == [Encode(crc, f).value]
  {
  }

  lemma NextDataFrame(crc: Checksum, content: Octets, offset: nat, requestId: nat, nonce: Octets, chunkSize: nat, transferId: Octets)
    requires offset < |content| && 1 <= chunkSize <= MAX_CHUNK && |nonce| == 16 && |transferId| == 16 && requestId >= 1
    ensures var frame := DataFrame(content, offset, requestId, nonce, chunkSize, transferId);
      var next := Min(offset + chunkSize, |content|);
      && (Encode(crc, frame).Success? <==> requestId <= LAST_REQUEST_ID)
      && (Encode(crc, frame).Success? <==> Admissible(frame))
      && offset < next <= |content|
      && Chunks(|content| - offset, chunkSize) == 1 + Chunks(|content| - next, chunkSize)
      && DataFrames(content, offset, requestId, nonce, chunkSize, transferId)
           == [frame] + DataFrames(content, next, requestId + 1, nonce, chunkSize, transferId)
  {
  }

  /** Builds the complete sender stream frame by frame; any frame that cannot be encoded ends it. */
  method ContentFrames(crc: Checksum, sha256: Octets -> Octets, content: Octets, requestId: int, nonce: Octets,
                       chunkSize: int, transferId: Option<Octets>)
    returns (r: Result<seq<Octets>>)
    requires |sha256(content)| == 32
    ensures r.Success? <==>
      Sendable(content, requestId, nonce, chunkSize, EffectiveTransferId(sha256, content, transferId))
    ensures r.Success? ==>
      r.value == SenderWires(crc, content, sha256(content), requestId, nonce, chunkSize,
                             EffectiveTransferId(sha256, content, transferId))
  {
    hide Body, Pack, AnyBit, Concat, Chunks, DataFrames, DataFrame, EncodeAll;
    if !(1 <= requestId <= LAST_REQUEST_ID) || |nonce| != 16 {
      return Failure;
    }
    if !(1 <= chunkSize <= MAX_CHUNK) {
      return Failure;
    }
    var tid := EffectiveTransferId(sha256, content, transferId);
    if |tid| != 16 || !AnyBit(tid) {
      return Failure;
    }
    if |content| >= 0x1_0000_0000_0000_0000 {
      return Failure;
    }
    var begin := BeginFrame(content, sha256(content), requestId, nonce, tid);
    var first := Encode(crc, begin).value;
    var frames, next, offset := [first], requestId + 1, 0;
    ghost var sent := [begin];
    EncodeOne(crc, begin);
    ghost var all := DataFrames(content, 0, requestId + 1, nonce, chunkSize, tid);
    while offset < |content|
      invariant 0 <= offset <= |content|
      invariant requestId < next <= LAST_REQUEST_ID + 1
      invariant forall f <- sent :: Admissible(f)
      invariant frames == EncodeAll(crc, sent)
      invariant next + Chunks(|content| - offset, chunkSize) == requestId + 1 + Chunks(|content|, chunkSize)
      invariant [begin] + all == sent + DataFrames(content, offset, next, nonce, chunkSize, tid)
    {
      NextDataFrame(crc, content, offset, next, nonce, chunkSize, tid);
      var frame := DataFrame(content, offset, next, nonce, chunkSize, tid);
      var wire := Encode(crc, frame);
      if wire.Failure? {
        return Failure;
      }
      EncodeAllSnoc(crc, sent, frame);
      ghost var rest := DataFrames(content, Min(offset + chunkSize, |content|), next + 1, nonce, chunkSize, tid);
      Associative(sent, [frame], rest);
      frames := frames + [wire.value];
      sent := sent + [frame];
      next := next + 1;
      offset := Min(offset + chunkSize, |content|);
    }
    NothingLeft(content, next, nonce, chunkSize, tid);
    var commit := Frame(5, next, nonce, tid, VERSION);
    var last := Encode(crc, commit);
    if last.Failure? {
      return Failure;
    }
    EncodeAllSnoc(crc, sent, commit);
    assert sent + [commit] == SenderFrames(content, sha256(content), requestId, nonce, chunkSize, tid);
    return Success(frames + [last.value]);
  }

  // ---------------------------------------------------------------- end to end

  predicate Carries(arrivals: seq<Arrival>, frames: seq<Frame>) {
    |arrivals| == |frames| && forall i | 0 <= i < |frames| :: arrivals[i].frame == frames[i]
  }

  function AllAccepted(n: nat): seq<Reply> {
    seq(n, i => Accepted)
  }

  lemma OneMoreAccepted(n: nat)
    ensures [Accepted] + AllAccepted(n) == AllAccepted(n + 1)
  {
  }

  predicate Receiving(s: SessionView, content: Octets, offset: nat, requestId: nat, nonce: Octets,
                      identity: ContentIdentity, transferId: Octets)
    requires offset <= |content|
  {
    && s.nonce == Some(nonce)
    && s.nextRequestId == requestId
    && Addresses(s.station, transferId)
    && s.station.transaction.value.identity == identity
    && s.station.transaction.value.staged == content[..offset]
  }

  /** The next slice of the content is staged behind the part that is already there. */
  lemma StagesNext(s: Station, transferId: Octets, content: Octets, offset: nat, end: nat, now: int)
    requires Addresses(s, transferId) && offset < end <= |content|
    requires s.transaction.value.identity.byteLength == |content| && s.transaction.value.staged == content[..offset]
    ensures var o := DataTransfer(s, transferId, offset, content[offset..end], now);
      && o.reply == Accepted && o.station.delivered == s.delivered
      && Addresses(o.station, transferId)
      && o.station.transaction.value.identity == s.transaction.value.identity
      && o.station.transaction.value.staged == content[..end]
  {
    assert content[..end] == content[..offset] + content[offset..end];
  }

  lemma OneDataFrame(device: Device, s: SessionView, a: Arrival, content: Octets, offset: nat, requestId: nat,
                     nonce: Octets, identity: ContentIdentity, chunkSize: nat, transferId: Octets)
    requires 1 <= chunkSize && offset < |content| < 0x1_0000_0000_0000_0000 && |transferId| == 16
    requires 1 <= requestId < LAST_REQUEST_ID
    requires identity.byteLength == |content|
    requires Receiving(s, content, offset, requestId, nonce, identity, transferId)
    requires a.frame == DataFrame(content, offset, requestId, nonce, chunkSize, transferId)
    ensures var o := Handle(device, s, a);
      && o.reply == Accepted
      && o.session.station.delivered == s.station.delivered
      && Receiving(o.session, content, Min(offset + chunkSize, |content|), requestId + 1, nonce, identity, transferId)
  {
    hide Staging.DataTransfer;
    var end := Min(offset + chunkSize, |content|);
    var p := a.frame.payload;
    assert p[..16] == transferId && p[16..24] == Pack(offset, 8) && p[24..] == content[offset..end];
    Widths();
    UnpackPack(offset, 8);
    StagesNext(s.station, transferId, content, offset, end, a.now);
    assert ReachesSession(a) && Authorized(s, a.frame.requestId, a.frame.nonce);
  }

  lemma {:induction false} DataArrives(device: Device, s: SessionView, arrivals: seq<Arrival>, content: Octets, offset: nat,
                                       requestId: nat, nonce: Octets, identity: ContentIdentity, chunkSize: nat, transferId: Octets)
    requires 1 <= chunkSize && offset <= |content| < 0x1_0000_0000_0000_0000 && |transferId| == 16
    requires 1 <= requestId && requestId + Chunks(|content| - offset, chunkSize) <= LAST_REQUEST_ID
    requires identity.byteLength == |content|
    requires Receiving(s, content, offset, requestId, nonce, identity, transferId)
    requires Carries(arrivals, DataFrames(content, offset, requestId, nonce, chunkSize, transferId))
    ensures var served := Serve(device, s, arrivals);
      && served.replies == AllAccepted(|arrivals|)
      && served.session.station.delivered == s.station.delivered
      && Receiving(served.session, content, |content|, requestId + Chunks(|content| - offset, chunkSize), nonce, identity, transferId)
    decreases |content| - offset
  {
    hide Handle, Receiving, DataFrame;
    if offset < |content| {
      OneDataFrame(device, s, arrivals[0], content, offset, requestId, nonce, identity, chunkSize, transferId);
      DataArrives(device, Handle(device, s, arrivals[0]).session, arrivals[1..], content, Min(offset + chunkSize, |content|),
                  requestId + 1, nonce, identity, chunkSize, transferId);
      OneMoreAccepted(|arrivals| - 1);
    }
  }

  lemma BeginArrives(device: Device, s: SessionView, a: Arrival, content: Octets, requestId: nat, nonce: Octets, transferId: Octets)
    requires |device.sha256(content)| == 32 && |content| < 0x1_0000_0000_0000_0000
    requires |transferId| == 16 && AnyBit(transferId) && |content| <= device.maximumBytes
    requires 1 <= requestId < LAST_REQUEST_ID && s.nonce == Some(nonce) && s.nextRequestId == requestId
    requires s.station.transaction.None? && a.armed
    requires a.frame == BeginFrame(content, device.sha256(content), requestId, nonce, transferId)
    ensures var o := Handle(device, s, a);
      && o.reply == Accepted
      && o.session.station.delivered == s.station.delivered
      && Receiving(o.session, content, 0, requestId + 1, nonce,
                   ContentIdentity(device.sha256(content), |content|, transferId), transferId)
  {
    var p := a.frame.payload;
    assert p[..16] == transferId && p[16..24] == Pack(|content|, 8) && p[24..56] == device.sha256(content);
    Widths();
    UnpackPack(|content|, 8);
  }

  lemma CommitArrives(device: Device, s: SessionView, a: Arrival, content: Octets, requestId: nat, nonce: Octets,
                      identity: ContentIdentity, transferId: Octets)
    requires 1 <= requestId && |transferId| == 16
    requires identity.byteLength == |content| && identity.sha256 == device.sha256(content)
    requires Receiving(s, content, |content|, requestId, nonce, identity, transferId)
    requires a.frame == Frame(5, requestId, nonce, transferId, VERSION)
    ensures var o := Handle(device, s, a);
      && o.session.station == Station(None, s.station.delivered + [Delivery(content, identity)])
      && o.reply == if device.sink(|s.station.delivered|, content, identity) == SinkAccepts then Committed else Rejected
  {
    assert content[..|content|] == content;
  }

  lemma {:induction false} ServeParts(device: Device, s: SessionView, first: Arrival, middle: seq<Arrival>, last: Arrival)
    ensures var one := Handle(device, s, first);
      var two := Serve(device, one.session, middle);
      var three := Handle(device, two.session, last);
      Serve(device, s, [first] + middle + [last]) == Served([one.reply] + two.replies + [three.reply], three.session)
  {
    hide Handle;
    var arrivals := [first] + middle + [last];
    assert arrivals[1..] == middle + [last];
    var one := Handle(device, s, first);
    var two := Serve(device, one.session, middle);
    var answer := Handle(device, two.session, last).reply;
    assert Serve(device, two.session, [last]).replies == [answer];
    ServeAppend(device, one.session, middle, [last]);
    Associative([one.reply], two.replies, [answer]);
  }

  /** Which arrival carries which of the sender's frames. */
  lemma {:induction false} SenderArrivals(arrivals: seq<Arrival>, content: Octets, digest: Octets, requestId: nat, nonce: Octets, chunkSize: nat,
                       transferId: Octets)
    requires Sendable(content, requestId, nonce, chunkSize, transferId)
    requires Carries(arrivals, SenderFrames(content, digest, requestId, nonce, chunkSize, transferId))
    ensures var n := Chunks(|content|, chunkSize);
      && |arrivals| == n + 2
      && arrivals[0].frame == BeginFrame(content, digest, requestId, nonce, transferId)
      && Carries(arrivals[1..n + 1], DataFrames(content, 0, requestId + 1, nonce, chunkSize, transferId))
      && arrivals[n + 1].frame == Frame(5, requestId + 1 + n, nonce, transferId, VERSION)
      && arrivals == [arrivals[0]] + arrivals[1..n + 1] + [arrivals[n + 1]]
  {
    hide BeginFrame, DataFrames, Admissible, AnyBit, Chunks;
    DataFramesAreAdmissible(content, 0, requestId + 1, nonce, chunkSize, transferId);
    var frames := SenderFrames(content, digest, requestId, nonce, chunkSize, transferId);
    assert frames[1..|frames| - 1] == DataFrames(content, 0, requestId + 1, nonce, chunkSize, transferId);
  }

  /**
   * From sender to sink: for every content that fits and every legal chunk size, the frames served in order by a
   * greeted, idle session hand the sink exactly that content, once, and the answers tell the sender so.
   */
  lemma {:induction false} EndToEnd(device: Device, s: SessionView, arrivals: seq<Arrival>, content: Octets, requestId: nat, nonce: Octets,
                 chunkSize: nat, transferId: Octets)
    requires |device.sha256(content)| == 32 && |content| <= device.maximumBytes
    requires Sendable(content, requestId, nonce, chunkSize, transferId)
    requires s.nonce == Some(nonce) && s.nextRequestId == requestId && s.station.transaction.None?
    requires forall a <- arrivals :: a.armed
    requires Carries(arrivals, SenderFrames(content, device.sha256(content), requestId, nonce, chunkSize, transferId))
    ensures var identity := ContentIdentity(device.sha256(content), |content|, transferId);
      var served := Serve(device, s, arrivals);
      && served.session.station == Station(None, s.station.delivered + [Delivery(content, identity)])
      && served.replies == AllAccepted(|arrivals| - 1)
           + [if device.sink(|s.station.delivered|, content, identity) == SinkAccepts then Committed else Rejected]
  {
    hide Handle, Begun, BeginFrame, DataFrames, SenderFrames, Carries, Receiving, AnyBit, Serve, AllAccepted;
    var digest := device.sha256(content);
    var identity := ContentIdentity(digest, |content|, transferId);
    var n := Chunks(|content|, chunkSize);
    SenderArrivals(arrivals, content, digest, requestId, nonce, chunkSize, transferId);
    var middle, last := arrivals[1..n + 1], arrivals[n + 1];
    BeginArrives(device, s, arrivals[0], content, requestId, nonce, transferId);
    var s1 := Handle(device, s, arrivals[0]).session;
    DataArrives(device, s1, middle, content, 0, requestId + 1, nonce, identity, chunkSize, transferId);
    var s2 := Serve(device, s1, middle).session;
    CommitArrives(device, s2, last, content, requestId + 1 + n, nonce, identity, transferId);
    ServeParts(device, s, arrivals[0], middle, last);
    OneMoreAccepted(n);
  }

  /** Frames that declare one content and carry another of the same length: the sink gets nothing, and the commit is rejected. */
  lemma {:induction false} AlteredContentIsRefused(device: Device, s: SessionView, arrivals: seq<Arrival>, content: Octets, altered: Octets,
                                                   requestId: nat, nonce: Octets, chunkSize: nat, transferId: Octets)
    requires |device.sha256(content)| == 32 && |content| == |altered| <= device.maximumBytes
    requires device.sha256(altered) != device.sha256(content)
    requires Sendable(content, requestId, nonce, chunkSize, transferId)
    requires s.nonce == Some(nonce) && s.nextRequestId == requestId && s.station.transaction.None?
    requires |arrivals| == Chunks(|content|, chunkSize) + 2 && forall a <- arrivals :: a.armed
    requires arrivals[0].frame == BeginFrame(content, device.sha256(content), requestId, nonce, transferId)
    requires Carries(arrivals[1..|arrivals| - 1], DataFrames(altered, 0, requestId + 1, nonce, chunkSize, transferId))
    requires arrivals[|arrivals| - 1].frame == Frame(5, requestId + 1 + Chunks(|content|, chunkSize), nonce, transferId, VERSION)
    ensures var served := Serve(device, s, arrivals);
      && served.session.station == s.station
      && served.replies == AllAccepted(|arrivals| - 1) + [Rejected]
  {
    hide Handle, Begun, BeginFrame, DataFrames, Carries, Receiving, AnyBit, Serve, AllAccepted;
    var identity := ContentIdentity(device.sha256(content), |content|, transferId);
    var n := Chunks(|content|, chunkSize);
    var middle, last := arrivals[1..n + 1], arrivals[n + 1];
    BeginArrives(device, s, arrivals[0], content, requestId, nonce, transferId);
    var s1 := Handle(device, s, arrivals[0]).session;
    NothingReceived(s1, content, altered, requestId + 1, nonce, identity, transferId);
    DataArrives(device, s1, middle, altered, 0, requestId + 1, nonce, identity, chunkSize, transferId);
    var s2 := Serve(device, s1, middle).session;
    AlteredCommit(device, s2, last, altered, requestId + 1 + n, nonce, identity, transferId);
    ServeParts(device, s, arrivals[0], middle, last);
    assert arrivals == [arrivals[0]] + middle + [last];
    OneMoreAccepted(n);
  }

  lemma NothingReceived(s: SessionView, content: Octets, altered: Octets, requestId: nat, nonce: Octets,
                        identity: ContentIdentity, transferId: Octets)
    requires Receiving(s, content, 0, requestId, nonce, identity, transferId)
    ensures Receiving(s, altered, 0, requestId, nonce, identity, transferId)
  {
    assert content[..0] == altered[..0];
  }

  lemma AlteredCommit(device: Device, s: SessionView, a: Arrival, altered: Octets, requestId: nat, nonce: Octets,
                      identity: ContentIdentity, transferId: Octets)
    requires 1 <= requestId && |transferId| == 16
    requires identity.byteLength == |altered| && identity.sha256 != device.sha256(altered)
    requires Receiving(s, altered, |altered|, requestId, nonce, identity, transferId)
    requires a.frame == Frame(5, requestId, nonce, transferId, VERSION)
    ensures Handle(device, s, a).session.station == Station(None, s.station.delivered) && Handle(device, s, a).reply == Rejected
  {
    assert altered[..|altered|] == altered;
  }

  /** The frames a device takes from its byte stream, given when each of them arrives. */
  predicate TakenFrom(crc: Checksum, chunks: seq<Octets>, arrivals: seq<Arrival>) {
    Carries(arrivals, Feed(crc, [], chunks).frames)
  }

  /** The same over the wire: the byte stream may be cut anywhere. */
  lemma {:induction false} OverTheWire(crc: Checksum, device: Device, s: SessionView, content: Octets, requestId: nat, nonce: Octets,
                    chunkSize: nat, transferId: Octets, chunks: seq<Octets>, arrivals: seq<Arrival>)
    requires |device.sha256(content)| == 32 && |content| <= device.maximumBytes
    requires Sendable(content, requestId, nonce, chunkSize, transferId)
    requires s.nonce == Some(nonce) && s.nextRequestId == requestId && s.station.transaction.None?
    requires forall a <- arrivals :: a.armed
    requires Concat(chunks) == Concat(SenderWires(crc, content, device.sha256(content), requestId, nonce, chunkSize, transferId))
    requires TakenFrom(crc, chunks, arrivals)
    ensures Feed(crc, [], chunks).rest == []
    ensures Serve(device, s, arrivals).session.station.delivered
      == s.station.delivered + [Delivery(content, ContentIdentity(device.sha256(content), |content|, transferId))]
  {
    var frames := SenderFrames(content, device.sha256(content), requestId, nonce, chunkSize, transferId);
    SenderFramesAreAdmissible(content, device.sha256(content), requestId, nonce, chunkSize, transferId);
    ChunkingInvariance(crc, [], chunks);
    EncodedFramesPopBack(crc, frames, []);
    var stream := Concat(EncodeAll(crc, frames));
    assert [] + Concat(chunks) == stream + [] == stream;
    assert frames + Drain(crc, []).frames == frames;
    EndToEnd(device, s, arrivals, content, requestId, nonce, chunkSize, transferId);
  }
}
