/** The `lmdj.cardputer-transfer.v1` frame codec. */
module Frames {
  import opened Wrappers
  import opened Bytes

  const MAGIC: Octets := [76, 77, 67, 80]
  const VERSION := 1
  const HEADER := 28
  const MAX_PAYLOAD := 1024
  const MAX_FRAME := HEADER + MAX_PAYLOAD + 4

  type word = w: int | 0 <= w < 0x1_0000_0000

  /** CRC-32 stays uninterpreted: every result holds for any 32-bit checksum. */
  type Checksum = Octets -> word

  datatype Frame = Frame(opcode: int, requestId: int, nonce: Octets, payload: Octets, version: int)

  predicate KnownOpcode(opcode: int) {
    1 <= opcode <= 6 || 0x81 <= opcode <= 0x86
  }

  /** Exactly the frames that fit the bounded wire format. */
  predicate Admissible(f: Frame) {
    && f.version == VERSION
    && KnownOpcode(f.opcode)
    && 1 <= f.requestId <= 0xFFFF_FFFF
    && |f.nonce| == 16
    && |f.payload| <= MAX_PAYLOAD
  }

  function Body(f: Frame): (body: Octets)
    requires Admissible(f)
    ensures |body| == HEADER + |f.payload|
  {
    MAGIC + [f.version as byte, f.opcode as byte] + Pack(|f.payload|, 2) + Pack(f.requestId, 4) + f.nonce + f.payload
  }

  function Encode(crc: Checksum, f: Frame): Result<Octets> {
    if Admissible(f) then
      var body := Body(f);
      Success(body + Pack(crc(body), 4))
    else
      Failure
  }

  function PayloadSize(data: Octets): nat
    requires |data| >= HEADER
  {
    Unpack(data[6..8])
  }

  function RequestId(data: Octets): nat
    requires |data| >= HEADER
  {
    Unpack(data[8..12])
  }

  function Decode(crc: Checksum, data: Octets): Result<Frame> {
    if |data| < HEADER + 4 || data[..4] != MAGIC then
      Failure
    else
      var version, opcode := data[4] as int, data[5] as int;
      var size := HEADER + PayloadSize(data) + 4;
      if size > MAX_FRAME || |data| != size then
        Failure
      else if version != VERSION || !KnownOpcode(opcode) || RequestId(data) == 0 then
        Failure
      else if crc(data[..size - 4]) != Unpack(data[size - 4..]) then
        Failure
      else
        Success(Frame(opcode, RequestId(data), data[12..28], data[28..size - 4], version))
  }

  lemma BodyFields(f: Frame, tail: Octets)
    requires Admissible(f)
    ensures var data := Body(f) + tail;
      && data[..4] == MAGIC
      && data[4] as int == f.version
      && data[5] as int == f.opcode
      && data[6..8] == Pack(|f.payload|, 2)
      && data[8..12] == Pack(f.requestId, 4)
      && data[12..28] == f.nonce
      && data[28..28 + |f.payload|] == f.payload
  {
  }

  /** Byte by byte: "LMCP", version, opcode, size, request identity, nonce, payload, checksum; integers least byte first. */
  lemma WireLayout(crc: Checksum, f: Frame)
    requires Admissible(f)
    ensures var d, n := Encode(crc, f).value, |f.payload|;
      && |d| == 32 + n
      && d[0] == 'L' as byte && d[1] == 'M' as byte && d[2] == 'C' as byte && d[3] == 'P' as byte
      && d[4] == 1 && d[5] as int == f.opcode
      && d[6] as int + 256 * d[7] as int == n
      && d[8] as int + 256 * (d[9] as int + 256 * (d[10] as int + 256 * d[11] as int)) == f.requestId
      && d[12..28] == f.nonce && d[28..28 + n] == f.payload
      && d[28 + n] as int + 256 * (d[29 + n] as int + 256 * (d[30 + n] as int + 256 * d[31 + n] as int)) == crc(d[..28 + n])
  {
    var body := Body(f);
    var sum := Pack(crc(body), 4);
    var d, n := body + sum, |f.payload|;
    BodyFields(f, sum);
    Widths();
    UnpackPack(n, 2);
    UnpackPack(f.requestId, 4);
    UnpackPack(crc(body), 4);
    assert d[..28 + n] == body && d[28 + n..] == sum;
    TwoBytes(d[6..8]);
    FourBytes(d[8..12]);
    FourBytes(sum);
    assert forall k | 0 <= k < 4 :: d[..4][k] == d[k] && d[8..12][k] == d[8 + k] && sum[k] == d[28 + n + k];
    assert d[6..8][0] == d[6] && d[6..8][1] == d[7];
  }

  lemma {:induction false} TwoBytes(b: Octets)
    requires |b| == 2
    ensures Unpack(b) == b[0] as int + 256 * b[1] as int
  {
    assert b[1..][1..] == [];
    assert Unpack(b[1..]) == b[1] as int;
  }

  lemma {:induction false} FourBytes(b: Octets)
    requires |b| == 4
    ensures Unpack(b) == b[0] as int + 256 * (b[1] as int + 256 * (b[2] as int + 256 * b[3] as int))
  {
    assert b[1..][1..] == b[2..];
    TwoBytes(b[2..]);
    assert Unpack(b[1..]) == b[1] as int + 256 * Unpack(b[2..]);
  }

  /** What fits the wire: version 1, a request or answer opcode, a 32-bit request identity but zero, 16 bytes of nonce, 1024 of payload. */
  lemma AdmissibleMeans(crc: Checksum, f: Frame)
    ensures Encode(crc, f).Success? <==>
      && f.version == 1 && f.opcode in {1, 2, 3, 4, 5, 6, 129, 130, 131, 132, 133, 134}
      && 1 <= f.requestId <= 4294967295 && |f.nonce| == 16 && |f.payload| <= 1024
  {
  }

  /** `decode(encode(f)) == f`. */
  lemma DecodeAfterEncode(crc: Checksum, f: Frame)
    requires Admissible(f)
    ensures Decode(crc, Encode(crc, f).value) == Success(f)
  {
    var body := Body(f);
    var data := body + Pack(crc(body), 4);
    BodyFields(f, Pack(crc(body), 4));
    Widths();
    UnpackPack(|f.payload|, 2);
    UnpackPack(f.requestId, 4);
    UnpackPack(crc(body), 4);
    assert data[..|data| - 4] == body;
    assert data[|data| - 4..] == Pack(crc(body), 4);
  }

  /** `encode(decode(d)) == d`. */
  lemma EncodeAfterDecode(crc: Checksum, data: Octets)
    requires Decode(crc, data).Success?
    ensures Encode(crc, Decode(crc, data).value) == Success(data)
  {
    var f := Decode(crc, data).value;
    PackUnpack(data[6..8]);
    PackUnpack(data[8..12]);
    PackUnpack(data[|data| - 4..]);
    Widths();
    assert |f.payload| == PayloadSize(data);
    assert data[..|data| - 4] == Body(f) by {
      assert data[..|data| - 4] ==
        data[..4] + [data[4], data[5]] + data[6..8] + data[8..12] + data[12..28] + data[28..|data| - 4];
    }
    assert data == data[..|data| - 4] + data[|data| - 4..];
  }

  /** The decoder is the exact inverse of the encoder: neither accepts anything the other does not. */
  lemma DecodeInvertsEncode(crc: Checksum, f: Frame, data: Octets)
    ensures Decode(crc, data) == Success(f) <==> Encode(crc, f) == Success(data)
  {
    if Decode(crc, data) == Success(f) {
      EncodeAfterDecode(crc, data);
    }
    if Encode(crc, f) == Success(data) {
      DecodeAfterEncode(crc, f);
    }
  }
}
