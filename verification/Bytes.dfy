/** Octet strings and the little-endian integers of `struct.pack`. */
module Bytes {

  newtype byte = b: int | 0 <= b < 256
  type Octets = seq<byte>

  function Pow256(n: nat): (r: nat)
    ensures r >= 1
  {
    if n == 0 then 1 else 256 * Pow256(n - 1)
  }

  /** The `width` low-order bytes of `value`, least significant first. */
  function Pack(value: nat, width: nat): (r: Octets)
    ensures |r| == width
  {
    if width == 0 then [] else [(value % 256) as byte] + Pack(value / 256, width - 1)
  }

  function Unpack(data: Octets): (r: nat) {
    if data == [] then 0 else data[0] as int + 256 * Unpack(data[1..])
  }

  lemma {:induction false} UnpackPack(value: nat, width: nat)
    requires value < Pow256(width)
    ensures Unpack(Pack(value, width)) == value
  {
    if width > 0 {
      UnpackPack(value / 256, width - 1);
      assert Pack(value, width)[1..] == Pack(value / 256, width - 1);
    }
  }

  lemma {:induction false} PackUnpack(data: Octets)
    ensures Unpack(data) < Pow256(|data|)
    ensures Pack(Unpack(data), |data|) == data
  {
    if data != [] {
      PackUnpack(data[1..]);
      var high := Unpack(data[1..]);
      assert Unpack(data) == data[0] as int + 256 * high;
      assert Unpack(data) / 256 == high && Unpack(data) % 256 == data[0] as int;
      assert data == [data[0]] + data[1..];
    }
  }

  lemma Widths()
    ensures Pow256(2) == 0x1_0000 && Pow256(4) == 0x1_0000_0000
    ensures Pow256(8) == 0x1_0000_0000_0000_0000
  {
    assert Pow256(1) == 256 && Pow256(3) == 256 * Pow256(2);
    assert Pow256(5) == 256 * Pow256(4) && Pow256(6) == 256 * Pow256(5) && Pow256(7) == 256 * Pow256(6);
  }

  /** The concatenation of a sequence of octet strings, in order. */
  function Concat(parts: seq<Octets>): Octets {
    if parts == [] then [] else parts[0] + Concat(parts[1..])
  }

  lemma Associative<T>(a: seq<T>, b: seq<T>, c: seq<T>)
    ensures a + (b + c) == (a + b) + c
  {
  }
}
