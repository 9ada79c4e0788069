/** The bytes of the payment extension: a compact tip, then an optional 32-byte sponsor. */
module Payload {
  import opened Types

  newtype byte = b: int | 0 <= b < 256

  datatype Extension = Extension(tip: nat, sponsor: Option<seq<byte>>)

  const MAX_TIP_BYTES: nat := 16

  /** What the two fields can hold: a 128-bit tip and a 32-byte account. */
  predicate Fields(x: Extension) {
    x.tip < Pow256(MAX_TIP_BYTES) && (x.sponsor.Some? ==> |x.sponsor.value| == 32)
  }

  // -------------------------------------------------------- little-endian bytes

  function Pow256(k: nat): nat { if k == 0 then 1 else 256 * Pow256(k - 1) }

  function ToBytes(n: nat, k: nat): seq<byte>
    decreases k
  {
    if k == 0 then [] else [(n % 256) as byte] + ToBytes(n / 256, k - 1)
  }

  function FromBytes(bs: seq<byte>): nat {
    if bs == [] then 0 else bs[0] as nat + 256 * FromBytes(bs[1..])
  }

  /** The number of bytes `n` needs. */
  function ByteLength(n: nat): nat { if n < 256 then 1 else 1 + ByteLength(n / 256) }

  lemma {:induction false} BytesBack(n: nat, k: nat)
    requires n < Pow256(k)
    ensures |ToBytes(n, k)| == k && FromBytes(ToBytes(n, k)) == n
    decreases k
  {
    if k == 0 {
    } else {
      BytesBack(n / 256, k - 1);
      assert ToBytes(n, k)[1..] == ToBytes(n / 256, k - 1);
    }
  }

  lemma {:induction false} NumberBack(bs: seq<byte>)
    ensures FromBytes(bs) < Pow256(|bs|) && ToBytes(FromBytes(bs), |bs|) == bs
  {
    if bs == [] {
    } else {
      NumberBack(bs[1..]);
      assert FromBytes(bs) % 256 == bs[0] as nat && FromBytes(bs) / 256 == FromBytes(bs[1..]);
    }
  }

  lemma {:induction false} ByteLengthTight(n: nat, k: nat)
    requires n > 0 && k > 0
    ensures ByteLength(n) == k <==> Pow256(k - 1) <= n < Pow256(k)
    decreases n
  {
    if n >= 256 {
      if k > 1 { ByteLengthTight(n / 256, k - 1); }
    } else if k > 1 {
      PowAtLeast(k - 1);
    }
  }

  lemma {:induction false} PowAtLeast(k: nat)
    requires k > 0
    ensures Pow256(k) >= 256
  {
    if k == 1 {
    } else {
      PowAtLeast(k - 1);
    }
  }

  lemma SmallPowers()
    ensures Pow256(1) == 0x100 && Pow256(2) == 0x1_0000 && Pow256(3) == 0x100_0000 && Pow256(4) == 0x1_0000_0000
  {
    assert Pow256(0) == 1;
  }

  // ------------------------------------------------------------------ the codec

  /** The form of a number of four bytes or more: a length byte, then its `k` bytes. */
  function EncodeBig(n: nat, k: nat): seq<byte> {
    [((4 * Minus(k, 4) + 3) % 256) as byte] + ToBytes(n, k)
  }

  /** The low two bits of the first byte say how the number is written. */
  function Mode(n: nat): nat {
    if n < 0x40 then 0 else if n < 0x4000 then 1 else if n < 0x4000_0000 then 2 else 3
  }

  /** Bytes taken by a short form. */
  function Width(mode: nat): nat {
    if mode == 0 then 1 else if mode == 1 then 2 else 4
  }

  /** The least number written in a short form. */
  function Least(mode: nat): nat {
    if mode == 0 then 0 else if mode == 1 then 0x40 else 0x4000
  }

  function EncodeCompact(n: nat): seq<byte> {
    if Mode(n) < 3 then ToBytes(4 * n + Mode(n), Width(Mode(n))) else EncodeBig(n, ByteLength(n))
  }

  lemma ByteLengthBetween(n: nat, lo: nat, hi: nat)
    requires n > 0 && lo > 0 && Pow256(lo - 1) <= n < Pow256(hi)
    ensures lo <= ByteLength(n) <= hi
    ensures Pow256(ByteLength(n) - 1) <= n < Pow256(ByteLength(n))
  {
    var k := ByteLength(n);
    ByteLengthTight(n, k);
    if k < lo { PowMonotone(k, lo - 1); }
    if k > hi { PowMonotone(hi, k - 1); }
  }

  lemma {:induction false} PowMonotone(j: nat, k: nat)
    requires j <= k
    ensures Pow256(j) <= Pow256(k)
    decreases k
  {
    if j == k {
    } else {
      PowMonotone(j, k - 1);
    }
  }

  /** A short form fits its width, a long one takes at least four bytes. */
  lemma FormFits(n: nat)
    ensures Mode(n) < 3 ==> 4 * n + Mode(n) < Pow256(Width(Mode(n))) && n >= Least(Mode(n))
    ensures Mode(n) == 3 ==> Pow256(3) <= n
  {
    SmallPowers();
  }

  datatype Decoded<+T> = Bad | Good(value: T, rest: seq<byte>)

  /** Reads `k` bytes as a number shifted by two bits; less than `least` has a shorter form. */
  function DecodeShort(bs: seq<byte>, k: nat, least: nat): Decoded<nat> {
    if |bs| < k then Bad
    else
      var n := FromBytes(bs[..k]) / 4;
      if n < least then Bad else Good(n, bs[k..])
  }

  function DecodeBig(bs: seq<byte>, k: nat): Decoded<nat>
    requires k > 0
  {
    if k > MAX_TIP_BYTES || |bs| < k then Bad
    else
      var n := FromBytes(bs[..k]);
      if n < 0x4000_0000 || n < Pow256(k - 1) then Bad else Good(n, bs[k..])
  }

  /** Reads one compact number; longer forms of a number that fits a shorter one are refused. */
  function DecodeCompact(bs: seq<byte>): Decoded<nat> {
    if bs == [] then Bad
    else
      var mode := bs[0] as nat % 4;
      if mode < 3 then DecodeShort(bs, Width(mode), Least(mode)) else DecodeBig(bs[1..], bs[0] as nat / 4 + 4)
  }

  function EncodeSponsor(s: Option<seq<byte>>): seq<byte> {
    if s.None? then [0] else [1] + s.value
  }

  function DecodeSponsor(bs: seq<byte>): Decoded<Option<seq<byte>>> {
    if bs == [] then Bad
    else if bs[0] == 0 then Good(None, bs[1..])
    else if bs[0] == 1 && |bs| >= 33 then Good(Some(bs[1..33]), bs[33..])
    else Bad
  }

  function Encode(x: Extension): seq<byte>
    requires Fields(x)
  {
    EncodeCompact(x.tip) + EncodeSponsor(x.sponsor)
  }

  /** The runtime's field order: tip, then sponsor. */
  function Decode(bs: seq<byte>): Decoded<Extension> {
    match DecodeCompact(bs)
    case Bad => Bad
    case Good(tip, rest) =>
      match DecodeSponsor(rest)
      case Bad => Bad
      case Good(sponsor, after) => Good(Extension(tip, sponsor), after)
  }

  /** The client's printer: each field appends itself to the buffer. */
  class Buffer {
    var bytes: seq<byte>

    constructor ()
      ensures bytes == []
    {
      bytes := [];
    }

    /** Appends the `k` low bytes of `n`, lowest first. */
    method PutBytes(n: nat, k: nat)
      modifies this
      ensures bytes == old(bytes) + ToBytes(n, k)
    {
      var v := n;
      for i := 0 to k
        invariant old(bytes) + ToBytes(n, k) == bytes + ToBytes(v, k - i)
      {
        bytes := bytes + [(v % 256) as byte];
        v := v / 256;
      }
    }

    method PutBig(n: nat, k: nat)
      modifies this
      ensures bytes == old(bytes) + EncodeBig(n, k)
    {
      bytes := bytes + [((4 * Minus(k, 4) + 3) % 256) as byte];
      PutBytes(n, k);
    }

    method PutCompact(n: nat)
      modifies this
      ensures bytes == old(bytes) + EncodeCompact(n)
    {
      var mode := Mode(n);
      if mode < 3 {
        PutBytes(4 * n + mode, Width(mode));
      } else {
        PutBig(n, ByteLength(n));
      }
    }

    method EncodeValueTo(x: Extension)
      requires Fields(x)
      modifies this
      ensures bytes == old(bytes) + Encode(x)
    {
      PutCompact(x.tip);
      if x.sponsor.None? {
        bytes := bytes + [0];
      } else {
        bytes := bytes + [1];
        bytes := bytes + x.sponsor.value;
      }
    }
  }

  // ------------------------------------------------------------ both directions

  lemma ShortForm(n: nat, k: nat, rest: seq<byte>)
    requires 0 < k && n < Pow256(k)
    ensures var bs := ToBytes(n, k) + rest;
            && |bs| >= k && bs[0] as nat == n % 256 && FromBytes(bs[..k]) == n && bs[k..] == rest
  {
    BytesBack(n, k);
    assert (ToBytes(n, k) + rest)[..k] == ToBytes(n, k);
  }

  lemma BigRoundTrip(n: nat, k: nat, rest: seq<byte>)
    requires 4 <= k <= MAX_TIP_BYTES && 0x4000_0000 <= n && Pow256(k - 1) <= n < Pow256(k)
    ensures DecodeCompact(EncodeBig(n, k) + rest) == Good(n, rest)
  {
    var bs := EncodeBig(n, k) + rest;
    assert bs[1..] == ToBytes(n, k) + rest;
    assert bs[0] as nat == 4 * (k - 4) + 3;
    ShortForm(n, k, rest);
  }

  lemma ShortRoundTrip(n: nat, rest: seq<byte>)
    requires Mode(n) < 3
    ensures DecodeCompact(ToBytes(4 * n + Mode(n), Width(Mode(n))) + rest) == Good(n, rest)
  {
    FormFits(n);
    ShortForm(4 * n + Mode(n), Width(Mode(n)), rest);
    Quarter(n, Mode(n));
  }

  lemma CompactRoundTrip(n: nat, rest: seq<byte>)
    requires n < Pow256(MAX_TIP_BYTES)
    ensures DecodeCompact(EncodeCompact(n) + rest) == Good(n, rest)
  {
    if Mode(n) < 3 {
      ShortRoundTrip(n, rest);
    } else {
      FormFits(n);
      ByteLengthBetween(n, 4, MAX_TIP_BYTES);
      BigRoundTrip(n, ByteLength(n), rest);
    }
  }

  lemma Quarter(n: nat, mode: nat)
    requires mode < 4
    ensures (4 * n + mode) / 4 == n && (4 * n + mode) % 256 % 4 == mode
  {
  }

  /** Decoding the client's bytes gives back the same tip and sponsor and consumes exactly those
      bytes, whatever follows them. */
  lemma RoundTrip(x: Extension, rest: seq<byte>)
    requires Fields(x)
    ensures Decode(Encode(x) + rest) == Good(x, rest)
  {
    var tail := EncodeSponsor(x.sponsor) + rest;
    assert Encode(x) + rest == EncodeCompact(x.tip) + tail;
    CompactRoundTrip(x.tip, tail);
    if x.sponsor.Some? {
      assert tail[1..33] == x.sponsor.value && tail[33..] == rest;
    } else {
      assert tail[1..] == rest;
    }
  }

  lemma ShortBack(bs: seq<byte>, k: nat)
    requires k <= |bs|
    ensures FromBytes(bs[..k]) < Pow256(k)
    ensures bs == ToBytes(FromBytes(bs[..k]), k) + bs[k..]
  {
    NumberBack(bs[..k]);
  }

  lemma {:induction false} LowBits(bs: seq<byte>, k: nat)
    requires 0 < k <= |bs|
    ensures FromBytes(bs[..k]) % 4 == bs[0] as nat % 4
  {
    assert FromBytes(bs[..k]) == bs[0] as nat + 256 * FromBytes(bs[..k][1..]);
  }

  lemma ShortCanonical(bs: seq<byte>, k: nat, least: nat)
    requires 0 < k <= 4 && DecodeShort(bs, k, least).Good?
    ensures var n := DecodeShort(bs, k, least).value;
            && 4 * n + bs[0] as nat % 4 < Pow256(k)
            && bs == ToBytes(4 * n + bs[0] as nat % 4, k) + DecodeShort(bs, k, least).rest
  {
    LowBits(bs, k);
    ShortBack(bs, k);
    assert FromBytes(bs[..k]) == 4 * (FromBytes(bs[..k]) / 4) + bs[0] as nat % 4;
  }

  lemma BigCanonical(bs: seq<byte>, k: nat)
    requires 4 <= k && DecodeBig(bs, k).Good?
    ensures var n := DecodeBig(bs, k).value;
            && 0x4000_0000 <= n < Pow256(MAX_TIP_BYTES) && k <= MAX_TIP_BYTES && ByteLength(n) == k
            && bs == ToBytes(n, k) + DecodeBig(bs, k).rest
  {
    ShortBack(bs, k);
    PowMonotone(k, MAX_TIP_BYTES);
    ByteLengthTight(DecodeBig(bs, k).value, k);
  }

  lemma BigHead(n: nat, b: byte, k: nat)
    requires b as nat % 4 == 3 && k == b as nat / 4 + 4
    ensures EncodeBig(n, k) == [b] + ToBytes(n, k)
  {
    assert 4 * (k - 4) + 3 == b as nat;
  }

  lemma Regroup(s: seq<byte>, t: seq<byte>, u: seq<byte>)
    ensures s + (t + u) == (s + t) + u
  {
  }

  lemma BigWhole(b: byte, tail: seq<byte>, k: nat)
    requires b as nat % 4 == 3 && k == b as nat / 4 + 4 && DecodeBig(tail, k).Good?
    ensures var d := DecodeBig(tail, k);
            && 0x4000_0000 <= d.value < Pow256(MAX_TIP_BYTES)
            && [b] + tail == EncodeCompact(d.value) + d.rest
  {
    var d := DecodeBig(tail, k);
    BigCanonical(tail, k);
    BigHead(d.value, b, k);
    Regroup([b], ToBytes(d.value, k), d.rest);
  }

  lemma ShortWhole(bs: seq<byte>, mode: nat)
    requires bs != [] && mode == bs[0] as nat % 4 < 3
    requires DecodeShort(bs, Width(mode), Least(mode)).Good?
    ensures var d := DecodeShort(bs, Width(mode), Least(mode));
            && Mode(d.value) == mode && d.value < Pow256(MAX_TIP_BYTES)
            && bs == EncodeCompact(d.value) + d.rest
  {
    ShortCanonical(bs, Width(mode), Least(mode));
    ModeBack(DecodeShort(bs, Width(mode), Least(mode)).value, mode);
    PowMonotone(Width(mode), MAX_TIP_BYTES);
  }

  lemma CompactCanonical(bs: seq<byte>)
    requires DecodeCompact(bs).Good?
    ensures var n := DecodeCompact(bs).value;
            n < Pow256(MAX_TIP_BYTES) && bs == EncodeCompact(n) + DecodeCompact(bs).rest
  {
    if bs[0] as nat % 4 < 3 {
      ShortWhole(bs, bs[0] as nat % 4);
    } else {
      BigWhole(bs[0], bs[1..], bs[0] as nat / 4 + 4);
      assert bs == [bs[0]] + bs[1..];
    }
  }

  lemma ModeBack(n: nat, mode: nat)
    requires mode < 3 && Least(mode) <= n && 4 * n + mode < Pow256(Width(mode))
    ensures Mode(n) == mode
  {
    SmallPowers();
  }

  lemma SponsorCanonical(bs: seq<byte>)
    requires DecodeSponsor(bs).Good?
    ensures var d := DecodeSponsor(bs);
            && (d.value.Some? ==> |d.value.value| == 32)
            && bs == EncodeSponsor(d.value) + d.rest
  {
    assert bs == [bs[0]] + bs[1..];
  }

  /** The decoder accepts nothing but encodings: every payload has exactly one form. */
  lemma DecodeIsCanonical(bs: seq<byte>)
    requires Decode(bs).Good?
    ensures Fields(Decode(bs).value)
    ensures bs == Encode(Decode(bs).value) + Decode(bs).rest
  {
    CompactCanonical(bs);
    var c := DecodeCompact(bs);
    SponsorCanonical(c.rest);
    var d := DecodeSponsor(c.rest);
    Regroup(EncodeCompact(c.value), EncodeSponsor(d.value), d.rest);
  }

  // ------------------------------------------------------------- byte by byte

  lemma OneByte(n: nat)
    requires n < 0x100
    ensures ToBytes(n, 1) == [n as byte]
  {
    assert ToBytes(n / 256, 0) == [];
  }

  lemma TwoBytes(n: nat)
    requires n < 0x1_0000
    ensures |ToBytes(n, 2)| == 2 && n == ToBytes(n, 2)[0] as nat + 0x100 * ToBytes(n, 2)[1] as nat
  {
    OneByte(n / 256);
    assert ToBytes(n, 2) == [(n % 256) as byte] + ToBytes(n / 256, 1);
  }

  lemma FourBytes(n: nat)
    requires n < 0x1_0000_0000
    ensures var bs := ToBytes(n, 4);
            && |bs| == 4
            && n == bs[0] as nat + 0x100 * bs[1] as nat + 0x1_0000 * bs[2] as nat + 0x100_0000 * bs[3] as nat
  {
    var h := n / 256 / 256;
    TwoBytes(h);
    assert ToBytes(n / 256, 3) == [(n / 256 % 256) as byte] + ToBytes(h, 2);
    assert ToBytes(n, 4) == [(n % 256) as byte] + ToBytes(n / 256, 3);
  }

  /** The bytes of a short compact number outright: one, two or four bytes, lowest first, that hold
      four times the number and, in the low two bits, 0, 1 or 2. */
  lemma ShortLayout(n: nat)
    requires n < 0x4000_0000
    ensures var bs := EncodeCompact(n);
            if n < 0x40 then bs == [(4 * n) as byte]
            else if n < 0x4000 then |bs| == 2 && bs[0] as nat + 0x100 * bs[1] as nat == 4 * n + 1
            else
              && |bs| == 4
              && bs[0] as nat + 0x100 * bs[1] as nat + 0x1_0000 * bs[2] as nat + 0x100_0000 * bs[3] as nat == 4 * n + 2
  {
    if n < 0x40 {
      OneByte(4 * n);
    } else if n < 0x4000 {
      TwoBytes(4 * n + 1);
    } else {
      FourBytes(4 * n + 2);
    }
  }

  /** A long one is a byte that counts, then the number, lowest byte first, in no more bytes than it
      needs. */
  lemma LongLayout(n: nat)
    requires 0x4000_0000 <= n < Pow256(MAX_TIP_BYTES)
    ensures var bs := EncodeCompact(n);
            && 5 <= |bs| <= 17 && bs[0] as nat == 4 * (|bs| - 5) + 3
            && FromBytes(bs[1..]) == n && bs[1] as nat == n % 256 && Pow256(|bs| - 2) <= n
  {
    FormFits(n);
    ByteLengthBetween(n, 4, MAX_TIP_BYTES);
    BigLayout(n, ByteLength(n));
  }

  lemma BigLayout(n: nat, k: nat)
    requires 4 <= k <= 16 && n < Pow256(k)
    ensures var bs := EncodeBig(n, k);
            |bs| == k + 1 && bs[0] as nat == 4 * (k - 4) + 3 && FromBytes(bs[1..]) == n && bs[1] as nat == n % 256
  {
    BytesBack(n, k);
    assert EncodeBig(n, k)[1..] == ToBytes(n, k);
  }

  /** The tip is any number of 128 bits. */
  lemma TipRange()
    ensures Pow256(MAX_TIP_BYTES) == 0x1_0000_0000_0000_0000_0000_0000_0000_0000
  {
    SmallPowers();
    assert Pow256(8) == 0x1_0000_0000_0000_0000;
    assert Pow256(12) == 0x1_0000_0000_0000_0000_0000_0000;
  }

  /** The tip comes first; then 0 and nothing more, or 1 and the 32 bytes of the sponsor. */
  lemma Layout(x: Extension)
    requires Fields(x)
    ensures var bs, t := Encode(x), EncodeCompact(x.tip);
            && t <= bs
            && (x.sponsor.None? ==> |bs| == |t| + 1 && bs[|t|] == 0)
            && (x.sponsor.Some? ==> |bs| == |t| + 33 && bs[|t|] == 1 && bs[|t| + 1..] == x.sponsor.value)
            && (x.tip < 0x40 && x.sponsor.None? ==> bs == [(4 * x.tip) as byte, 0])
  {
    if x.tip < 0x40 { ShortLayout(x.tip); }
  }
}
