/** Variable-length unsigned integers (ULEB128, section 7.6 of DWARF version 4) as
    written and read by src/luv_codec.c. */
module Uleb128 {

  type byte = b: int | 0 <= b < 256

  /** The range of `uint32_t`. */
  const WORD: nat := 0x1_0000_0000

  /** The shortest encoding: seven bits a byte, low bits first, the high bit set on all
      bytes but the last. */
  function Encode(v: nat): (bs: seq<byte>)
  {
    if v < 128 then [v] else [v % 128 + 128] + Encode(v / 128)
  }

  /** What a read yields: the number and the bytes after it, or nothing when the
      bytes end before the number does. */
  datatype Reading = Truncated | Read(value: nat, rest: seq<byte>)

  /** The number at the front of `bs`, with no limit on its size. */
  function Raw(bs: seq<byte>): (r: Reading)
    ensures r.Read? ==> |r.rest| < |bs| && r.rest == bs[|bs| - |r.rest|..]
  {
    if bs == [] then Truncated
    else if bs[0] < 128 then Read(bs[0], bs[1..])
    else
      match Raw(bs[1..])
      case Truncated => Truncated
      case Read(v, rest) => Read(bs[0] - 128 + 128 * v, rest)
  }

  /** The number at the front of `bs` as a `uint32_t`: bits beyond the 32nd are shifted out. */
  function Decode(bs: seq<byte>): (r: Reading)
    ensures r.Read? ==> r.value < WORD && |r.rest| < |bs| && r.rest == bs[|bs| - |r.rest|..]
  {
    match Raw(bs)
    case Truncated => Truncated
    case Read(v, rest) => Read(v % WORD, rest)
  }

  /** Reading back what was written gives the number and stops right after it. */
  lemma {:induction false} RawEncode(v: nat, suffix: seq<byte>)
    ensures Raw(Encode(v) + suffix) == Read(v, suffix)
  {
    var bs := Encode(v) + suffix;
    if v < 128 {
      assert bs[1..] == suffix;
    } else {
      RawEncode(v / 128, suffix);
      assert bs[1..] == Encode(v / 128) + suffix;
    }
  }

  /** A number survives the trip exactly when it fits in 32 bits, whatever follows it. */
  lemma RoundTrip(v: nat, suffix: seq<byte>)
    ensures Decode(Encode(v % WORD) + suffix) == Read(v % WORD, suffix)
    ensures Decode(Encode(v % WORD) + suffix) == Read(v, suffix) <==> v < WORD
  {
    RawEncode(v % WORD, suffix);
  }

  function Pow128(n: nat): (p: nat)
    ensures p >= 1
  {
    if n == 0 then 1 else 128 * Pow128(n - 1)
  }

  /** A number takes at most `n` bytes exactly if it is below 128 to the power of `n`. */
  lemma {:induction false} LengthBound(v: nat, n: nat)
    ensures |Encode(v)| >= 1
    ensures |Encode(v)| <= n <==> n >= 1 && v < Pow128(n)
  {
    if v >= 128 && n >= 1 {
      LengthBound(v / 128, n - 1);
      assert v / 128 < Pow128(n - 1) <==> v < Pow128(n);
    }
  }

  /** The writer's reservation of five bytes is enough for every `uint32_t`. */
  lemma FiveBytes(v: nat)
    requires v < WORD
    ensures 1 <= |Encode(v)| <= 5
  {
    assert Pow128(5) == 128 * (128 * (128 * (128 * 128)));
    LengthBound(v, 5);
  }

  /** Larger numbers take no fewer bytes. */
  lemma LengthGrows(v: nat, w: nat)
    requires v <= w
    ensures |Encode(v)| <= |Encode(w)|
  {
    LengthBound(w, |Encode(w)|);
    LengthBound(v, |Encode(w)|);
  }

  lemma {:induction false} ShortestRaw(v: nat, bs: seq<byte>)
    requires Raw(bs) == Read(v, [])
    ensures |Encode(v)| <= |bs|
  {
    if bs[0] >= 128 && v >= 128 {
      ShortestRaw(v / 128, bs[1..]);
    }
  }

  /** No bytes that the reader takes for `v`, with bits shifted out or not, are fewer than those the writer
      emits. */
  lemma Shortest(v: nat, bs: seq<byte>)
    requires Decode(bs) == Read(v, [])
    ensures |Encode(v)| <= |bs|
  {
    var raw := Raw(bs).value;
    ShortestRaw(raw, bs);
    LengthGrows(v, raw);
  }
}
