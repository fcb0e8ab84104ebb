/** The growable byte buffer of src/luv_codec.c:11-109, in its writing role. */
module ByteBuffer {
  import opened Uleb128

  const INITIAL: nat := 128

  /** Capacities the buffer can have: 128 doubled any number of times. */
  predicate IsCapacity(size: nat)
  {
    size == INITIAL || (size > INITIAL && size % 2 == 0 && IsCapacity(size / 2))
  }

  function Max(a: nat, b: nat): nat { if a < b then b else a }

  class Buffer {
    /** The allocation; of length 0 stands for NULL. */
    var base: array<byte>
    var size: nat
    var head: nat
    /** The largest number of bytes ever asked for. */
    ghost var demand: nat
    /** Bytes copied so far by all reallocations. */
    ghost var moved: nat

    ghost predicate Valid()
      reads this
    {
      && base.Length == size
      && head <= size
      && (size == 0 ==> moved == 0)
      && (size != 0 ==> IsCapacity(size) && moved + INITIAL <= size)
      && (size > INITIAL ==> size < 2 * demand)
    }

    ghost function Contents(): (s: seq<byte>)
      requires Valid()
      reads this, base
    {
      base[..head]
    }

    constructor ()
      ensures Valid() && Contents() == [] && size == 0 && demand == 0
      ensures fresh(base)
    {
      base := new byte[0];
      size, head, demand, moved := 0, 0, 0, 0;
    }

    /** Make room for `len` more bytes. */
    method Need(len: nat)
      requires Valid()
      modifies this
      ensures Valid() && Contents() == old(Contents()) && head == old(head)
      ensures size >= head + len && size >= INITIAL
      ensures demand == Max(old(demand), head + len)
      ensures base == old(base) || fresh(base)
    {
      var want := size;
      if want == 0 {
        want := INITIAL;
        base := new byte[want];
        size := want;
        head := 0;
      }
      var need := head + len;
      while want < need
        invariant IsCapacity(want) && want >= size
        invariant want == size || (want >= 2 * size && want < 2 * need)
      {
        assert (want * 2) / 2 == want;
        want := want * 2;
      }
      demand := Max(demand, need);
      if want > size {
        var grown := new byte[want];
        forall i | 0 <= i < size { grown[i] := base[i]; }
        moved := moved + size;
        assert grown[..head] == base[..head];
        base := grown;
        size := want;
      }
    }

    method Put(val: byte)
      requires Valid()
      modifies this, base
      ensures Valid() && Contents() == old(Contents()) + [val]
      ensures demand == Max(old(demand), |old(Contents())| + 1)
      ensures base == old(base) || fresh(base)
    {
      Need(1);
      base[head] := val;
      head := head + 1;
    }

    method Write(data: seq<byte>)
      requires Valid()
      modifies this, base
      ensures Valid() && Contents() == old(Contents()) + data
      ensures demand == Max(old(demand), |old(Contents())| + |data|)
      ensures base == old(base) || fresh(base)
    {
      Need(|data|);
      forall i | 0 <= i < |data| { base[head + i] := data[i]; }
      head := head + |data|;
    }

    /** Append the shortest ULEB128 form of a `uint32_t`; the loop writes past `head`
        into the five reserved bytes and moves `head` once at the end. */
    method WriteUleb128(val: nat)
      requires Valid() && val < WORD
      modifies this, base
      ensures Valid() && Contents() == old(Contents()) + Encode(val)
      ensures demand == Max(old(demand), |old(Contents())| + 5)
      ensures base == old(base) || fresh(base)
    {
      Need(5);
      var n := WriteDigits(base, head, val);
      assert base[..head + n] == base[..head] + base[head..head + n];
      head := head + n;
    }

    method Append(p: Piece)
      requires Valid() && (p.Unsigned? ==> p.num < WORD)
      modifies this, base
      ensures Valid() && Contents() == old(Contents()) + Appended(p)
      ensures demand == Max(old(demand), |old(Contents())| + Room(p))
      ensures base == old(base) || fresh(base)
    {
      match p {
        case ByteOf(val) => Put(val);
        case Chunk(data) => Write(data);
        case Unsigned(num) => WriteUleb128(num);
      }
    }
  }

  /** One call that appends: `luvL_buf_put`, `luvL_buf_write` or `luvL_buf_write_uleb128`. */
  datatype Piece = ByteOf(val: byte) | Chunk(data: seq<byte>) | Unsigned(num: nat)

  function Appended(p: Piece): seq<byte>
  {
    match p
    case ByteOf(val) => [val]
    case Chunk(data) => data
    case Unsigned(num) => Encode(num)
  }

  /** The room a call asks for. */
  function Room(p: Piece): nat
  {
    match p
    case ByteOf(_) => 1
    case Chunk(data) => |data|
    case Unsigned(_) => 5
  }

  function Concat(ps: seq<Piece>): seq<byte>
  {
    if ps == [] then [] else Concat(ps[..|ps| - 1]) + Appended(ps[|ps| - 1])
  }

  /** The largest number of bytes any of the calls asks for in all. */
  function Peak(ps: seq<Piece>): nat
  {
    if ps == [] then 0
    else var before := ps[..|ps| - 1]; Max(Peak(before), |Concat(before)| + Room(ps[|ps| - 1]))
  }

  lemma OneMore(ps: seq<Piece>, i: nat)
    requires i < |ps|
    ensures Concat(ps[..i + 1]) == Concat(ps[..i]) + Appended(ps[i])
    ensures Peak(ps[..i + 1]) == Max(Peak(ps[..i]), |Concat(ps[..i])| + Room(ps[i]))
  {
    assert ps[..i + 1][..i] == ps[..i];
  }

  /** Any calls on an empty buffer leave their bytes in it, one after another; the capacity is below
      twice the largest demand, and all reallocations together moved fewer bytes than it has. */
  method WriteAll(ps: seq<Piece>) returns (buf: Buffer)
    requires forall i :: 0 <= i < |ps| ==> ps[i].Unsigned? ==> ps[i].num < WORD
    ensures fresh(buf) && buf.Valid() && buf.Contents() == Concat(ps)
    ensures buf.size == 0 || (IsCapacity(buf.size) && buf.moved < buf.size)
    ensures buf.size <= INITIAL || buf.size < 2 * Peak(ps)
  {
    buf := new Buffer();
    ghost var bytes, peak := [], 0;
    for i := 0 to |ps|
      invariant fresh(buf) && fresh(buf.base) && buf.Valid()
      invariant buf.Contents() == bytes && buf.demand == peak
      invariant bytes == Concat(ps[..i]) && peak == Peak(ps[..i])
    {
      OneMore(ps, i);
      peak := Max(peak, |bytes| + Room(ps[i]));
      bytes := bytes + Appended(ps[i]);
      buf.Append(ps[i]);
    }
    assert ps[..|ps|] == ps;
  }

  /** The writer's loop, which fills `a` from index `at` on. */
  method WriteDigits(a: array<byte>, at: nat, val: nat) returns (n: nat)
    requires at + 5 <= a.Length && val < WORD
    modifies a
    ensures n == |Encode(val)| && at + n <= a.Length
    ensures a[..at] == old(a[..at]) && a[at..at + n] == Encode(val)
  {
    FiveBytes(val);
    ghost var all := Encode(val);
    var v := val;
    n := 0;
    while v >= 128
      invariant 0 <= v && n + |Encode(v)| == |all| && Encode(v) == all[n..]
      invariant a[..at] == old(a[..at])
      invariant forall k :: 0 <= k < n ==> a[at + k] == all[k]
    {
      Digit(v);
      a[at + n] := v % 128 + 128;
      n, v := n + 1, v / 128;
    }
    a[at + n] := v;
    n := n + 1;
  }

  /** One turn of the writer's loop. */
  lemma Digit(v: nat)
    requires v >= 128
    ensures Encode(v)[0] == v % 128 + 128 && Encode(v)[1..] == Encode(v / 128)
  {
  }

  /** `luvL_buf_read_uleb128` over a byte string: `pos` is the read head. The shift
      accumulates in a `uint32_t`. */
  method ReadUleb128(bs: seq<byte>, pos: nat) returns (ok: bool, v: nat, next: nat)
    requires pos <= |bs|
    ensures pos <= next <= |bs| && v < WORD
    ensures ok <==> Decode(bs[pos..]).Read?
    ensures ok ==> Decode(bs[pos..]) == Read(v, bs[next..])
  {
    v, next := 0, pos;
    var scale: nat := 1;
    while next < |bs| && bs[next] >= 128
      invariant pos <= next <= |bs| && v < WORD
      invariant v < scale
      invariant Remaining(bs, next, v, scale) == Remaining(bs, pos, 0, 1)
      decreases |bs| - next
    {
      OrFits(v, bs[next] - 128, scale);
      v := Or(v, bs[next] - 128, scale);
      scale := scale * 128;
      next := next + 1;
    }
    ok := next < |bs|;
    if ok {
      v := Or(v, bs[next], scale);
      next := next + 1;
    } else {
      v := 0;
    }
    RemainingIsDecode(bs, pos, 0, 1);
  }

  /** `v |= low << sh` on a `uint32_t`, with `scale` standing for `1 << sh`. The two operands have no
      bit in common, because `v` is below `scale`, so the sum is their union. */
  function Or(v: nat, low: nat, scale: nat): (w: nat)
    ensures w < WORD
  {
    (v + low * scale) % WORD
  }

  lemma OrFits(v: nat, low: nat, scale: nat)
    requires v < scale && low < 128
    ensures Or(v, low, scale) < scale * 128
  {
    DigitFits(low, scale);
    RemainderFits(v + low * scale);
  }

  lemma DigitFits(low: nat, scale: nat)
    requires low < 128
    ensures low * scale <= 127 * scale
  {
  }

  lemma RemainderFits(x: nat)
    ensures x % WORD <= x
  {
  }

  /** What the reader's loop yields from position `next` on, with `v` read so far. */
  ghost function Remaining(bs: seq<byte>, next: nat, v: nat, scale: nat): Reading
    requires next <= |bs|
    decreases |bs| - next
  {
    if next == |bs| then Truncated
    else if bs[next] < 128 then Read(Or(v, bs[next], scale), bs[next + 1..])
    else Remaining(bs, next + 1, Or(v, bs[next] - 128, scale), scale * 128)
  }

  /** The 32-bit accumulation ends in the low 32 bits of the number; `sum` is what has been read so
      far without that limit. */
  lemma {:induction false} RemainingIsRaw(bs: seq<byte>, next: nat, v: nat, scale: nat, sum: nat)
    requires next <= |bs| && v == sum % WORD
    ensures var raw := Raw(bs[next..]);
            Remaining(bs, next, v, scale)
            == if raw.Read? then Read((sum + raw.value * scale) % WORD, raw.rest) else Truncated
    decreases |bs| - next
  {
    if next < |bs| {
      assert bs[next..][1..] == bs[next + 1..];
      if bs[next] < 128 {
        ModAdd(sum, bs[next] * scale);
      } else {
        var low := bs[next] - 128;
        ModAdd(sum, low * scale);
        RemainingIsRaw(bs, next + 1, Or(v, low, scale), scale * 128, sum + low * scale);
        var raw := Raw(bs[next + 1..]);
        if raw.Read? { Fold(sum, low, raw.value, scale); }
      }
    }
  }

  lemma RemainingIsDecode(bs: seq<byte>, pos: nat, v: nat, scale: nat)
    requires pos <= |bs| && v == 0 && scale == 1
    ensures Remaining(bs, pos, v, scale) == Decode(bs[pos..])
  {
    RemainingIsRaw(bs, pos, v, scale, v);
    var raw := Raw(bs[pos..]);
    if raw.Read? { assert v + raw.value * scale == raw.value; }
  }

  /** One turn of the reader's loop. */
  lemma Fold(sum: nat, low: nat, later: nat, scale: nat)
    ensures (sum + low * scale) + later * (scale * 128) == sum + (low + 128 * later) * scale
  {
  }

  lemma ModAdd(a: int, b: int)
    ensures (a + b) % WORD == (a % WORD + b) % WORD
  {
    var q := a / WORD;
    assert a == q * WORD + a % WORD;
    var x := a % WORD + b;
    assert a + b == x + q * WORD;
    var d := (x + q * WORD) / WORD;
    assert (x + q * WORD) - d * WORD == (a + b) % WORD;
    assert x - (d - q) * WORD == (a + b) % WORD;
    Unique(x, d - q, (a + b) % WORD);
  }

  lemma Unique(x: int, q: int, r: int)
    requires x - q * WORD == r && 0 <= r < WORD
    ensures x % WORD == r
  {
  }
}
