/** The byte format of src/luv_codec.c, as trees of codes, with a writer and a reader. */
module Wire {
  import opened Uleb128
  import opened LuaHeap

  /** The type numbers of Lua 5.1 that the format uses. */
  const TNIL: byte := 0
  const TBOOLEAN: byte := 1
  const TLIGHTUSERDATA: byte := 2
  const TNUMBER: byte := 3
  const TSTRING: byte := 4
  const TTABLE: byte := 5
  const TFUNCTION: byte := 6
  const TUSERDATA: byte := 7

  const TREF: byte := 1
  const TVAL: byte := 2
  const TUSR: byte := 3

  /** One serialized value. */
  datatype Code =
    | CNil
    | CBool(b: bool)
    | CLight(ptr: Word)
    | CNum(n: Word)
    | CStr(s: seq<byte>)
    | CRef(func: bool, ref: nat)
    | CTab(entries: Codes)
    | CFun(code: seq<byte>, ups: Codes)
    | CHook(cb: Code, payload: Code)
    | CUser(cb: Code, payload: Code)

  /** The pairs of a serialized table, up to its closing nil. */
  datatype Codes = Done | Pair(key: Code, val: Code, rest: Codes)

  lemma Append<T>(a: seq<T>, b: seq<T>, c: seq<T>, s: seq<T>, t: seq<T>)
    requires b == a + s && c == b + t
    ensures c == a + (s + t)
  {
  }

  /** A length or reference number as the writer puts it: cast to `uint32_t` first. */
  function Number(n: nat): seq<byte> { Encode(n % WORD) }

  function Bytes(c: Code): (bs: seq<byte>)
    ensures |bs| > 0
    ensures bs[0] == TNIL <==> c.CNil?
  {
    match c
    case CNil => [TNIL]
    case CBool(b) => [TBOOLEAN, if b then 1 else 0]
    case CLight(w) => [TLIGHTUSERDATA] + w
    case CNum(w) => [TNUMBER] + w
    case CStr(s) => [TSTRING] + (Number(|s|) + s)
    case CRef(f, r) => [if f then TFUNCTION else TTABLE, TREF] + Number(r)
    case CTab(es) => [TTABLE, TVAL] + EntryBytes(es)
    case CFun(code, ups) => [TFUNCTION, TVAL] + (Number(|code|) + (code + EntryBytes(ups)))
    case CHook(cb, p) => [TTABLE, TUSR] + (Bytes(cb) + Bytes(p))
    case CUser(cb, p) => [TUSERDATA, TUSR] + (Bytes(cb) + Bytes(p))
  }

  function EntryBytes(es: Codes): (bs: seq<byte>)
    ensures |bs| > 0
    ensures bs[0] == TNIL <==> es.Done? || es.key.CNil?
  {
    match es
    case Done => [TNIL]
    case Pair(k, v, rest) => Bytes(k) + (Bytes(v) + EntryBytes(rest))
  }

  /** Every length and reference number fits in 32 bits and no table has a nil key. */
  predicate Fits(c: Code)
  {
    match c
    case CStr(s) => |s| < WORD
    case CRef(_, r) => r < WORD
    case CTab(es) => EntriesFit(es)
    case CFun(code, ups) => |code| < WORD && EntriesFit(ups)
    case CHook(cb, p) => Fits(cb) && Fits(p)
    case CUser(cb, p) => Fits(cb) && Fits(p)
    case _ => true
  }

  predicate EntriesFit(es: Codes)
  {
    es.Pair? ==> !es.key.CNil? && Fits(es.key) && Fits(es.val) && EntriesFit(es.rest)
  }

  /** Tables and functions written out in full inside a code. */
  function Count(c: Code): nat
  {
    match c
    case CTab(es) => 1 + CountEntries(es)
    case CFun(_, ups) => 1 + CountEntries(ups)
    case CHook(cb, p) => 1 + Count(cb) + Count(p)
    case CUser(cb, p) => Count(cb) + Count(p)
    case _ => 0
  }

  function CountEntries(es: Codes): nat
  {
    match es
    case Done => 0
    case Pair(k, v, rest) => Count(k) + Count(v) + CountEntries(rest)
  }

  /** Nodes of a tree. */
  function Size(c: Code): (n: nat)
    ensures n >= 1
  {
    match c
    case CTab(es) => 1 + SizeEntries(es)
    case CFun(_, ups) => 1 + SizeEntries(ups)
    case CHook(cb, p) => 1 + Size(cb) + Size(p)
    case CUser(cb, p) => 1 + Size(cb) + Size(p)
    case _ => 1
  }

  function SizeEntries(es: Codes): (n: nat)
  {
    match es
    case Done => 0
    case Pair(k, v, rest) => 1 + Size(k) + Size(v) + SizeEntries(rest)
  }

  datatype Parsed<T> = Bad | Got(value: T, rest: seq<byte>)

  /** `luvL_buf_read`: `n` bytes and what follows them. */
  function Take(bs: seq<byte>, n: nat): Parsed<seq<byte>>
  {
    if n <= |bs| then Got(bs[..n], bs[n..]) else Bad
  }

  /** A length followed by that many bytes. */
  function TakeString(bs: seq<byte>): (r: Parsed<seq<byte>>)
    ensures r.Got? ==> |r.rest| < |bs| && |r.value| < WORD
  {
    match Decode(bs)
    case Truncated => Bad
    case Read(n, rest) => Take(rest, n)
  }

  /** The value at the front of `bs`. */
  function Parse(bs: seq<byte>): (r: Parsed<Code>)
    ensures r.Got? ==> |r.rest| < |bs| && Fits(r.value)
    ensures r.Got? ==> bs != [] && (bs[0] != TNIL ==> !r.value.CNil?)
    decreases |bs|, 0
  {
    if bs == [] then Bad
    else
      var t, body := bs[0], bs[1..];
      if t == TNIL then Got(CNil, body)
      else if t == TBOOLEAN then
        if body == [] then Bad else Got(CBool(body[0] != 0), body[1..])
      else if t == TLIGHTUSERDATA then
        (match Take(body, 8) case Bad => Bad case Got(w, rest) => Got(CLight(w), rest))
      else if t == TNUMBER then
        (match Take(body, 8) case Bad => Bad case Got(w, rest) => Got(CNum(w), rest))
      else if t == TSTRING then
        (match TakeString(body) case Bad => Bad case Got(s, rest) => Got(CStr(s), rest))
      else if (t == TTABLE || t == TFUNCTION || t == TUSERDATA) && body != [] then
        var tag, more := body[0], body[1..];
        if t == TUSERDATA then
          if tag == TUSR then
            (match ParseTwo(more) case Bad => Bad case Got((cb, p), rest) => Got(CUser(cb, p), rest))
          else Bad
        else if tag == TREF then
          (match Decode(more) case Truncated => Bad case Read(n, rest) => Got(CRef(t == TFUNCTION, n), rest))
        else if t == TFUNCTION then
          match TakeString(more)
          case Bad => Bad
          case Got(code, rest0) =>
            match ParseEntries(rest0) case Bad => Bad case Got(ups, rest) => Got(CFun(code, ups), rest)
        else if tag == TUSR then
          (match ParseTwo(more) case Bad => Bad case Got((cb, p), rest) => Got(CHook(cb, p), rest))
        else
          match ParseEntries(more) case Bad => Bad case Got(es, rest) => Got(CTab(es), rest)
      else Bad
  }

  /** A hook and its payload. */
  function ParseTwo(bs: seq<byte>): (r: Parsed<(Code, Code)>)
    ensures r.Got? ==> |r.rest| < |bs| && Fits(r.value.0) && Fits(r.value.1)
    decreases |bs|, 1
  {
    match Parse(bs)
    case Bad => Bad
    case Got(a, rest0) =>
      match Parse(rest0) case Bad => Bad case Got(b, rest) => Got((a, b), rest)
  }

  /** Pairs up to and including the closing nil. */
  function ParseEntries(bs: seq<byte>): (r: Parsed<Codes>)
    ensures r.Got? ==> |r.rest| < |bs| && EntriesFit(r.value)
    decreases |bs|, 2
  {
    if bs == [] then Bad
    else if bs[0] == TNIL then Got(Done, bs[1..])
    else
      match ParseTwo(bs)
      case Bad => Bad
      case Got((k, v), rest0) =>
        match ParseEntries(rest0) case Bad => Bad case Got(es, rest) => Got(Pair(k, v, es), rest)
  }

  lemma TakeStringWritten(s: seq<byte>, suffix: seq<byte>)
    requires |s| < WORD
    ensures TakeString(Number(|s|) + (s + suffix)) == Got(s, suffix)
  {
    RoundTrip(|s|, s + suffix);
  }

  lemma ParseScalar(c: Code, suffix: seq<byte>)
    requires c.CNil? || c.CBool? || c.CLight? || c.CNum?
    ensures Parse(Bytes(c) + suffix) == Got(c, suffix)
  {
    var body := (Bytes(c) + suffix)[1..];
    match c
    case CNil => assert body == suffix;
    case CBool(b) => assert body[1..] == suffix;
    case CLight(w) => assert body == w + suffix;
    case CNum(w) => assert body == w + suffix;
    case _ =>
  }

  lemma ParseString(s: seq<byte>, suffix: seq<byte>)
    requires |s| < WORD
    ensures Parse(Bytes(CStr(s)) + suffix) == Got(CStr(s), suffix)
  {
    var bs := Bytes(CStr(s)) + suffix;
    assert bs[1..] == Number(|s|) + (s + suffix);
    TakeStringWritten(s, suffix);
  }

  lemma ParseRef(f: bool, r: nat, suffix: seq<byte>)
    requires r < WORD
    ensures Parse(Bytes(CRef(f, r)) + suffix) == Got(CRef(f, r), suffix)
  {
    var bs := Bytes(CRef(f, r)) + suffix;
    assert bs[1..][1..] == Number(r) + suffix;
    RoundTrip(r, suffix);
  }

  /** After its two tag bytes a compound value is read by the rule for its kind. */
  lemma ParseTable(more: seq<byte>, es: Parsed<Codes>)
    requires es == ParseEntries(more) && es.Got?
    ensures Parse([TTABLE, TVAL] + more) == Got(CTab(es.value), es.rest)
  {
    assert ([TTABLE, TVAL] + more)[1..][1..] == more;
  }

  lemma ParseHook(more: seq<byte>, two: Parsed<(Code, Code)>)
    requires two == ParseTwo(more) && two.Got?
    ensures Parse([TTABLE, TUSR] + more) == Got(CHook(two.value.0, two.value.1), two.rest)
  {
    assert ([TTABLE, TUSR] + more)[1..][1..] == more;
  }

  lemma ParseUser(more: seq<byte>, two: Parsed<(Code, Code)>)
    requires two == ParseTwo(more) && two.Got?
    ensures Parse([TUSERDATA, TUSR] + more) == Got(CUser(two.value.0, two.value.1), two.rest)
  {
    assert ([TUSERDATA, TUSR] + more)[1..][1..] == more;
  }

  lemma ParseFunction(more: seq<byte>)
    requires TakeString(more).Got? && ParseEntries(TakeString(more).rest).Got?
    ensures var ups := ParseEntries(TakeString(more).rest);
            Parse([TFUNCTION, TVAL] + more) == Got(CFun(TakeString(more).value, ups.value), ups.rest)
  {
    assert ([TFUNCTION, TVAL] + more)[1..][1..] == more;
  }

  /** Reading what was written gives the tree back and stops right after it. */
  lemma {:induction false} ParseWritten(c: Code, suffix: seq<byte>)
    requires Fits(c)
    ensures Parse(Bytes(c) + suffix) == Got(c, suffix)
    decreases c
  {
    var bs := Bytes(c) + suffix;
    match c
    case CTab(es) =>
      assert bs == [TTABLE, TVAL] + (EntryBytes(es) + suffix);
      ParseEntriesWritten(es, suffix);
      ParseTable(EntryBytes(es) + suffix, Got(es, suffix));
    case CFun(code, ups) =>
      ParseEntriesWritten(ups, suffix);
      FunctionWritten(code, ups, suffix);
    case CHook(cb, p) =>
      assert bs == [TTABLE, TUSR] + (Bytes(cb) + (Bytes(p) + suffix));
      ParseWritten(cb, Bytes(p) + suffix);
      ParseWritten(p, suffix);
      ParseHook(Bytes(cb) + (Bytes(p) + suffix), Got((cb, p), suffix));
    case CUser(cb, p) =>
      assert bs == [TUSERDATA, TUSR] + (Bytes(cb) + (Bytes(p) + suffix));
      ParseWritten(cb, Bytes(p) + suffix);
      ParseWritten(p, suffix);
      ParseUser(Bytes(cb) + (Bytes(p) + suffix), Got((cb, p), suffix));
    case CStr(s) => ParseString(s, suffix);
    case CRef(f, r) => ParseRef(f, r, suffix);
    case _ => ParseScalar(c, suffix);
  }

  lemma FunctionWritten(code: seq<byte>, ups: Codes, suffix: seq<byte>)
    requires |code| < WORD && ParseEntries(EntryBytes(ups) + suffix) == Got(ups, suffix)
    ensures Parse(Bytes(CFun(code, ups)) + suffix) == Got(CFun(code, ups), suffix)
  {
    Reassociate([TFUNCTION, TVAL], Number(|code|), code, EntryBytes(ups), suffix);
    TakeStringWritten(code, EntryBytes(ups) + suffix);
    ParseFunction(Number(|code|) + (code + (EntryBytes(ups) + suffix)));
  }

  lemma Reassociate(a: seq<byte>, b: seq<byte>, c: seq<byte>, d: seq<byte>, e: seq<byte>)
    ensures (a + (b + (c + d))) + e == a + (b + (c + (d + e)))
  {
  }

  lemma {:induction false} ParseEntriesWritten(es: Codes, suffix: seq<byte>)
    requires EntriesFit(es)
    ensures ParseEntries(EntryBytes(es) + suffix) == Got(es, suffix)
    decreases es
  {
    var bs := EntryBytes(es) + suffix;
    match es
    case Done => assert bs[1..] == suffix;
    case Pair(k, v, rest) =>
      assert bs == Bytes(k) + (Bytes(v) + (EntryBytes(rest) + suffix));
      ParseWritten(k, Bytes(v) + (EntryBytes(rest) + suffix));
      ParseWritten(v, EntryBytes(rest) + suffix);
      ParseEntriesWritten(rest, suffix);
  }

  /** The format is self-delimiting exactly on the trees whose numbers fit in 32 bits and
      whose tables have no nil key. */
  lemma SelfDelimiting(c: Code, suffix: seq<byte>)
    ensures Parse(Bytes(c) + suffix) == Got(c, suffix) <==> Fits(c)
  {
    if Fits(c) { ParseWritten(c, suffix); }
  }

  /** No code is a proper prefix of another: two trees that fit and whose bytes agree up to
      what follows are the same tree. */
  lemma PrefixFree(c: Code, d: Code, x: seq<byte>, y: seq<byte>)
    requires Fits(c) && Fits(d) && Bytes(c) + x == Bytes(d) + y
    ensures c == d && x == y
  {
    ParseWritten(c, x);
    ParseWritten(d, y);
  }
}
