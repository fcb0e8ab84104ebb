/** The byte format as a grammar, and that the reader accepts exactly what it describes. Numbers need not be in
    their shortest form; a table may have any tag but those of a reference and a hook, a function any but
    that of a reference. */
module Grammar {
  import opened Uleb128
  import opened Wire

  /** The bytes `bs` start with a spelling of `c`, and `rest` is what follows it. */
  ghost predicate Spells(c: Code, bs: seq<byte>, rest: seq<byte>)
    decreases c
  {
    match c
    case CNil => bs == [0] + rest
    case CBool(b) => |bs| >= 2 && bs[0] == 1 && b == (bs[1] != 0) && bs[2..] == rest
    case CLight(w) => bs == [2] + (w + rest)
    case CNum(w) => bs == [3] + (w + rest)
    case CStr(s) => |bs| >= 1 && bs[0] == 4 && Decode(bs[1..]) == Read(|s|, s + rest)
    case CRef(f, r) =>
      |bs| >= 2 && bs[0] == (if f then 6 else 5) && bs[1] == 1 && Decode(bs[2..]) == Read(r, rest)
    case CTab(es) => |bs| >= 2 && bs[0] == 5 && bs[1] != 1 && bs[1] != 3 && SpellsAll(es, bs[2..], rest)
    case CFun(code, ups) =>
      && |bs| >= 2 && bs[0] == 6 && bs[1] != 1
      && exists m :: Decode(bs[2..]) == Read(|code|, code + m) && SpellsAll(ups, m, rest)
    case CHook(cb, p) =>
      |bs| >= 2 && bs[0] == 5 && bs[1] == 3 && exists m :: Spells(cb, bs[2..], m) && Spells(p, m, rest)
    case CUser(cb, p) =>
      |bs| >= 2 && bs[0] == 7 && bs[1] == 3 && exists m :: Spells(cb, bs[2..], m) && Spells(p, m, rest)
  }

  /** The same for pairs up to and including the closing nil; no key starts like a nil. */
  ghost predicate SpellsAll(es: Codes, bs: seq<byte>, rest: seq<byte>)
    decreases es
  {
    match es
    case Done => bs == [0] + rest
    case Pair(k, v, more) =>
      |bs| >= 1 && bs[0] != 0 && exists m, n :: Spells(k, bs, m) && Spells(v, m, n) && SpellsAll(more, n, rest)
  }

  // What is read is spelled

  lemma TakeSpelled(bs: seq<byte>, s: seq<byte>, rest: seq<byte>)
    ensures TakeString(bs) == Got(s, rest) <==> Decode(bs) == Read(|s|, s + rest)
  {
    match Decode(bs)
    case Truncated =>
    case Read(n, more) =>
      if n <= |more| { assert more == more[..n] + more[n..]; }
      if n == |s| && more == s + rest { assert more[..n] == s && more[n..] == rest; }
  }

  lemma {:induction false} ParseSpells(bs: seq<byte>, c: Code, rest: seq<byte>)
    requires Parse(bs) == Got(c, rest)
    ensures Spells(c, bs, rest)
    decreases |bs|, 0
  {
    if bs[0] <= 3 {
      ScalarSpells(bs, c, rest);
    } else if bs[0] == 4 {
      StringSpells(bs, c, rest);
    } else {
      CompoundSpells(bs, c, rest);
    }
  }

  lemma ScalarSpells(bs: seq<byte>, c: Code, rest: seq<byte>)
    requires Parse(bs) == Got(c, rest) && bs[0] <= 3
    ensures Spells(c, bs, rest)
  {
    var body := bs[1..];
    assert bs == [bs[0]] + body;
    if bs[0] == 1 {
      assert body[1..] == bs[2..];
    } else if bs[0] >= 2 {
      assert body == body[..8] + body[8..];
    }
  }

  lemma StringSpells(bs: seq<byte>, c: Code, rest: seq<byte>)
    requires Parse(bs) == Got(c, rest) && bs[0] == 4
    ensures Spells(c, bs, rest)
  {
    TakeSpelled(bs[1..], c.s, rest);
  }

  lemma {:induction false} CompoundSpells(bs: seq<byte>, c: Code, rest: seq<byte>)
    requires Parse(bs) == Got(c, rest) && bs[0] > 4
    ensures Spells(c, bs, rest)
    decreases |bs|, 0, 0
  {
    assert |bs| >= 2;
    var tag, more := bs[1], bs[2..];
    assert bs[1..][0] == tag && bs[1..][1..] == more;
    match c
    case CTab(es) => EntriesSpell(more, es, rest);
    case CFun(code, ups) =>
      var s := TakeString(more);
      assert s.Got? && s.value == code && ParseEntries(s.rest) == Got(ups, rest);
      TakeSpelled(more, code, s.rest);
      EntriesSpell(s.rest, ups, rest);
    case CHook(cb, p) => TwoSpell(more, cb, p, rest);
    case CUser(cb, p) => TwoSpell(more, cb, p, rest);
    case _ =>
  }

  lemma {:induction false} TwoSpell(bs: seq<byte>, a: Code, b: Code, rest: seq<byte>)
    requires ParseTwo(bs) == Got((a, b), rest)
    ensures exists m :: Spells(a, bs, m) && Spells(b, m, rest)
    decreases |bs|, 1
  {
    var m := Parse(bs).rest;
    ParseSpells(bs, a, m);
    ParseSpells(m, b, rest);
  }

  lemma {:induction false} EntriesSpell(bs: seq<byte>, es: Codes, rest: seq<byte>)
    requires ParseEntries(bs) == Got(es, rest)
    ensures SpellsAll(es, bs, rest)
    decreases |bs|, 2
  {
    match es
    case Done => assert bs == [bs[0]] + bs[1..];
    case Pair(k, v, more) =>
      var n := ParseTwo(bs).rest;
      TwoSpell(bs, k, v, n);
      EntriesSpell(n, more, rest);
  }

  // What is spelled is read

  lemma {:induction false} SpelledParses(c: Code, bs: seq<byte>, rest: seq<byte>)
    requires Spells(c, bs, rest)
    ensures Parse(bs) == Got(c, rest)
    decreases Size(c)
  {
    match c
    case CTab(es) =>
      AllSpelled(es, bs[2..], rest);
      ParsedBelow(bs, bs[1], bs[2..]);
    case CFun(code, ups) =>
      var m :| Decode(bs[2..]) == Read(|code|, code + m) && SpellsAll(ups, m, rest);
      AllSpelled(ups, m, rest);
      TakeSpelled(bs[2..], code, m);
      ParsedBelow(bs, bs[1], bs[2..]);
    case CHook(cb, p) =>
      TwoSpelled(cb, p, bs[2..], rest);
      ParsedBelow(bs, bs[1], bs[2..]);
    case CUser(cb, p) =>
      TwoSpelled(cb, p, bs[2..], rest);
      ParsedBelow(bs, bs[1], bs[2..]);
    case _ => SimpleSpelled(c, bs, rest);
  }

  lemma {:induction false} TwoSpelled(a: Code, b: Code, bs: seq<byte>, rest: seq<byte>)
    requires exists m :: Spells(a, bs, m) && Spells(b, m, rest)
    ensures ParseTwo(bs) == Got((a, b), rest)
    decreases Size(a) + Size(b)
  {
    var m :| Spells(a, bs, m) && Spells(b, m, rest);
    SpelledParses(a, bs, m);
    SpelledParses(b, m, rest);
  }

  /** A compound value is read by the rule for its type and tag. */
  lemma ParsedBelow(bs: seq<byte>, tag: byte, more: seq<byte>)
    requires |bs| >= 2 && bs[0] >= 5 && tag == bs[1] && more == bs[2..]
    ensures bs[0] == 5 && tag != 1 && tag != 3 && ParseEntries(more).Got? ==>
              Parse(bs) == Got(CTab(ParseEntries(more).value), ParseEntries(more).rest)
    ensures bs[0] == 6 && tag != 1 && TakeString(more).Got? && ParseEntries(TakeString(more).rest).Got? ==>
              var s := TakeString(more);
              var ups := ParseEntries(s.rest);
              Parse(bs) == Got(CFun(s.value, ups.value), ups.rest)
    ensures (bs[0] == 5 || bs[0] == 7) && tag == 3 && ParseTwo(more).Got? ==>
              var two := ParseTwo(more);
              Parse(bs) == Got(if bs[0] == 5 then CHook(two.value.0, two.value.1) else CUser(two.value.0, two.value.1),
                               two.rest)
  {
    assert bs[1..][0] == tag && bs[1..][1..] == more;
  }

  lemma SimpleSpelled(c: Code, bs: seq<byte>, rest: seq<byte>)
    requires Spells(c, bs, rest) && !c.CTab? && !c.CFun? && !c.CHook? && !c.CUser?
    ensures Parse(bs) == Got(c, rest)
  {
    match c
    case CNil => assert bs[1..] == rest;
    case CBool(_) => assert bs[1..][1..] == bs[2..];
    case CLight(w) => assert bs[1..] == w + rest && bs[1..][..8] == w && bs[1..][8..] == rest;
    case CNum(w) => assert bs[1..] == w + rest && bs[1..][..8] == w && bs[1..][8..] == rest;
    case CStr(s) => TakeSpelled(bs[1..], s, rest);
    case CRef(_, _) => assert bs[1..][0] == bs[1] && bs[1..][1..] == bs[2..];
  }

  lemma {:induction false} AllSpelled(es: Codes, bs: seq<byte>, rest: seq<byte>)
    requires SpellsAll(es, bs, rest)
    ensures ParseEntries(bs) == Got(es, rest)
    decreases SizeEntries(es)
  {
    match es
    case Done => assert bs[1..] == rest;
    case Pair(k, v, more) =>
      var m, n :| Spells(k, bs, m) && Spells(v, m, n) && SpellsAll(more, n, rest);
      SpelledParses(k, bs, m);
      SpelledParses(v, m, n);
      AllSpelled(more, n, rest);
      assert ParseTwo(bs) == Got((k, v), n);
  }

  /** The reader accepts exactly the spellings of the grammar, and reads each as what it spells; everything else is
      malformed. */
  lemma ParsesExactly(bs: seq<byte>, c: Code, rest: seq<byte>)
    ensures Parse(bs) == Got(c, rest) <==> Spells(c, bs, rest)
  {
    if Parse(bs) == Got(c, rest) { ParseSpells(bs, c, rest); }
    if Spells(c, bs, rest) { SpelledParses(c, bs, rest); }
  }

  /** What the writer writes is a spelling, with 2 as the tag of tables and functions and 1 for true. */
  lemma WrittenIsSpelled(c: Code, suffix: seq<byte>)
    requires Fits(c)
    ensures Spells(c, Bytes(c) + suffix, suffix)
    ensures c.CTab? || c.CFun? ==> |Bytes(c)| >= 2 && Bytes(c)[1] == 2
    ensures c == CBool(true) ==> Bytes(c) == [1, 1]
  {
    ParseWritten(c, suffix);
    ParseSpells(Bytes(c) + suffix, c, suffix);
  }
}
