/** Where the round trip ends: sizes beyond 32 bits, and table hooks that answer with tables
    or functions. */
module CodecLimits {
  import opened Uleb128
  import opened LuaHeap
  import opened Wire
  import opened Encoder
  import opened EncoderReach
  import opened Decoder
  import opened Codec

  predicate SmallValue(v: Value) { v.Str? ==> |v.s| < WORD }

  predicate SmallObj(o: Obj)
  {
    match o
    case TableObj(es, k) =>
      && (forall i :: 0 <= i < |es| ==> SmallValue(es[i].key) && SmallValue(es[i].val))
      && (k.Codec? ==> SmallValue(k.cb) && SmallValue(k.payload))
    case LuaFunc(code, ups) => |code| < WORD && forall i :: 0 <= i < |ups| ==> SmallValue(ups[i])
    case CFunc => true
    case UserObj(k) => k.Codec? ==> SmallValue(k.cb) && SmallValue(k.payload)
  }

  /** Every string and every piece of bytecode is shorter than 2^32. */
  predicate SmallHeap(h: Heap) { forall id :: id in h ==> SmallObj(h[id]) }

  predicate SmallEntries(es: seq<Entry>)
  {
    forall i :: 0 <= i < |es| ==> SmallValue(es[i].key) && SmallValue(es[i].val) && es[i].key != Nil
  }

  lemma {:induction false} ValueFits(h: Heap, v: Value, seen: Seen, r: Walk<Code>, left: set<Id>)
    requires Unmet(h, seen) <= left
    requires WellFormed(h) && SmallHeap(h) && Refers(h, v) && SmallValue(v)
    requires r == WalkValue(h, v, seen) && r.Walked? && |r.seen| < WORD
    ensures Fits(r.code)
    decreases left, 0, Rank(v), 1
  {
    match v
    case Table(id) => if id !in seen { TableFits(h, id, seen, r, left); }
    case Func(id) => if id !in seen { FunctionFits(h, id, seen, r, left); }
    case User(id) =>
      assert ObjOk(h, id, h[id]) && SmallObj(h[id]);
      var k := h[id].hook;
      TwoFit(h, k.cb, k.payload, seen, WalkTwo(h, k.cb, k.payload, seen), left);
    case _ =>
  }

  lemma TableFits(h: Heap, id: Id, seen: Seen, r: Walk<Code>, left: set<Id>)
    requires Unmet(h, seen) <= left
    requires WellFormed(h) && SmallHeap(h) && Refers(h, Table(id)) && id !in seen
    requires r == WalkTable(h, id, seen) && r.Walked? && |r.seen| < WORD
    ensures Fits(r.code)
    decreases left, 0, 0, 0
  {
    assert ObjOk(h, id, h[id]) && SmallObj(h[id]);
    Shrinks(h, seen, id);
    var k, s := h[id].hook, Encoder.Register(seen, id);
    if k.NoHook? {
      EntriesFitToo(h, h[id].entries, s, WalkEntries(h, h[id].entries, s), Unmet(h, s));
    } else {
      TwoFit(h, k.cb, k.payload, s, WalkTwo(h, k.cb, k.payload, s), Unmet(h, s));
    }
  }

  lemma FunctionFits(h: Heap, id: Id, seen: Seen, r: Walk<Code>, left: set<Id>)
    requires Unmet(h, seen) <= left
    requires WellFormed(h) && SmallHeap(h) && Refers(h, Func(id)) && Accepts(h, Func(id)) && id !in seen
    requires r == WalkFunction(h, id, seen) && r.Walked? && |r.seen| < WORD
    ensures Fits(r.code)
    decreases left, 0, 0, 0
  {
    assert ObjOk(h, id, h[id]) && SmallObj(h[id]);
    Shrinks(h, seen, id);
    var es, s := UpEntries(h[id].ups), Encoder.Register(seen, id);
    EntriesFitToo(h, es, s, WalkEntries(h, es, s), Unmet(h, s));
  }

  lemma {:induction false} TwoFit(h: Heap, a: Value, b: Value, seen: Seen, r: Walk<(Code, Code)>, left: set<Id>)
    requires Unmet(h, seen) <= left
    requires WellFormed(h) && SmallHeap(h) && Refers(h, a) && Refers(h, b) && SmallValue(a) && SmallValue(b)
    requires r == WalkTwo(h, a, b, seen) && r.Walked? && |r.seen| < WORD
    ensures Fits(r.code.0) && Fits(r.code.1) && (a != Nil ==> !r.code.0.CNil?)
    decreases left, 0, Rank(a) + Rank(b) + 1, 0
  {
    var ra := WalkValue(h, a, seen);
    ValueFits(h, a, seen, ra, left);
    StaysMet(h, seen, ra.seen);
    ValueFits(h, b, ra.seen, WalkValue(h, b, ra.seen), left);
  }

  lemma {:induction false} EntriesFitToo(h: Heap, es: seq<Entry>, seen: Seen, r: Walk<Codes>, left: set<Id>)
    requires Unmet(h, seen) <= left
    requires WellFormed(h) && SmallHeap(h) && EntriesRefer(h, es) && SmallEntries(es)
    requires r == WalkEntries(h, es, seen) && r.Walked? && |r.seen| < WORD
    ensures EntriesFit(r.code)
    decreases left, 1, |es|
  {
    if es != [] {
      var two := WalkTwo(h, es[0].key, es[0].val, seen);
      TwoFit(h, es[0].key, es[0].val, seen, two, left);
      StaysMet(h, seen, two.seen);
      EntriesFitToo(h, es[1..], two.seen, WalkEntries(h, es[1..], two.seen), left);
    }
  }

  /** A tuple over a heap of short strings with fewer than 2^32 objects to number fits the format. */
  lemma {:induction false} TupleFits(h: Heap, vs: seq<Value>, seen: Seen, r: Walk<seq<Code>>)
    requires WellFormed(h) && SmallHeap(h) && TupleRefers(h, vs)
    requires forall i :: 0 <= i < |vs| ==> SmallValue(vs[i])
    requires r == WalkTuple(h, vs, seen) && r.Walked? && |r.seen| < WORD
    ensures AllFit(r.code)
  {
    if vs != [] {
      var one := WalkValue(h, vs[0], seen);
      ValueFits(h, vs[0], seen, one, Unmet(h, seen));
      var rest := WalkTuple(h, vs[1..], one.seen);
      TupleFits(h, vs[1..], one.seen, rest);
      assert r.code == [one.code] + rest.code;
    }
  }

  /** The hook that answers with its own table is read before the table is registered, so that its decoder is
      called with nil. */
  lemma SelfAnswerGetsNil(env: Env, name: seq<byte>, st: State)
    requires st.seen == []
    ensures var two := BuildTwo(env, CStr(name), CRef(false, 1), st);
            two.Built? && two.v == (Str(name), Nil)
  {
  }

  // A hooked table whose payload is a table

  /** Table 1 has a hook that answers with table 2; table 2 is empty. */
  const HOOKED: Heap := map[1 := TableObj([], Codec(Str([100]), Table(2))), 2 := TableObj([], NoHook)]

  /** A decoding state in which the named decoder answers `true`. */
  function AnswersTrue(): Env
  {
    Env(map[[100] := Func(0)], map[], (g: Heap, f: Value, arg: Value) => Returned(Bool(true), []))
  }

  lemma WalkPair(h: Heap, a: Value, b: Value, seen: Seen, ra: Walk<Code>, rb: Walk<Code>)
    requires WellFormed(h) && TupleRefers(h, [a, b]) && Refers(h, a) && Refers(h, b)
    requires ra == WalkValue(h, a, seen) && ra.Walked? && rb == WalkValue(h, b, ra.seen) && rb.Walked?
    ensures WalkTuple(h, [a, b], seen) == Walked([ra.code, rb.code], rb.seen)
  {
    assert [a, b][1..] == [b] && [b][1..] == [];
    var none: seq<Code> := [];
    assert [rb.code] + none == [rb.code] && [ra.code] + [rb.code] == [ra.code, rb.code];
    assert WalkTuple(h, [], rb.seen) == Walked(none, rb.seen);
    assert WalkTuple(h, [b], ra.seen) == Walked([rb.code], rb.seen);
  }

  lemma BuildPair(env: Env, c: Code, d: Code, st: State, bc: Built<Value>, bd: Built<Value>)
    requires bc == Build(env, c, st) && bc.Built? && bd == Build(env, d, bc.st) && bd.Built?
    ensures BuildTuple(env, [c, d], st) == Built([bc.v, bd.v], bd.st)
  {
    assert [c, d][1..] == [d] && [d][1..] == [];
    var none: seq<Value> := [];
    assert [bd.v] + none == [bd.v] && [bc.v] + [bd.v] == [bc.v, bd.v];
    assert BuildTuple(env, [], bd.st) == Built(none, bd.st);
    assert BuildTuple(env, [d], bc.st) == Built([bd.v], bd.st);
  }

  lemma HookedShape()
    ensures WellFormed(HOOKED) && TupleRefers(HOOKED, [Table(1), Table(2)])
  {
    assert ObjOk(HOOKED, 1, HOOKED[1]) && ObjOk(HOOKED, 2, HOOKED[2]);
  }

  lemma HookedInside(s1: Seen, s2: Seen)
    requires WellFormed(HOOKED) && s1 == [1] && s2 == [1, 2]
    ensures WalkTwo(HOOKED, Str([100]), Table(2), s1) == Walked((CStr([100]), CTab(Done)), s2)
  {
    assert Encoder.Register(s1, 2) == s2;
    assert WalkEntries(HOOKED, [], s2) == Walked(Done, s2);
    assert WalkTable(HOOKED, 2, s1) == Walked(CTab(Done), s2);
  }

  lemma HookedEncodes()
    ensures WellFormed(HOOKED) && TupleRefers(HOOKED, [Table(1), Table(2)])
    ensures WalkTuple(HOOKED, [Table(1), Table(2)], [])
            == Walked([CHook(CStr([100]), CTab(Done)), CRef(false, 2)], [1, 2])
  {
    HookedShape();
    var s1: Seen := [1];
    var s2: Seen := [1, 2];
    assert Encoder.Register([], 1) == s1;
    HookedInside(s1, s2);
    var c := CHook(CStr([100]), CTab(Done));
    assert WalkTable(HOOKED, 1, []) == Walked(c, s2);
    assert s2[NumberOf(s2, 2) - 1] == 2;
    WalkPair(HOOKED, Table(1), Table(2), [], Walked(c, s2), Walked(CRef(false, 2), s2));
  }

  lemma HookedBuilds(env: Env, st: State)
    requires st.seen == [] && env == AnswersTrue()
    ensures var b := Build(env, CHook(CStr([100]), CTab(Done)), st);
            b.Built? && b.v == Bool(true) && b.st.seen == [Table(st.next), Bool(true)]
  {
    var st0 := st.(entered := st.entered + 1);
    var st1 := Enter(st0, TableObj([], NoHook), Table(st.next));
    assert BuildEntries(env, Done, st.next, st1) == Built((), st1);
    assert BuildTwo(env, CStr([100]), CTab(Done), st0) == Built((Str([100]), Table(st.next)), st1);
    assert AllocAll(st1, []) == st1;
    assert CallHook(env, Str([100]), Table(st.next), st1) == Built(Bool(true), st1);
  }

  /** Outside the fragment of `CodecTheorem.RoundTripIsomorphic` the round trip breaks: in the pair of a hooked
      table and its own payload, the reference to the payload comes back as the hook's answer,
      because the decoder has given the two their numbers the other way round. */
  lemma HookedPayloadIsLost(st: State)
    requires st.seen == []
    ensures WellFormed(HOOKED) && TupleRefers(HOOKED, [Table(1), Table(2)])
    ensures EncodeTuple(HOOKED, [Table(1), Table(2)]).Encoded?
    ensures var d := DecodeTuple(AnswersTrue(), EncodeTuple(HOOKED, [Table(1), Table(2)]).bytes, st);
            d.Built? && d.v == [Bool(true), Bool(true)]
  {
    HookedEncodes();
    var env, vs := AnswersTrue(), [Table(1), Table(2)];
    HookedFits(WalkTuple(HOOKED, vs, []).code);
    DecodeEncoded(HOOKED, env, vs, st, WalkTuple(HOOKED, vs, []));
    HookedPairBuilds(env, st);
  }

  lemma HookedFits(cs: seq<Code>)
    requires cs == [CHook(CStr([100]), CTab(Done)), CRef(false, 2)]
    ensures AllFit(cs)
  {
    assert Fits(CStr([100])) && Fits(CTab(Done)) && Fits(CRef(false, 2));
    assert Fits(cs[0]) && Fits(cs[1]);
  }

  lemma DecodeEncoded(h: Heap, env: Env, vs: seq<Value>, st: State, w: Walk<seq<Code>>)
    requires WellFormed(h) && TupleRefers(h, vs) && |vs| <= INT_MAX
    requires w == WalkTuple(h, vs, []) && w.Walked? && AllFit(w.code)
    ensures EncodeTuple(h, vs).Encoded? && DecodeTuple(env, EncodeTuple(h, vs).bytes, st) == BuildTuple(env, w.code, st)
  {
    DecodeWritten(h, env, vs, st, []);
    assert EncodeTuple(h, vs).bytes + [] == EncodeTuple(h, vs).bytes;
  }

  lemma HookedPairBuilds(env: Env, st: State)
    requires st.seen == [] && env == AnswersTrue()
    ensures var b := BuildTuple(env, [CHook(CStr([100]), CTab(Done)), CRef(false, 2)], st);
            b.Built? && b.v == [Bool(true), Bool(true)]
  {
    HookedBuilds(env, st);
    var c := CHook(CStr([100]), CTab(Done));
    var b := Build(env, c, st);
    BuildPair(env, c, CRef(false, 2), st, b, Built(Bool(true), b.st));
  }
}
