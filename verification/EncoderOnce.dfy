/** Every object is written in full exactly once; and exactly when every reference names an object that
    the decoder has registered by then. */
module EncoderOnce {
  import opened LuaHeap
  import opened Wire
  import opened Encoder
  import opened EncoderReach
  import opened Numbering
  import opened EncoderRefs
  import opened Live

  predicate Distinct(seen: Seen) { forall i, j :: 0 <= i < j < |seen| ==> seen[i] != seen[j] }

  lemma {:induction false} ValueOnce(h: Heap, v: Value, seen: Seen, r: Walk<Code>, left: set<Id>)
    requires Unmet(h, seen) <= left
    requires WellFormed(h) && Refers(h, v) && r == WalkValue(h, v, seen) && r.Walked? && Distinct(seen)
    ensures Distinct(r.seen) && (PlainTableHooks(h) ==> HooksEmpty(r.code))
    decreases left, 0, Rank(v), 1
  {
    match v
    case Table(id) => if id !in seen { TableOnce(h, id, seen, r, left); }
    case Func(id) => if id !in seen { FunctionOnce(h, id, seen, r, left); }
    case User(id) =>
      assert ObjOk(h, id, h[id]);
      var k := h[id].hook;
      TwoOnce(h, k.cb, k.payload, seen, WalkTwo(h, k.cb, k.payload, seen), left);
    case _ =>
  }

  lemma TableOnce(h: Heap, id: Id, seen: Seen, r: Walk<Code>, left: set<Id>)
    requires Unmet(h, seen) <= left && Distinct(seen)
    requires WellFormed(h) && Refers(h, Table(id)) && id !in seen && r == WalkTable(h, id, seen) && r.Walked?
    ensures Distinct(r.seen) && (PlainTableHooks(h) ==> HooksEmpty(r.code))
    decreases left, 0, 0, 0
  {
    assert ObjOk(h, id, h[id]);
    Shrinks(h, seen, id);
    var k, s := h[id].hook, Register(seen, id);
    if k.NoHook? {
      EntriesOnce(h, h[id].entries, s, WalkEntries(h, h[id].entries, s), Unmet(h, s));
    } else {
      TwoOnce(h, k.cb, k.payload, s, WalkTwo(h, k.cb, k.payload, s), Unmet(h, s));
      if Plain(k) {
        ScalarWalk(h, k.cb, s);
        ScalarWalk(h, k.payload, s);
      }
    }
  }

  lemma FunctionOnce(h: Heap, id: Id, seen: Seen, r: Walk<Code>, left: set<Id>)
    requires Unmet(h, seen) <= left && Distinct(seen)
    requires WellFormed(h) && Refers(h, Func(id)) && Accepts(h, Func(id)) && id !in seen
    requires r == WalkFunction(h, id, seen) && r.Walked?
    ensures Distinct(r.seen) && (PlainTableHooks(h) ==> HooksEmpty(r.code))
    decreases left, 0, 0, 0
  {
    assert ObjOk(h, id, h[id]);
    Shrinks(h, seen, id);
    var es, s := UpEntries(h[id].ups), Register(seen, id);
    EntriesOnce(h, es, s, WalkEntries(h, es, s), Unmet(h, s));
  }

  lemma {:induction false} TwoOnce(h: Heap, a: Value, b: Value, seen: Seen, r: Walk<(Code, Code)>, left: set<Id>)
    requires Unmet(h, seen) <= left && Distinct(seen)
    requires WellFormed(h) && Refers(h, a) && Refers(h, b) && r == WalkTwo(h, a, b, seen) && r.Walked?
    ensures Distinct(r.seen) && (PlainTableHooks(h) ==> HooksEmpty(r.code.0) && HooksEmpty(r.code.1))
    decreases left, 0, Rank(a) + Rank(b) + 1, 0
  {
    var ra := WalkValue(h, a, seen);
    ValueOnce(h, a, seen, ra, left);
    StaysMet(h, seen, ra.seen);
    ValueOnce(h, b, ra.seen, WalkValue(h, b, ra.seen), left);
  }

  lemma {:induction false} EntriesOnce(h: Heap, es: seq<Entry>, seen: Seen, r: Walk<Codes>, left: set<Id>)
    requires Unmet(h, seen) <= left && Distinct(seen)
    requires WellFormed(h) && EntriesRefer(h, es) && r == WalkEntries(h, es, seen) && r.Walked?
    ensures Distinct(r.seen) && (PlainTableHooks(h) ==> HooksEmptyEntries(r.code))
    decreases left, 1, |es|
  {
    if es != [] {
      var two := WalkTwo(h, es[0].key, es[0].val, seen);
      TwoOnce(h, es[0].key, es[0].val, seen, two, left);
      StaysMet(h, seen, two.seen);
      EntriesOnce(h, es[1..], two.seen, WalkEntries(h, es[1..], two.seen), left);
    }
  }

  // Tuples

  /** How many tables and functions are written in full. */
  function CountAll(cs: seq<Code>): nat
  {
    if cs == [] then 0 else Count(cs[0]) + CountAll(cs[1..])
  }

  /** Every reference in the codes names one of the `n` objects known before them, or one written
      earlier in them. */
  predicate AllRefsKnown(cs: seq<Code>, n: nat)
  {
    cs != [] ==> RefsKnown(cs[0], n) && AllRefsKnown(cs[1..], n + Count(cs[0]))
  }

  /** The same from the encoder's side. */
  predicate NoneLate(cs: seq<Code>, n: nat)
  {
    cs != [] ==> NoLateRef(cs[0], n, 0) && NoneLate(cs[1..], n + Count(cs[0]))
  }

  predicate AllHooksEmpty(cs: seq<Code>) { forall i :: 0 <= i < |cs| ==> HooksEmpty(cs[i]) }

  lemma {:induction false} NoneLateExactly(cs: seq<Code>, n: nat)
    ensures AllRefsKnown(cs, n) <==> NoneLate(cs, n)
  {
    if cs != [] {
      KnownExactly(cs[0], n, 0);
      NoneLateExactly(cs[1..], n + Count(cs[0]));
    }
  }

  lemma {:induction false} TupleOnce(h: Heap, vs: seq<Value>, seen: Seen, r: Walk<seq<Code>>)
    requires WellFormed(h) && TupleRefers(h, vs) && Distinct(seen) && r == WalkTuple(h, vs, seen) && r.Walked?
    ensures Distinct(r.seen) && |r.seen| == |seen| + CountAll(r.code)
    ensures PlainTableHooks(h) ==> AllHooksEmpty(r.code)
  {
    if vs != [] {
      var one := WalkValue(h, vs[0], seen);
      ValueOnce(h, vs[0], seen, one, Unmet(h, seen));
      var rest := WalkTuple(h, vs[1..], one.seen);
      TupleOnce(h, vs[1..], one.seen, rest);
      assert r.code == [one.code] + rest.code && r.code[1..] == rest.code;
    }
  }

  /** As long as no table hook answers with an object of its own, exactly the tables whose hook answers with
      the table itself spoil the references. */
  lemma {:induction false} TupleRefs(h: Heap, vs: seq<Value>, seen: Seen, r: Walk<seq<Code>>)
    requires WellFormed(h) && TupleRefers(h, vs) && r == WalkTuple(h, vs, seen) && r.Walked? && AllHooksEmpty(r.code)
    ensures |r.seen| == |seen| + CountAll(r.code)
    ensures AllRefsKnown(r.code, |seen|) <==> NoneAnswers(h, r.seen, |seen|)
  {
    if vs != [] {
      var one := WalkValue(h, vs[0], seen);
      var rest := WalkTuple(h, vs[1..], one.seen);
      TupleStep(h, vs, seen, r, one, rest);
      ValueRefs(h, vs[0], seen, one, Unmet(h, seen));
      TupleRefs(h, vs[1..], one.seen, rest);
      NoneSplit(h, one.seen, r.seen, |seen|);
    }
  }

  lemma TupleStep(h: Heap, vs: seq<Value>, seen: Seen, r: Walk<seq<Code>>, one: Walk<Code>, rest: Walk<seq<Code>>)
    requires WellFormed(h) && TupleRefers(h, vs) && vs != [] && r == WalkTuple(h, vs, seen) && r.Walked?
    requires one == WalkValue(h, vs[0], seen) && (one.Walked? ==> rest == WalkTuple(h, vs[1..], one.seen))
    ensures one.Walked? && rest.Walked? && r == Walked([one.code] + rest.code, rest.seen)
    ensures r.code[0] == one.code && r.code[1..] == rest.code
    ensures AllHooksEmpty(r.code) ==> HooksEmpty(one.code) && AllHooksEmpty(rest.code)
  {
    if AllHooksEmpty(r.code) {
      assert HooksEmpty(r.code[0]);
      forall i | 0 <= i < |rest.code| ensures HooksEmpty(rest.code[i]) { assert rest.code[i] == r.code[i + 1]; }
    }
  }

  /** Encoding writes each table and function that can be reached in full, once, and no other. Every
      reference names an object registered by then exactly if none is late in the encoder's own count; and,
      if no table hook answers with an object of its own, exactly if none answers with its own table. */
  lemma WrittenOnce(h: Heap, vs: seq<Value>)
    requires WellFormed(h) && TupleRefers(h, vs) && WalkTuple(h, vs, []).Walked?
    ensures var r := WalkTuple(h, vs, []);
            && Distinct(r.seen) && CountAll(r.code) == |r.seen| <= |h|
            && (AllRefsKnown(r.code, 0) <==> NoneLate(r.code, 0))
            && (AllHooksEmpty(r.code) ==> (AllRefsKnown(r.code, 0) <==> NoneAnswers(h, r.seen, 0)))
            && forall id :: id in r.seen <==> id in h && !h[id].UserObj? && Reachable(h, vs, ValueOf(h, id))
  {
    var r := WalkTuple(h, vs, []);
    TupleOnce(h, vs, [], r);
    NoneLateExactly(r.code, 0);
    if AllHooksEmpty(r.code) { TupleRefs(h, vs, [], r); }
    forall id
      ensures id in r.seen <==> id in h && !h[id].UserObj? && Reachable(h, vs, ValueOf(h, id))
    {
      NumbersExactlyReachable(h, vs, id);
    }
    AtMost(r.seen, h.Keys);
    assert |h.Keys| == |h|;
  }

  /** Plain hooks, such as those of the library, spoil nothing. */
  lemma PlainRefsKnown(h: Heap, vs: seq<Value>)
    requires WellFormed(h) && TupleRefers(h, vs) && WalkTuple(h, vs, []).Walked? && PlainTableHooks(LivePart(h, vs))
    ensures AllHooksEmpty(WalkTuple(h, vs, []).code) && AllRefsKnown(WalkTuple(h, vs, []).code, 0)
  {
    var g := LivePart(h, vs);
    LiveWellFormed(h, vs);
    OnlyLiveMatters(h, vs);
    var r := WalkTuple(g, vs, []);
    TupleOnce(g, vs, [], r);
    TupleRefs(g, vs, [], r);
  }

  // Tables whose hook answers with the table itself

  lemma OneValue(h: Heap, v: Value, vs: seq<Value>, seen: Seen, r: Walk<Code>)
    requires WellFormed(h) && Refers(h, v) && vs == [v] && r == WalkValue(h, v, seen) && r.Walked?
    ensures WalkTuple(h, vs, seen) == Walked([r.code], r.seen)
  {
    var rest := WalkTuple(h, vs[1..], r.seen);
    assert rest.Walked? && rest.code == [] && rest.seen == r.seen;
    assert [r.code] + rest.code == [r.code];
  }

  lemma SelfWalk(h: Heap, id: Id, k: Hook, seen: Seen, r: Walk<Code>)
    requires WellFormed(h) && id in h && h[id].TableObj? && h[id].hook == k && id !in seen
    requires k.Codec? && k.cb.Str? && k.payload == Table(id) && r == WalkValue(h, Table(id), seen)
    ensures r == Walked(CHook(CStr(k.cb.s), CRef(false, |seen| + 1)), Register(seen, id))
  {
    assert ObjOk(h, id, h[id]);
    var s := Register(seen, id);
    assert s[|seen|] == id && s[NumberOf(s, id) - 1] == id;
    AnswerNumber(seen, id, id);
    var two := WalkTwo(h, k.cb, k.payload, s);
    assert WalkValue(h, k.cb, s) == Walked(CStr(k.cb.s), s);
    assert WalkValue(h, k.payload, s) == Walked(CRef(false, |seen| + 1), s);
  }

  /** Its encoding refers to number 1 before anything is registered, although no hook brings an object of
      its own. An instance is `SELF`. */
  lemma SelfAnswerIsLate(h: Heap, id: Id, vs: seq<Value>)
    requires WellFormed(h) && id in h && h[id].TableObj? && h[id].hook.Codec? && h[id].hook.cb.Str?
    requires h[id].hook.payload == Table(id) && vs == [Table(id)]
    ensures TupleRefers(h, vs) && SelfAnswer(h, id)
    ensures var r := WalkTuple(h, vs, []); r.Walked? && AllHooksEmpty(r.code) && !AllRefsKnown(r.code, 0)
  {
    var r := WalkValue(h, Table(id), []);
    SelfWalk(h, id, h[id].hook, [], r);
    OneValue(h, Table(id), vs, [], r);
    assert !RefsKnown(r.code, 0) && HooksEmpty(r.code);
  }

  const SELF: Heap := map[1 := TableObj([], Codec(Str([100]), Table(1)))]

  lemma SelfIsOne()
    ensures WellFormed(SELF) && SELF[1].hook == Codec(Str([100]), Table(1))
  {
    assert ObjOk(SELF, 1, SELF[1]);
  }

  lemma {:induction false} AtMost(seen: Seen, ids: set<Id>)
    requires Distinct(seen) && forall id :: id in seen ==> id in ids
    ensures |seen| <= |ids|
  {
    if seen != [] {
      var last, before := seen[|seen| - 1], seen[..|seen| - 1];
      AtMost(before, ids - {last});
    }
  }
}
