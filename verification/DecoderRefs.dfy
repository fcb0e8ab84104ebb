/** Which references the decoder can follow. */
module DecoderRefs {
  import opened Uleb128
  import opened LuaHeap
  import opened Wire
  import opened Decoder
  import opened Numbering

  /** As long as no hook answers nil, the decoder finds every reference registered exactly when the code
      says so. */
  lemma {:induction false} BuildRefs(env: Env, c: Code, st: State, r: Built<Value>)
    requires r == Build(env, c, st) && r.Built? && r.st.nils == st.nils
    ensures r.st.missed == st.missed <==> RefsKnown(c, |st.seen|)
    decreases Size(c), 0
  {
    match c
    case CTab(es) => TableRefs(env, es, st, r);
    case CFun(code, ups) => FunctionRefs(env, code, ups, st, r);
    case CHook(cb, p) =>
      var st0 := st.(entered := st.entered + 1);
      HookRefs(env, cb, p, st0, BuildTwo(env, cb, p, st0), r.st);
    case CUser(cb, p) => HookRefs(env, cb, p, st, BuildTwo(env, cb, p, st), r.st);
    case _ =>
  }

  lemma {:induction false} TableRefs(env: Env, es: Codes, st: State, r: Built<Value>)
    requires r == BuildTable(env, es, st) && r.Built? && r.st.nils == st.nils
    ensures r.st.missed == st.missed <==> EntryRefsKnown(es, |st.seen| + 1)
    decreases SizeEntries(es), 1
  {
    var st1 := Enter(st, TableObj([], NoHook), Table(st.next));
    EntriesRefs(env, es, st.next, st1, BuildEntries(env, es, st.next, st1));
  }

  lemma {:induction false} FunctionRefs(env: Env, code: seq<byte>, ups: Codes, st: State, r: Built<Value>)
    requires r == BuildFunction(env, code, ups, st) && r.Built? && r.st.nils == st.nils
    ensures r.st.missed == st.missed <==> EntryRefsKnown(ups, |st.seen| + 1)
    decreases SizeEntries(ups), 1
  {
    var st1 := Enter(st, LuaFunc(code, []), Func(st.next));
    var st2 := Alloc(st1, TableObj([], NoHook));
    EntriesRefs(env, ups, st1.next, st2, BuildEntries(env, ups, st1.next, st2));
  }

  lemma {:induction false} HookRefs(env: Env, cb: Code, p: Code, st: State, b: Built<(Value, Value)>, t: State)
    requires b == BuildTwo(env, cb, p, st) && b.Built? && CallHook(env, b.v.0, b.v.1, b.st).Built?
    requires t.nils == st.nils && CallHook(env, b.v.0, b.v.1, b.st).st.nils <= t.nils
    requires t.missed == CallHook(env, b.v.0, b.v.1, b.st).st.missed
    ensures t.missed == st.missed <==> RefsKnown(cb, |st.seen|) && RefsKnown(p, |st.seen| + Count(cb))
    decreases Size(cb) + Size(p), 2
  {
    AllocAllKeeps(b.st, env.call(b.st.heap, FindDecoder(env, b.v.0), b.v.1));
    TwoRefs(env, cb, p, st, b);
  }

  lemma {:induction false} TwoRefs(env: Env, a: Code, b: Code, st: State, r: Built<(Value, Value)>)
    requires r == BuildTwo(env, a, b, st) && r.Built? && r.st.nils == st.nils
    ensures r.st.missed == st.missed <==> RefsKnown(a, |st.seen|) && RefsKnown(b, |st.seen| + Count(a))
    decreases Size(a) + Size(b), 1
  {
    var ra, rb := TwoBuilt(env, a, b, st, r);
    BuildRefs(env, a, st, ra);
    BuildRefs(env, b, ra.st, rb);
  }

  lemma {:induction false} EntriesRefs(env: Env, es: Codes, t: Id, st: State, r: Built<()>)
    requires r == BuildEntries(env, es, t, st) && r.Built? && r.st.nils == st.nils
    ensures r.st.missed == st.missed <==> EntryRefsKnown(es, |st.seen|)
    decreases SizeEntries(es), 0
  {
    if es.Pair? {
      var b := BuildTwo(env, es.key, es.val, st);
      var st2 := StorePair(b.st, t, b.v.0, b.v.1);
      assert r == BuildEntries(env, es.rest, t, st2);
      TwoRefs(env, es.key, es.val, st, b);
      EntriesRefs(env, es.rest, t, st2, r);
    }
  }
}
