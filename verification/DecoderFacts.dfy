/** What every decoding run does, whatever the hooks do: it only adds to the heap, and it
    registers objects in the order `Numbering.DecoderOrder` describes. */
module DecoderFacts {
  import opened Uleb128
  import opened LuaHeap
  import opened Wire
  import opened Decoder
  import opened Numbering

  lemma {:induction false} BuildGrows(env: Env, c: Code, st: State, r: Built<Value>)
    requires Tidy(st) && r == Build(env, c, st) && r.Built?
    ensures Grows(st, r.st, {})
    decreases Size(c), 0
  {
    match c
    case CTab(es) => TableGrows(env, es, st, r);
    case CFun(code, ups) => FunctionGrows(env, code, ups, st, r);
    case CHook(cb, p) =>
      var st0 := st.(entered := st.entered + 1);
      HookGrows(env, cb, p, st0, BuildTwo(env, cb, p, st0));
    case CUser(cb, p) =>
      HookGrows(env, cb, p, st, BuildTwo(env, cb, p, st));
    case _ =>
  }

  lemma {:induction false} HookGrows(env: Env, cb: Code, p: Code, st: State, b: Built<(Value, Value)>)
    requires Tidy(st) && b == BuildTwo(env, cb, p, st) && b.Built?
    requires CallHook(env, b.v.0, b.v.1, b.st).Built?
    ensures Grows(st, CallHook(env, b.v.0, b.v.1, b.st).st, {})
    decreases Size(cb) + Size(p), 2
  {
    TwoGrows(env, cb, p, st, b);
    CallGrows(env, b.v.0, b.v.1, b.st);
    GrowsTrans(st, b.st, CallHook(env, b.v.0, b.v.1, b.st).st, {});
  }

  lemma CallGrows(env: Env, f: Value, arg: Value, st: State)
    requires Tidy(st) && CallHook(env, f, arg, st).Built?
    ensures Grows(st, CallHook(env, f, arg, st).st, {})
  {
    AllocAllGrows(st, env.call(st.heap, FindDecoder(env, f), arg).made);
  }

  lemma {:induction false} TableGrows(env: Env, es: Codes, st: State, r: Built<Value>)
    requires Tidy(st) && r == BuildTable(env, es, st) && r.Built?
    ensures Grows(st, r.st, {})
    decreases SizeEntries(es), 1
  {
    var st1 := Enter(st, TableObj([], NoHook), Table(st.next));
    EntriesGrow(env, es, st.next, st1, BuildEntries(env, es, st.next, st1));
  }

  lemma {:induction false} FunctionGrows(env: Env, code: seq<byte>, ups: Codes, st: State, r: Built<Value>)
    requires Tidy(st) && r == BuildFunction(env, code, ups, st) && r.Built?
    ensures Grows(st, r.st, {})
    decreases SizeEntries(ups), 1
  {
    var st1 := Enter(st, LuaFunc(code, []), Func(st.next));
    var st2 := Alloc(st1, TableObj([], NoHook));
    var b := BuildEntries(env, ups, st1.next, st2);
    EntriesGrow(env, ups, st1.next, st2, b);
    SetFreshGrows(st, b.st, r.st.heap[st.next], r.st);
  }

  /** Filling in objects that were not there before. */
  lemma SetFreshGrows(st: State, b: State, o: Obj, c: State)
    requires Tidy(st) && Tidy(b) && st.next in b.heap
    requires st.next <= b.next && st.seen <= b.seen && st.marks <= b.marks
    requires forall x :: x in st.heap ==> x in b.heap && b.heap[x] == st.heap[x]
    requires c == b.(heap := b.heap[st.next := o])
    ensures Grows(st, c, {})
  {
  }

  lemma {:induction false} TwoGrows(env: Env, a: Code, b: Code, st: State, r: Built<(Value, Value)>)
    requires Tidy(st) && r == BuildTwo(env, a, b, st) && r.Built?
    ensures Grows(st, r.st, {})
    decreases Size(a) + Size(b), 1
  {
    var ra := Build(env, a, st);
    BuildGrows(env, a, st, ra);
    BuildGrows(env, b, ra.st, Build(env, b, ra.st));
    GrowsTrans(st, ra.st, r.st, {});
  }

  lemma {:induction false} EntriesGrow(env: Env, es: Codes, t: Id, st: State, r: Built<()>)
    requires Tidy(st) && r == BuildEntries(env, es, t, st) && r.Built?
    ensures Grows(st, r.st, {t})
    decreases SizeEntries(es), 0
  {
    if es.Pair? {
      var b := BuildTwo(env, es.key, es.val, st);
      TwoGrows(env, es.key, es.val, st, b);
      var st2 := StorePair(b.st, t, b.v.0, b.v.1);
      EntriesGrow(env, es.rest, t, st2, BuildEntries(env, es.rest, t, st2));
    }
  }

  /** The decoder registers the objects of a code in `DecoderOrder`, whatever the hooks do, unless one
      answers nil. */
  lemma {:induction false} BuildMarks(env: Env, c: Code, st: State, r: Built<Value>)
    requires r == Build(env, c, st) && r.Built? && r.st.nils == st.nils
    ensures r.st.marks == st.marks + DecoderOrder(c, st.entered)
    decreases Size(c), 0
  {
    match c
    case CTab(es) => TableMarks(env, es, st, r);
    case CFun(code, ups) => FunctionMarks(env, code, ups, st, r);
    case CHook(cb, p) => HookMarks(env, cb, p, st, r);
    case CUser(cb, p) => UserMarks(env, cb, p, st, r);
    case _ => assert r.st.marks == st.marks && DecoderOrder(c, st.entered) == [];
  }

  lemma {:induction false} UserMarks(env: Env, cb: Code, p: Code, st: State, r: Built<Value>)
    requires r == BuildUser(env, cb, p, st) && r.Built? && r.st.nils == st.nils
    ensures r.st.marks == st.marks + DecoderOrder(CUser(cb, p), st.entered)
    decreases Size(cb) + Size(p), 2
  {
    var b := BuildTwo(env, cb, p, st);
    AllocAllKeeps(b.st, env.call(b.st.heap, FindDecoder(env, b.v.0), b.v.1));
    TwoMarks(env, cb, p, st, b);
  }

  lemma {:induction false} HookMarks(env: Env, cb: Code, p: Code, st: State, r: Built<Value>)
    requires r == BuildHooked(env, cb, p, st) && r.Built? && r.st.nils == st.nils
    ensures r.st.marks == st.marks + DecoderOrder(CHook(cb, p), st.entered)
    decreases Size(cb) + Size(p), 2
  {
    var st0 := st.(entered := st.entered + 1);
    var b := BuildTwo(env, cb, p, st0);
    AllocAllKeeps(b.st, env.call(b.st.heap, FindDecoder(env, b.v.0), b.v.1));
    TwoMarks(env, cb, p, st0, b);
    HookMarksJoin(cb, p, st.entered, st.marks, b.st.marks, r.st.marks);
  }

  lemma HookOrder(cb: Code, p: Code, n: nat, x: seq<nat>, y: seq<nat>)
    requires x == DecoderOrder(cb, n + 1) && y == DecoderOrder(p, n + 1 + Count(cb))
    ensures DecoderOrder(CHook(cb, p), n) == x + y + [n + 1]
  {
  }

  lemma HookMarksJoin(cb: Code, p: Code, n: nat, a: seq<nat>, b: seq<nat>, c: seq<nat>)
    requires b == a + (DecoderOrder(cb, n + 1) + DecoderOrder(p, n + 1 + Count(cb))) && c == b + [n + 1]
    ensures c == a + DecoderOrder(CHook(cb, p), n)
  {
    var x, y := DecoderOrder(cb, n + 1), DecoderOrder(p, n + 1 + Count(cb));
    HookOrder(cb, p, n, x, y);
    Append(a, b, c, x + y, [n + 1]);
  }

  lemma {:induction false} TableMarks(env: Env, es: Codes, st: State, r: Built<Value>)
    requires r == BuildTable(env, es, st) && r.Built? && r.st.nils == st.nils
    ensures r.st.marks == st.marks + ([st.entered + 1] + DecoderOrderEntries(es, st.entered + 1))
    decreases SizeEntries(es), 1
  {
    var st1 := Enter(st, TableObj([], NoHook), Table(st.next));
    var b := BuildEntries(env, es, st.next, st1);
    EntriesMarks(env, es, st.next, st1, b);
    Append(st.marks, st1.marks, b.st.marks, [st.entered + 1], DecoderOrderEntries(es, st.entered + 1));
  }

  lemma {:induction false} FunctionMarks(env: Env, code: seq<byte>, ups: Codes, st: State, r: Built<Value>)
    requires r == BuildFunction(env, code, ups, st) && r.Built? && r.st.nils == st.nils
    ensures r.st.marks == st.marks + ([st.entered + 1] + DecoderOrderEntries(ups, st.entered + 1))
    decreases SizeEntries(ups), 1
  {
    var st1 := Enter(st, LuaFunc(code, []), Func(st.next));
    var st2 := Alloc(st1, TableObj([], NoHook));
    var b := BuildEntries(env, ups, st1.next, st2);
    assert b.Built? && r.st.marks == b.st.marks && b.st.nils == st.nils;
    EntriesMarks(env, ups, st1.next, st2, b);
    Append(st.marks, st1.marks, b.st.marks, [st.entered + 1], DecoderOrderEntries(ups, st.entered + 1));
  }

  predicate UniqueKeys(es: seq<Entry>) { forall i, j :: 0 <= i < j < |es| ==> es[i].key != es[j].key }

  lemma {:induction false} StoreKeys(es: seq<Entry>, k: Value, v: Value)
    ensures forall i :: 0 <= i < |Store(es, k, v)| ==>
              Store(es, k, v)[i].key == k || exists j :: 0 <= j < |es| && es[j].key == Store(es, k, v)[i].key
  {
    if es != [] && es[0].key != k {
      StoreKeys(es[1..], k, v);
      var s, t := Store(es, k, v), Store(es[1..], k, v);
      forall i | 0 <= i < |s| ensures s[i].key == k || exists j :: 0 <= j < |es| && es[j].key == s[i].key {
        if i > 0 && s[i].key != k {
          assert s[i] == t[i - 1];
          var j :| 0 <= j < |es[1..]| && es[1..][j].key == t[i - 1].key;
          assert es[j + 1].key == s[i].key;
        }
      }
    }
  }

  /** Storing a pair is an update of the table: the key has the new value, or none if that is nil, all other keys keep
      theirs, and no key comes twice. */
  lemma {:induction false} StoreUpdates(es: seq<Entry>, k: Value, v: Value, x: Value)
    requires UniqueKeys(es)
    ensures UniqueKeys(Store(es, k, v)) && Lookup(Store(es, k, v), x) == if x == k then v else Lookup(es, x)
  {
    if es != [] {
      assert forall i :: 0 <= i < |es[1..]| ==> es[1..][i] == es[i + 1];
      if es[0].key == k {
        if x == k { LookupNone(es[1..], k); }
      } else {
        StoreUpdates(es[1..], k, v, x);
        StoreKeys(es[1..], k, v);
        KeysApart(es[0], Store(es[1..], k, v));
      }
    }
  }

  lemma KeysApart(e: Entry, es: seq<Entry>)
    requires UniqueKeys(es) && forall i :: 0 <= i < |es| ==> es[i].key != e.key
    ensures UniqueKeys([e] + es)
  {
  }

  lemma {:induction false} LookupNone(es: seq<Entry>, k: Value)
    requires forall i :: 0 <= i < |es| ==> es[i].key != k
    ensures Lookup(es, k) == Nil
  {
    if es != [] { LookupNone(es[1..], k); }
  }

  /** A pair whose key was decoded to nil stops the decoding. */
  lemma NilKeyFails(env: Env, k: Code, v: Code, rest: Codes, t: Id, st: State, two: Built<(Value, Value)>)
    requires two == BuildTwo(env, k, v, st) && two.Built? && two.v.0 == Nil
    ensures BuildEntries(env, Pair(k, v, rest), t, st).Failed?
  {
  }

  /** There is a function that the callback `f` stands for, and it answers. */
  ghost predicate Callable(env: Env, f: Value, p: Value, heap: Heap)
  {
    exists d :: DecoderOf(env, f, d) && env.call(heap, d, p).Returned?
  }

  /** That function was called on `p` and answered `v`; what it made is numbered from the next free number on,
      and nothing there was changed. */
  ghost predicate Called(env: Env, f: Value, p: Value, st: State, v: Value, heap: Heap, next: Id)
  {
    exists d :: DecoderOf(env, f, d) && Made(env.call(st.heap, d, p), st, v, heap, next)
  }

  ghost predicate Made(a: Reply, st: State, v: Value, heap: Heap, next: Id)
  {
    && a.Returned? && v == a.v && next == st.next + |a.made|
    && (forall x :: x in heap <==> x in st.heap || st.next <= x < next)
    && (forall x :: x in st.heap ==> heap[x] == st.heap[x])
    && (forall i :: 0 <= i < |a.made| ==> heap[st.next + i] == a.made[i])
  }

  /** Calling a hook fails exactly if there is no such function or it raises an error. */
  lemma HookCalls(env: Env, f: Value, p: Value, st: State, r: Built<Value>)
    requires Tidy(st) && r == CallHook(env, f, p, st)
    ensures r.Built? <==> Callable(env, f, p, st.heap)
    ensures r.Built? ==> Called(env, f, p, st, r.v, r.st.heap, r.st.next) && r.st.seen == st.seen
  {
    var d := FindDecoder(env, f);
    FindsExactly(env, f, d);
    forall e ensures DecoderOf(env, f, e) ==> e == d { FindsExactly(env, f, e); }
    if r.Built? {
      var a := env.call(st.heap, d, p);
      AllocAllAt(st, a.made);
      AllocAllSame(st, a.made);
      assert DecoderOf(env, f, d) && Made(a, st, r.v, r.st.heap, r.st.next);
    }
  }

  lemma UserStep(env: Env, cb: Code, p: Code, st: State, two: Built<(Value, Value)>)
    requires two == BuildTwo(env, cb, p, st) && two.Built?
    ensures BuildUser(env, cb, p, st) == CallHook(env, two.v.0, two.v.1, two.st)
  {
  }

  lemma HookStep(env: Env, cb: Code, p: Code, st: State, two: Built<(Value, Value)>, c: Built<Value>)
    requires two == BuildTwo(env, cb, p, st.(entered := st.entered + 1)) && two.Built?
    requires c == CallHook(env, two.v.0, two.v.1, two.st)
    ensures BuildHooked(env, cb, p, st) == if c.Built? then Built(c.v, Register(c.st, c.v, st.entered + 1)) else Failed
  {
  }

  /** Userdata is decoded by one such call, on what its callback and payload were decoded to. */
  lemma UserCalls(env: Env, cb: Code, p: Code, st: State, two: Built<(Value, Value)>, r: Built<Value>)
    requires two == BuildTwo(env, cb, p, st) && two.Built? && Tidy(two.st) && r == BuildUser(env, cb, p, st)
    ensures r.Built? <==> Callable(env, two.v.0, two.v.1, two.st.heap)
    ensures r.Built? ==>
              Called(env, two.v.0, two.v.1, two.st, r.v, r.st.heap, r.st.next) && r.st.seen == two.st.seen
  {
    UserStep(env, cb, p, st, two);
    HookCalls(env, two.v.0, two.v.1, two.st, r);
  }

  /** So is a hooked table; the answer is registered, unless it is nil. */
  lemma HookedCalls(env: Env, cb: Code, p: Code, st: State, two: Built<(Value, Value)>, r: Built<Value>)
    requires two == BuildTwo(env, cb, p, st.(entered := st.entered + 1)) && two.Built? && Tidy(two.st)
    requires r == BuildHooked(env, cb, p, st)
    ensures r.Built? <==> Callable(env, two.v.0, two.v.1, two.st.heap)
    ensures r.Built? ==> Called(env, two.v.0, two.v.1, two.st, r.v, r.st.heap, r.st.next)
    ensures r.Built? ==> r.st.seen == two.st.seen + if r.v == Nil then [] else [r.v]
  {
    var c := CallHook(env, two.v.0, two.v.1, two.st);
    HookStep(env, cb, p, st, two, c);
    HookCalls(env, two.v.0, two.v.1, two.st, c);
  }

  lemma {:induction false} TwoMarks(env: Env, a: Code, b: Code, st: State, r: Built<(Value, Value)>)
    requires r == BuildTwo(env, a, b, st) && r.Built? && r.st.nils == st.nils
    ensures r.st.marks == st.marks + (DecoderOrder(a, st.entered) + DecoderOrder(b, st.entered + Count(a)))
    decreases Size(a) + Size(b), 1
  {
    var ra, rb := TwoBuilt(env, a, b, st, r);
    BuildMarks(env, a, st, ra);
    BuildMarks(env, b, ra.st, rb);
    Append(st.marks, ra.st.marks, r.st.marks, DecoderOrder(a, st.entered), DecoderOrder(b, st.entered + Count(a)));
  }

  lemma PairMarks(k: Code, v: Code, rest: Codes, n: nat, m: nat, a: seq<nat>, b: seq<nat>, c: seq<nat>)
    requires b == a + (DecoderOrder(k, n) + DecoderOrder(v, n + Count(k)))
    requires m == n + Count(k) + Count(v) && c == b + DecoderOrderEntries(rest, m)
    ensures c == a + DecoderOrderEntries(Pair(k, v, rest), n)
  {
    var x, y := DecoderOrder(k, n), DecoderOrder(v, n + Count(k));
    var z := DecoderOrderEntries(rest, m);
    var all := OrderOfPair(k, v, rest, n, x, y, z);
    Append(a, b, c, x + y, z);
  }

  lemma {:induction false} EntriesMarks(env: Env, es: Codes, t: Id, st: State, r: Built<()>)
    requires r == BuildEntries(env, es, t, st) && r.Built? && r.st.nils == st.nils
    ensures r.st.marks == st.marks + DecoderOrderEntries(es, st.entered)
    decreases SizeEntries(es), 0
  {
    match es
    case Done =>
    case Pair(k, v, rest) =>
      var b := BuildTwo(env, k, v, st);
      var st2 := EntriesStep(env, es, t, st, r, b);
      TwoMarks(env, k, v, st, b);
      EntriesMarks(env, rest, t, st2, r);
      PairMarks(k, v, rest, st.entered, st2.entered, st.marks, st2.marks, r.st.marks);
  }

  lemma EntriesStep(env: Env, es: Codes, t: Id, st: State, r: Built<()>, b: Built<(Value, Value)>) returns (st2: State)
    requires es.Pair? && r == BuildEntries(env, es, t, st) && r.Built? && r.st.nils == st.nils
    requires b == BuildTwo(env, es.key, es.val, st)
    ensures b.Built? && b.st.nils == st.nils && r == BuildEntries(env, es.rest, t, st2) && st2.nils == st.nils
    ensures st2.marks == b.st.marks && st2.entered == st.entered + Count(es.key) + Count(es.val)
  {
    st2 := StorePair(b.st, t, b.v.0, b.v.1);
  }

  /** When decoder and encoder had numbered all objects alike before a value, they still have after it
      exactly if no table hook inside it answered with a table or function of its own and none was
      decoded to nil. Without a nil, the same numbers are at least given out. */
  lemma NumbersAgreeExactly(env: Env, c: Code, st: State)
    requires Build(env, c, st).Built? && |st.marks| == st.entered && InStep(st.marks, 0)
    ensures var t := Build(env, c, st).st;
            && t.entered == st.entered + Count(c)
            && (t.nils == st.nils ==> |t.marks| == t.entered && Permutes(t.marks, 0))
            && (|t.marks| == t.entered && InStep(t.marks, 0) <==> HooksEmpty(c) && t.nils == st.nils)
  {
    var r := Build(env, c, st);
    if r.st.nils == st.nils {
      BuildMarks(env, c, st, r);
      OrderAgrees(c, st.entered, st.marks, r.st.marks);
    }
  }

  lemma OrderAgrees(c: Code, n: nat, before: seq<nat>, after: seq<nat>)
    requires InStep(before, 0) && |before| == n && after == before + DecoderOrder(c, n)
    ensures Permutes(after, 0) && (InStep(after, 0) <==> HooksEmpty(c))
  {
    LockstepExactly(c, n);
    InStepConcat(before, DecoderOrder(c, n), 0);
    SameNumbers(c, n);
    InStepPermutes(before, 0);
    PermutesConcat(before, DecoderOrder(c, n), 0);
  }

  /** A hooked table that the encoder numbers k and whose answer holds m objects of its own is
      registered by the decoder as number k + m, if nothing inside is decoded to nil; one that is itself
      decoded to nil is not registered at all. */
  lemma HookedTableSlot(env: Env, cb: Code, p: Code, st: State)
    requires Build(env, CHook(cb, p), st).Built? && |st.marks| == |st.seen| == st.entered
    ensures var r := Build(env, CHook(cb, p), st);
            var k, m := st.entered + 1, Count(cb) + Count(p);
            && (r.st.nils == st.nils ==>
                  && |r.st.seen| == |r.st.marks| == k + m
                  && r.st.seen[k + m - 1] == r.v && r.st.marks[k + m - 1] == k)
            && (r.v == Nil ==> |r.st.seen| < k + m && r.st.nils > st.nils)
  {
    var r := Build(env, CHook(cb, p), st);
    if r.st.nils == st.nils {
      BuildMarks(env, CHook(cb, p), st, r);
    }
    NilNotRegistered(env, cb, p, st, r);
  }

  lemma NilNotRegistered(env: Env, cb: Code, p: Code, st: State, r: Built<Value>)
    requires r == BuildHooked(env, cb, p, st) && r.Built?
    ensures r.v == Nil ==> r.st.nils > st.nils
    ensures r.v != Nil ==> |r.st.seen| > 0 && r.st.seen[|r.st.seen| - 1] == r.v
  {
    var st0 := st.(entered := st.entered + 1);
    var b := BuildTwo(env, cb, p, st0);
    AllocAllKeeps(b.st, env.call(b.st.heap, FindDecoder(env, b.v.0), b.v.1));
  }
}
