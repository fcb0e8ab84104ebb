/** The reading side of src/luv_codec.c:273-412: from code trees to values in a heap. */
module Decoder {
  import opened Uleb128
  import opened LuaHeap
  import opened Wire

  /** What calling a decoder hook does: it raises an error, or it returns a value and may
      have made new objects, numbered from the next free one on. */
  datatype Reply = Raised | Returned(v: Value, made: seq<Obj>)

  /** The Lua state decoded into: where decoders are looked up, and what calling one does. */
  datatype Env = Env(registry: map<seq<byte>, Value>, globals: map<seq<byte>, Value>,
                     call: (Heap, Value, Value) -> Reply)

  /** The decoder's state. `seen` lists what it has registered. `entered` and `marks` record, for
      comparison with the encoder, how many tables and functions it has started on and, for each
      registered value, which of these it was; `nils` counts the tables for which a hook answered
      nil, and `missed` the references to numbers not registered. */
  datatype State = State(heap: Heap, next: Id, seen: seq<Value>, entered: nat, marks: seq<nat>, nils: nat, missed: nat)

  datatype Built<T> = Failed | Built(v: T, st: State)

  function Alloc(st: State, o: Obj): State { st.(heap := st.heap[st.next := o], next := st.next + 1) }

  function AllocAll(st: State, os: seq<Obj>): State
    decreases |os|
  {
    if os == [] then st else AllocAll(Alloc(st, os[0]), os[1..])
  }

  /** `decoder_seen`, for the object that was the `mark`-th to be started on. Storing a nil leaves the
      list as long as it was. */
  function Register(st: State, v: Value, mark: nat): State
  {
    if v == Nil then st.(nils := st.nils + 1)
    else st.(seen := st.seen + [v], marks := st.marks + [mark])
  }

  /** From `a` to `b`, `n` tables and functions were started on, and all of them registered but those
      for which a hook answered nil. */
  predicate Counted(a: State, b: State, n: nat)
  {
    && b.entered == a.entered + n && a.nils <= b.nils && a.missed <= b.missed
    && |b.seen| + b.nils == |a.seen| + a.nils + n
    && |b.marks| + b.nils == |a.marks| + a.nils + n
  }

  /** `find_decoder`: the registry first, then the globals. A name found in neither stays. */
  function FindDecoder(env: Env, cb: Value): Value
  {
    if !cb.Str? then cb
    else if cb.s in env.registry && env.registry[cb.s] != Nil then env.registry[cb.s]
    else if cb.s in env.globals && env.globals[cb.s] != Nil then env.globals[cb.s]
    else cb
  }

  /** What a name stands for: a value of the registry, or one of the globals where the registry has none. */
  predicate Names(env: Env, name: seq<byte>, v: Value)
  {
    v != Nil
    && ((name in env.registry && env.registry[name] == v)
        || ((name in env.registry ==> env.registry[name] == Nil) && name in env.globals && env.globals[name] == v))
  }

  /** `d` is the function that callback `cb` stands for: `cb` itself, or the function of that name. */
  predicate DecoderOf(env: Env, cb: Value, d: Value)
  {
    d.Func? && (cb == d || (cb.Str? && Names(env, cb.s, d)))
  }

  lemma FindsExactly(env: Env, cb: Value, d: Value)
    ensures DecoderOf(env, cb, d) <==> d.Func? && FindDecoder(env, cb) == d
  {
  }

  /** Call a decoder hook on its payload; anything but a function cannot be called. */
  function CallHook(env: Env, cb: Value, payload: Value, st: State): Built<Value>
  {
    var f := FindDecoder(env, cb);
    if !f.Func? then Failed
    else
      match env.call(st.heap, f, payload)
      case Raised => Failed
      case Returned(v, made) => Built(v, AllocAll(st, made))
  }

  /** `lua_rawget` on the pairs of a table. */
  function Lookup(es: seq<Entry>, k: Value): Value
  {
    if es == [] then Nil else if es[0].key == k then es[0].val else Lookup(es[1..], k)
  }

  /** `lua_settable`: overwrite, append, or delete when the value is nil. */
  function Store(es: seq<Entry>, k: Value, v: Value): seq<Entry>
  {
    if es == [] then if v == Nil then [] else [Entry(k, v)]
    else if es[0].key == k then if v == Nil then es[1..] else [Entry(k, v)] + es[1..]
    else [es[0]] + Store(es[1..], k, v)
  }

  /** The values at the given keys, up to the first that is missing. */
  function ValuesAt(es: seq<Entry>, keys: seq<Value>): seq<Value>
  {
    if keys == [] || Lookup(es, keys[0]) == Nil then []
    else [Lookup(es, keys[0])] + ValuesAt(es, keys[1..])
  }

  /** The upvalues in a table: its length, then its values at indices 1 up to that. */
  function Upvalues(es: seq<Entry>): seq<Value>
  {
    ValuesAt(es, Indices(if |es| <= MAXUPS then |es| else MAXUPS))
  }

  /** All objects are numbered below `next`. */
  predicate Tidy(st: State) { forall x :: x in st.heap ==> x < st.next }

  /** Decoding adds to what is there and changes no object but, if given, the table being filled. */
  predicate Grows(a: State, b: State, filled: set<Id>)
  {
    && Tidy(b) && a.next <= b.next && a.seen <= b.seen && a.marks <= b.marks
    && (forall x :: x in a.heap ==> x in b.heap)
    && (forall x :: x in a.heap && x !in filled ==> b.heap[x] == a.heap[x])
    && (forall x :: x in filled && x in a.heap && a.heap[x].TableObj? ==> b.heap[x].TableObj?)
  }

  lemma {:induction false} AllocAllGrows(st: State, os: seq<Obj>)
    requires Tidy(st)
    ensures Grows(st, AllocAll(st, os), {})
    decreases |os|
  {
    if os != [] {
      AllocAllGrows(Alloc(st, os[0]), os[1..]);
    }
  }

  /** New objects are numbered from the next free number on; nothing else changes. */
  lemma {:induction false} AllocAllAt(st: State, os: seq<Obj>)
    requires Tidy(st)
    ensures var t := AllocAll(st, os);
            && t.next == st.next + |os|
            && (forall x :: x in t.heap <==> x in st.heap || st.next <= x < t.next)
            && (forall x :: x in st.heap ==> t.heap[x] == st.heap[x])
            && forall i :: 0 <= i < |os| ==> t.heap[st.next + i] == os[i]
    decreases |os|
  {
    if os != [] {
      var u := Alloc(st, os[0]);
      AllocAllAt(u, os[1..]);
      forall i | 0 <= i < |os| ensures AllocAll(st, os).heap[st.next + i] == os[i] {
        if i > 0 { assert AllocAll(u, os[1..]).heap[u.next + (i - 1)] == os[1..][i - 1]; }
      }
    }
  }

  lemma GrowsTrans(a: State, b: State, c: State, f: set<Id>)
    requires Grows(a, b, f) && Grows(b, c, f)
    ensures Grows(a, c, f)
  {
  }

  /** `decode_value` on an already parsed value. */
  function Build(env: Env, c: Code, st: State): (r: Built<Value>)
    ensures r.Built? ==> Counted(st, r.st, Count(c))
    decreases Size(c), 0
  {
    match c
    case CNil => Built(Nil, st)
    case CBool(b) => Built(Bool(b), st)
    case CLight(w) => Built(Light(w), st)
    case CNum(w) => Built(Num(w), st)
    case CStr(s) => Built(Str(s), st)
    case CRef(_, r) => LookUp(r, st)
    case CTab(es) => BuildTable(env, es, st)
    case CFun(code, ups) => BuildFunction(env, code, ups, st)
    case CHook(cb, p) => BuildHooked(env, cb, p, st)
    case CUser(cb, p) => BuildUser(env, cb, p, st)
  }

  /** `lua_rawgeti` on what is registered. */
  function LookUp(r: nat, st: State): Built<Value>
  {
    if 1 <= r <= |st.seen| then Built(st.seen[r - 1], st) else Built(Nil, st.(missed := st.missed + 1))
  }

  /** Make a table or function `o` and register it as `v`, before anything inside it is read. */
  function Enter(st: State, o: Obj, v: Value): State
  {
    Alloc(st, o).(seen := st.seen + [v], marks := st.marks + [st.entered + 1], entered := st.entered + 1)
  }

  /** A plain table is registered before its pairs are read. */
  function BuildTable(env: Env, es: Codes, st: State): (r: Built<Value>)
    ensures r.Built? ==>
              && r.v == Table(st.next)
              && Counted(st, r.st, 1 + CountEntries(es))
    decreases SizeEntries(es), 1
  {
    var t := Table(st.next);
    match BuildEntries(env, es, st.next, Enter(st, TableObj([], NoHook), t))
    case Failed => Failed
    case Built(_, st2) => Built(t, st2)
  }

  /** A function is registered before its upvalues are read into a table of their own. */
  function BuildFunction(env: Env, code: seq<byte>, ups: Codes, st: State): (r: Built<Value>)
    ensures r.Built? ==>
              && r.v == Func(st.next)
              && Counted(st, r.st, 1 + CountEntries(ups))
    decreases SizeEntries(ups), 1
  {
    var f := Func(st.next);
    var st1 := Enter(st, LuaFunc(code, []), f);
    var temp := st1.next;
    match BuildEntries(env, ups, temp, Alloc(st1, TableObj([], NoHook)))
    case Failed => Failed
    case Built(_, st2) =>
      if temp in st2.heap && st2.heap[temp].TableObj? then
        Built(f, st2.(heap := st2.heap[st.next := LuaFunc(code, Upvalues(st2.heap[temp].entries))]))
      else Failed
  }

  /** A hooked table is registered after its hook and payload are read and the hook is called. */
  function BuildHooked(env: Env, cb: Code, p: Code, st: State): (r: Built<Value>)
    ensures r.Built? ==> Counted(st, r.st, Count(cb) + Count(p) + 1)
    decreases Size(cb) + Size(p), 2
  {
    match BuildTwo(env, cb, p, st.(entered := st.entered + 1))
    case Failed => Failed
    case Built((f, arg), st1) =>
      AllocAllKeeps(st1, env.call(st1.heap, FindDecoder(env, f), arg));
      match CallHook(env, f, arg, st1)
      case Failed => Failed
      case Built(v, st2) => Built(v, Register(st2, v, st.entered + 1))
  }

  /** Userdata is never registered. */
  function BuildUser(env: Env, cb: Code, p: Code, st: State): (r: Built<Value>)
    ensures r.Built? ==> Counted(st, r.st, Count(cb) + Count(p))
    decreases Size(cb) + Size(p), 2
  {
    match BuildTwo(env, cb, p, st)
    case Failed => Failed
    case Built((f, arg), st1) =>
      AllocAllKeeps(st1, env.call(st1.heap, FindDecoder(env, f), arg));
      CallHook(env, f, arg, st1)
  }

  lemma AllocAllKeeps(st: State, r: Reply)
    ensures r.Returned? ==>
              var t := AllocAll(st, r.made);
              && t.seen == st.seen && t.marks == st.marks && t.entered == st.entered
              && t.nils == st.nils && t.missed == st.missed
  {
    if r.Returned? { AllocAllSame(st, r.made); }
  }

  lemma {:induction false} AllocAllSame(st: State, os: seq<Obj>)
    ensures var t := AllocAll(st, os);
            && t.seen == st.seen && t.marks == st.marks && t.entered == st.entered
              && t.nils == st.nils && t.missed == st.missed
    decreases |os|
  {
    if os != [] { AllocAllSame(Alloc(st, os[0]), os[1..]); }
  }

  function BuildTwo(env: Env, a: Code, b: Code, st: State): (r: Built<(Value, Value)>)
    ensures r.Built? ==> Counted(st, r.st, Count(a) + Count(b))
    decreases Size(a) + Size(b), 1
  {
    match Build(env, a, st)
    case Failed => Failed
    case Built(va, st1) =>
      match Build(env, b, st1) case Failed => Failed case Built(vb, st2) => Built((va, vb), st2)
  }

  /** Two values, one after the other, when no hook answers nil. */
  lemma TwoBuilt(env: Env, a: Code, b: Code, st: State, r: Built<(Value, Value)>)
    returns (ra: Built<Value>, rb: Built<Value>)
    requires r == BuildTwo(env, a, b, st) && r.Built? && r.st.nils == st.nils
    ensures ra == Build(env, a, st) && ra.Built? && rb == Build(env, b, ra.st) && rb.Built? && r.st == rb.st
    ensures ra.st.nils == st.nils && rb.st.nils == ra.st.nils && st.missed <= ra.st.missed <= rb.st.missed
    ensures ra.st.entered == st.entered + Count(a) && |ra.st.seen| == |st.seen| + Count(a)
  {
    ra := Build(env, a, st);
    rb := Build(env, b, ra.st);
  }

  /** `decode_table`: store pair after pair into table `t`. */
  function BuildEntries(env: Env, es: Codes, t: Id, st: State): (r: Built<()>)
    ensures r.Built? ==> Counted(st, r.st, CountEntries(es))
    decreases SizeEntries(es), 0
  {
    match es
    case Done => Built((), st)
    case Pair(k, v, rest) =>
      match BuildTwo(env, k, v, st)
      case Failed => Failed
      case Built((key, val), st1) =>
        if key != Nil && t in st1.heap && st1.heap[t].TableObj? then
          BuildEntries(env, rest, t, StorePair(st1, t, key, val))
        else Failed
  }

  function StorePair(st: State, t: Id, key: Value, val: Value): State
    requires t in st.heap && st.heap[t].TableObj?
  {
    st.(heap := st.heap[t := st.heap[t].(entries := Store(st.heap[t].entries, key, val))])
  }
}
