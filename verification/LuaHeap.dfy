/** The part of a Lua state the serializer sees: values, the objects they refer to, and
    which objects can be reached from which. */
module LuaHeap {
  import opened Uleb128

  /** The memory image of a `lua_Number` or of a pointer: eight bytes. */
  type Word = w: seq<byte> | |w| == 8 witness [0, 0, 0, 0, 0, 0, 0, 0]

  type Id = nat

  /** A Lua value. Tables, functions, userdata and coroutines are references. */
  datatype Value =
    | Nil
    | Bool(b: bool)
    | Light(ptr: Word)
    | Num(n: Word)
    | Str(s: seq<byte>)
    | Table(id: Id)
    | Func(id: Id)
    | User(id: Id)
    | Thread(id: Id)

  datatype Entry = Entry(key: Value, val: Value)

  /** What the `__codec` field of an object's metatable yields when it is called. */
  datatype Hook = NoHook | Codec(cb: Value, payload: Value)

  /** `entries` is in the order in which `lua_next` yields them. */
  datatype Obj =
    | TableObj(entries: seq<Entry>, hook: Hook)
    | LuaFunc(code: seq<byte>, ups: seq<Value>)
    | CFunc
    | UserObj(hook: Hook)

  type Heap = map<Id, Obj>

  /** The largest number of upvalues of a function (`LUAI_MAXUPVALUES`). */
  const MAXUPS: nat := 60

  /** `v` names an object of its own kind, if it names one. */
  predicate Refers(h: Heap, v: Value)
  {
    match v
    case Table(id) => id in h && h[id].TableObj?
    case Func(id) => id in h && (h[id].LuaFunc? || h[id].CFunc?)
    case User(id) => id in h && h[id].UserObj?
    case _ => true
  }

  predicate HookRefers(h: Heap, k: Hook)
  {
    k.Codec? ==> Refers(h, k.cb) && Refers(h, k.payload)
  }

  /** What Lua itself guarantees of the pairs of a table. */
  predicate Pairs(h: Heap, es: seq<Entry>)
  {
    && (forall i :: 0 <= i < |es| ==>
          && Refers(h, es[i].key) && es[i].key != Nil
          && Refers(h, es[i].val) && es[i].val != Nil)
    && (forall i, j :: 0 <= i < j < |es| ==> es[i].key != es[j].key)
  }

  /** The payload of a userdata hook is userdata of a smaller number, if userdata at all, so
      that calling hooks on what hooks return comes to an end. */
  predicate Descends(id: Id, k: Hook)
  {
    k.Codec? && k.payload.User? ==> k.payload.id < id
  }

  predicate ObjOk(h: Heap, id: Id, o: Obj)
  {
    match o
    case TableObj(es, k) => Pairs(h, es) && HookRefers(h, k)
    case LuaFunc(_, ups) => |ups| <= MAXUPS && forall i :: 0 <= i < |ups| ==> Refers(h, ups[i])
    case CFunc => true
    case UserObj(k) => HookRefers(h, k) && Descends(id, k)
  }

  predicate WellFormed(h: Heap)
  {
    forall id :: id in h ==> ObjOk(h, id, h[id])
  }

  /** The value that refers to object `id`. */
  function ValueOf(h: Heap, id: Id): Value
    requires id in h
  {
    match h[id]
    case TableObj(_, _) => Table(id)
    case LuaFunc(_, _) => Func(id)
    case CFunc => Func(id)
    case UserObj(_) => User(id)
  }

  /** The values the serializer looks at when it meets `v`. */
  function Children(h: Heap, v: Value): (vs: set<Value>)
    requires Refers(h, v)
  {
    match v
    case Table(id) =>
      if h[id].hook.Codec? then {h[id].hook.cb, h[id].hook.payload}
      else (set i | 0 <= i < |h[id].entries| :: h[id].entries[i].key)
           + (set i | 0 <= i < |h[id].entries| :: h[id].entries[i].val)
    case Func(id) =>
      if h[id].LuaFunc? then set i | 0 <= i < |h[id].ups| :: h[id].ups[i] else {}
    case User(id) =>
      if h[id].hook.Codec? then {h[id].hook.cb, h[id].hook.payload} else {}
    case _ => {}
  }

  /** `p` leads from its first value to its last by steps from a value to one of its children. */
  ghost predicate Path(h: Heap, p: seq<Value>)
  {
    && |p| > 0
    && (forall i :: 0 <= i < |p| ==> Refers(h, p[i]))
    && (forall i :: 0 <= i < |p| - 1 ==> p[i + 1] in Children(h, p[i]))
  }

  lemma PathStep(h: Heap, p: seq<Value>, i: nat)
    requires Path(h, p) && i < |p| - 1
    ensures p[i + 1] in Children(h, p[i])
  {
  }

  ghost predicate Reaches(h: Heap, v: Value, w: Value)
  {
    exists p :: Path(h, p) && p[0] == v && p[|p| - 1] == w
  }

  lemma ReachesSelf(h: Heap, v: Value)
    requires Refers(h, v)
    ensures Reaches(h, v, v)
  {
    assert Path(h, [v]);
    assert [v][0] == v && [v][|[v]| - 1] == v;
  }

  lemma ReachesStep(h: Heap, v: Value, u: Value, w: Value)
    requires Refers(h, v) && u in Children(h, v) && Reaches(h, u, w)
    ensures Reaches(h, v, w)
  {
    var p :| Path(h, p) && p[0] == u && p[|p| - 1] == w;
    var q := [v] + p;
    forall i | 0 <= i < |q| - 1
      ensures q[i + 1] in Children(h, q[i])
    {
      if i > 0 { assert q[i] == p[i - 1] && q[i + 1] == p[i]; }
    }
    assert Path(h, q) && q[0] == v && q[|q| - 1] == w;
  }

  /** The double-precision image, low byte first, of an array index: zeros, then the top of the
      fraction, then the exponent. */
  function IndexNumber(i: nat): (w: Word)
    requires 1 <= i <= MAXUPS
  {
    if i == 1 then [0, 0, 0, 0, 0, 0, 240, 63]
    else if i < 4 then [0, 0, 0, 0, 0, 0, 8 * (i - 2), 64]
    else if i < 8 then [0, 0, 0, 0, 0, 0, 16 + 4 * (i - 4), 64]
    else if i < 16 then [0, 0, 0, 0, 0, 0, 32 + 2 * (i - 8), 64]
    else if i < 32 then [0, 0, 0, 0, 0, 0, 32 + i, 64]
    else [0, 0, 0, 0, 0, 128 * (i % 2), 48 + i / 2, 64]
  }

  /** 4096 times the value of a double from 1 to 63 whose fraction has only its top twelve bits set. */
  function SmallDouble(w: Word): nat
    requires w[7] == 63 || w[7] == 64
  {
    var high: int, mid: int, low: int := w[7], w[6], w[5];
    var exponent := 16 * high + mid / 16 - 1023;
    var scaled := 4096 + 256 * (mid % 16) + low;
    match exponent
    case 0 => scaled
    case 1 => 2 * scaled
    case 2 => 4 * scaled
    case 3 => 8 * scaled
    case 4 => 16 * scaled
    case 5 => 32 * scaled
    case _ => 0
  }

  /** These are the images of the indices. */
  lemma IndexNumberValue(i: nat)
    requires 1 <= i <= MAXUPS
    ensures var w := IndexNumber(i);
            && (w[7] == 63 || w[7] == 64) && SmallDouble(w) == 4096 * i
            && forall j :: 0 <= j < 5 ==> w[j] == 0
  {
  }

  /** Different indices have different images. */
  lemma IndexNumberInjective(i: nat, j: nat)
    requires 1 <= i <= MAXUPS && 1 <= j <= MAXUPS
    requires IndexNumber(i) == IndexNumber(j)
    ensures i == j
  {
    var a, b := IndexNumber(i), IndexNumber(j);
    assert a[5] == b[5] && a[6] == b[6] && a[7] == b[7];
  }

  /** The array indices from 1 to `n`, as keys. */
  function Indices(n: nat): (ks: seq<Value>)
    requires n <= MAXUPS
    ensures |ks| == n && forall i :: 0 <= i < n ==> ks[i].Num?
  {
    if n == 0 then [] else Indices(n - 1) + [Num(IndexNumber(n))]
  }

  lemma {:induction false} IndexAt(n: nat, i: nat)
    requires i < n <= MAXUPS
    ensures Indices(n)[i] == Num(IndexNumber(i + 1))
  {
    if i < n - 1 { IndexAt(n - 1, i); }
  }

  lemma IndicesDiffer(n: nat, i: nat, j: nat)
    requires i < j < n <= MAXUPS
    ensures Indices(n)[i] != Indices(n)[j]
  {
    IndexAt(n, i);
    IndexAt(n, j);
    if IndexNumber(i + 1) == IndexNumber(j + 1) { IndexNumberInjective(i + 1, j + 1); }
  }

  /** Different indices are different keys. */
  lemma IndicesDistinct(n: nat)
    requires n <= MAXUPS
    ensures forall i, j :: 0 <= i < j < n ==> Indices(n)[i] != Indices(n)[j]
  {
    forall i, j | 0 <= i < j < n ensures Indices(n)[i] != Indices(n)[j] { IndicesDiffer(n, i, j); }
  }

  /** The table `encode_value` fills with the upvalues of a function. */
  function UpEntries(ups: seq<Value>): (es: seq<Entry>)
    requires |ups| <= MAXUPS
    ensures |es| == |ups|
    ensures forall i :: 0 <= i < |es| ==> es[i].key == Indices(|ups|)[i] && es[i].key.Num? && es[i].val == ups[i]
  {
    var keys := Indices(|ups|);
    seq(|ups|, i requires 0 <= i < |ups| => Entry(keys[i], ups[i]))
  }

  lemma UpEntriesPairs(h: Heap, ups: seq<Value>)
    requires |ups| <= MAXUPS
    requires forall i :: 0 <= i < |ups| ==> Refers(h, ups[i]) && ups[i] != Nil
    ensures Pairs(h, UpEntries(ups))
  {
    IndicesDistinct(|ups|);
  }
}
