/** The graph walk of src/luv_codec.c:111-271: from values to code trees. */
module Encoder {
  import opened LuaHeap
  import opened Wire

  /** The tables and functions met so far; the number of an object is its position, from 1. */
  type Seen = seq<Id>

  function NumberOf(seen: Seen, id: Id): (n: nat)
    requires id in seen
    ensures 1 <= n <= |seen| && seen[n - 1] == id && forall j :: 0 <= j < n - 1 ==> seen[j] != id
  {
    if seen[0] == id then 1
    else
      assert seen == [seen[0]] + seen[1..];
      1 + NumberOf(seen[1..], id)
  }

  /** A number once given stays. */
  lemma NumberStays(a: Seen, b: Seen, id: Id)
    requires id in a && a <= b
    ensures id in b && NumberOf(b, id) == NumberOf(a, id)
  {
    var n := NumberOf(a, id);
    assert b[n - 1] == id && forall j :: 0 <= j < n - 1 ==> b[j] == a[j];
  }

  function Elements(seen: Seen): set<Id> { set id | id in seen }

  /** A walk ends with a code and the numbers given, or with the value that raised an error. */
  datatype Walk<T> = Error(at: Value) | Walked(code: T, seen: Seen)

  predicate HookOk(k: Hook) { k.Codec? && (k.cb.Func? || k.cb.Str?) }

  /** The serializer accepts `v` itself, whatever it may say of the values inside. */
  predicate Accepts(h: Heap, v: Value)
    requires Refers(h, v)
  {
    match v
    case Table(id) => h[id].hook.Codec? ==> HookOk(h[id].hook)
    case Func(id) => h[id].LuaFunc? && forall i :: 0 <= i < |h[id].ups| ==> h[id].ups[i] != Nil
    case User(id) => HookOk(h[id].hook)
    case Thread(_) => false
    case _ => true
  }

  function Rank(v: Value): nat { if v.User? then 2 * v.id + 2 else 0 }

  /** Give `id` the next number (`encoder_seen`). */
  function Register(seen: Seen, id: Id): Seen { seen + [id] }

  /** The objects not yet met. */
  function Unmet(h: Heap, seen: Seen): set<Id> { h.Keys - Elements(seen) }

  /** Registering an object uses up one of the finitely many not yet met. */
  lemma Shrinks(h: Heap, seen: Seen, id: Id)
    requires id in h && id !in seen
    ensures Unmet(h, Register(seen, id)) < Unmet(h, seen)
  {
    assert id in Unmet(h, seen) && id !in Unmet(h, Register(seen, id));
  }

  lemma StaysMet(h: Heap, a: Seen, b: Seen)
    requires a <= b
    ensures Unmet(h, b) <= Unmet(h, a)
  {
    forall id | id in a ensures id in b {
      var i :| 0 <= i < |a| && a[i] == id;
      assert b[i] == id;
    }
  }

  predicate EntriesRefer(h: Heap, es: seq<Entry>)
  {
    forall i :: 0 <= i < |es| ==> Refers(h, es[i].key) && Refers(h, es[i].val)
  }

  /** `encode_value`. The walk ends because each table or function is entered once and a
      userdata hook leads to smaller userdata. */
  function WalkValue(h: Heap, v: Value, seen: Seen): (r: Walk<Code>)
    requires WellFormed(h) && Refers(h, v)
    ensures r.Walked? ==> seen <= r.seen && |r.seen| == |seen| + Count(r.code)
    decreases Unmet(h, seen), 0, Rank(v), 1
  {
    match v
    case Nil => Walked(CNil, seen)
    case Bool(b) => Walked(CBool(b), seen)
    case Light(w) => Walked(CLight(w), seen)
    case Num(w) => Walked(CNum(w), seen)
    case Str(s) => Walked(CStr(s), seen)
    case Table(id) =>
      if id in seen then Walked(CRef(false, NumberOf(seen, id)), seen) else WalkTable(h, id, seen)
    case Func(id) =>
      if id in seen then Walked(CRef(true, NumberOf(seen, id)), seen)
      else if !Accepts(h, v) then Error(v)
      else WalkFunction(h, id, seen)
    case User(id) => if HookOk(h[id].hook) then WalkUser(h, id, seen) else Error(v)
    case Thread(_) => Error(v)
  }

  /** A table met for the first time. */
  function WalkTable(h: Heap, id: Id, seen: Seen): (r: Walk<Code>)
    requires WellFormed(h) && Refers(h, Table(id)) && id !in seen
    ensures r.Walked? ==> Register(seen, id) <= r.seen && |r.seen| == |seen| + Count(r.code)
    decreases Unmet(h, seen), 0, 0, 0
  {
    assert ObjOk(h, id, h[id]);
    Shrinks(h, seen, id);
    var k := h[id].hook;
    if k.NoHook? then
      match WalkEntries(h, h[id].entries, Register(seen, id))
      case Error(at) => Error(at)
      case Walked(es, s) => Walked(CTab(es), s)
    else if HookOk(k) then
      match WalkTwo(h, k.cb, k.payload, Register(seen, id))
      case Error(at) => Error(at)
      case Walked((cb, p), s) => Walked(CHook(cb, p), s)
    else Error(Table(id))
  }

  /** A Lua function met for the first time: its code and a table of its upvalues. */
  function WalkFunction(h: Heap, id: Id, seen: Seen): (r: Walk<Code>)
    requires WellFormed(h) && Refers(h, Func(id)) && Accepts(h, Func(id)) && id !in seen
    ensures r.Walked? ==> Register(seen, id) <= r.seen && |r.seen| == |seen| + Count(r.code)
    decreases Unmet(h, seen), 0, 0, 0
  {
    assert ObjOk(h, id, h[id]);
    Shrinks(h, seen, id);
    match WalkEntries(h, UpEntries(h[id].ups), Register(seen, id))
    case Error(at) => Error(at)
    case Walked(es, s) => Walked(CFun(h[id].code, es), s)
  }

  /** Userdata: only what its hook answers is written, and no number is given. */
  function WalkUser(h: Heap, id: Id, seen: Seen): (r: Walk<Code>)
    requires WellFormed(h) && Refers(h, User(id)) && HookOk(h[id].hook)
    ensures r.Walked? ==> seen <= r.seen && |r.seen| == |seen| + Count(r.code)
    decreases Unmet(h, seen), 0, Rank(User(id)), 0
  {
    assert ObjOk(h, id, h[id]);
    match WalkTwo(h, h[id].hook.cb, h[id].hook.payload, seen)
    case Error(at) => Error(at)
    case Walked((cb, p), s) => Walked(CUser(cb, p), s)
  }

  /** The callback and the payload a hook answered (`encoder_hook`). */
  function WalkTwo(h: Heap, a: Value, b: Value, seen: Seen): (r: Walk<(Code, Code)>)
    requires WellFormed(h) && Refers(h, a) && Refers(h, b)
    ensures r.Walked? ==> seen <= r.seen && |r.seen| == |seen| + Count(r.code.0) + Count(r.code.1)
    decreases Unmet(h, seen), 0, Rank(a) + Rank(b) + 1, 0
  {
    match WalkValue(h, a, seen)
    case Error(at) => Error(at)
    case Walked(ca, s) =>
      StaysMet(h, seen, s);
      match WalkValue(h, b, s)
      case Error(at) => Error(at)
      case Walked(cb, t) => Walked((ca, cb), t)
  }

  /** `encode_table`. */
  function WalkEntries(h: Heap, es: seq<Entry>, seen: Seen): (r: Walk<Codes>)
    requires WellFormed(h) && EntriesRefer(h, es)
    ensures r.Walked? ==> seen <= r.seen && |r.seen| == |seen| + CountEntries(r.code)
    decreases Unmet(h, seen), 1, |es|
  {
    if es == [] then Walked(Done, seen)
    else
      match WalkTwo(h, es[0].key, es[0].val, seen)
      case Error(at) => Error(at)
      case Walked((k, v), s) =>
        StaysMet(h, seen, s);
        match WalkEntries(h, es[1..], s)
        case Error(at) => Error(at)
        case Walked(rest, t) => Walked(Pair(k, v, rest), t)
  }

  /** One turn of the walk over pairs. */
  lemma WalkEntriesStep(h: Heap, es: seq<Entry>, seen: Seen, r: Walk<Codes>, two: Walk<(Code, Code)>,
                        rest: Walk<Codes>)
    requires WellFormed(h) && EntriesRefer(h, es) && es != [] && r == WalkEntries(h, es, seen) && r.Walked?
    requires two == WalkTwo(h, es[0].key, es[0].val, seen)
    requires two.Walked? ==> rest == WalkEntries(h, es[1..], two.seen)
    ensures two.Walked? && rest.Walked? && r == Walked(Pair(two.code.0, two.code.1, rest.code), rest.seen)
  {
  }

  /** The walk of a function, by that of its upvalues. */
  lemma WalkFunctionStep(h: Heap, id: Id, seen: Seen, r: Walk<Code>, e: Walk<Codes>)
    requires WellFormed(h) && Refers(h, Func(id)) && Accepts(h, Func(id)) && id !in seen
    requires EntriesRefer(h, UpEntries(h[id].ups)) && r == WalkFunction(h, id, seen) && r.Walked?
    requires e == WalkEntries(h, UpEntries(h[id].ups), Register(seen, id))
    ensures e.Walked? && r == Walked(CFun(h[id].code, e.code), e.seen)
  {
  }

  /** The values of a tuple, in order (`luvL_codec_encode`). */
  function WalkTuple(h: Heap, vs: seq<Value>, seen: Seen): (r: Walk<seq<Code>>)
    requires WellFormed(h) && forall i :: 0 <= i < |vs| ==> Refers(h, vs[i])
    ensures r.Walked? ==> seen <= r.seen && |r.code| == |vs|
  {
    if vs == [] then Walked([], seen)
    else
      match WalkValue(h, vs[0], seen)
      case Error(at) => Error(at)
      case Walked(c, s) =>
        match WalkTuple(h, vs[1..], s)
        case Error(at) => Error(at)
        case Walked(cs, t) => Walked([c] + cs, t)
  }
}
