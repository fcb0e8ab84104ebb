/** Only what can be reached from a tuple matters to the serializer: the rest of the heap may be anything. */
module Live {
  import opened LuaHeap
  import opened Wire
  import opened Encoder
  import opened EncoderReach

  /** What the serializer sees of an object: of a hooked table, only the hook. */
  function Visible(o: Obj): Obj
  {
    if o.TableObj? && o.hook.Codec? then TableObj([], o.hook) else o
  }

  /** The part of the heap that can be reached from the tuple. */
  ghost function LivePart(h: Heap, vs: seq<Value>): Heap
  {
    map id | id in h && Reachable(h, vs, ValueOf(h, id)) :: Visible(h[id])
  }

  /** `g` is part of `h`, as the serializer sees it. */
  predicate Part(g: Heap, h: Heap)
  {
    forall id :: id in g ==> id in h && g[id] == Visible(h[id])
  }

  // Reaching further

  lemma ReachesAppend(h: Heap, v: Value, u: Value, w: Value)
    requires Reaches(h, v, u) && Refers(h, u) && w in Children(h, u) && Refers(h, w)
    ensures Reaches(h, v, w)
  {
    var p :| Path(h, p) && p[0] == v && p[|p| - 1] == u;
    var q := p + [w];
    forall i | 0 <= i < |q| - 1 ensures q[i + 1] in Children(h, q[i]) {
      if i < |p| - 1 { assert q[i] == p[i] && q[i + 1] == p[i + 1]; }
    }
    assert Path(h, q) && q[0] == v && q[|q| - 1] == w;
  }

  lemma ReachableChild(h: Heap, vs: seq<Value>, u: Value, w: Value)
    requires Reachable(h, vs, u) && Refers(h, u) && w in Children(h, u) && Refers(h, w)
    ensures Reachable(h, vs, w)
  {
    var v :| v in (set i | 0 <= i < |vs| :: vs[i]) && Reaches(h, v, u);
    ReachesAppend(h, v, u, w);
  }

  lemma LiveRefers(h: Heap, vs: seq<Value>, w: Value)
    requires Reachable(h, vs, w) && Refers(h, w)
    ensures Refers(LivePart(h, vs), w)
  {
  }

  lemma ChildLive(h: Heap, vs: seq<Value>, id: Id, w: Value)
    requires id in LivePart(h, vs) && w in Children(h, ValueOf(h, id)) && Refers(h, w)
    ensures Refers(LivePart(h, vs), w)
  {
    ReachableChild(h, vs, ValueOf(h, id), w);
    LiveRefers(h, vs, w);
  }

  lemma LiveObjOk(h: Heap, vs: seq<Value>, id: Id)
    requires WellFormed(h) && id in LivePart(h, vs)
    ensures ObjOk(LivePart(h, vs), id, LivePart(h, vs)[id])
  {
    var g, o := LivePart(h, vs), h[id];
    assert ObjOk(h, id, o);
    match o
    case TableObj(es, k) =>
      if k.Codec? {
        ChildLive(h, vs, id, k.cb);
        ChildLive(h, vs, id, k.payload);
      } else {
        forall i | 0 <= i < |es| ensures Refers(g, es[i].key) && Refers(g, es[i].val) {
          ChildLive(h, vs, id, es[i].key);
          ChildLive(h, vs, id, es[i].val);
        }
      }
    case LuaFunc(_, ups) =>
      forall i | 0 <= i < |ups| ensures Refers(g, ups[i]) { ChildLive(h, vs, id, ups[i]); }
    case CFunc =>
    case UserObj(k) =>
      if k.Codec? {
        ChildLive(h, vs, id, k.cb);
        ChildLive(h, vs, id, k.payload);
      }
  }

  /** The live part is a heap of its own, and the tuple is over it. */
  lemma LiveWellFormed(h: Heap, vs: seq<Value>)
    requires WellFormed(h) && TupleRefers(h, vs)
    ensures WellFormed(LivePart(h, vs)) && TupleRefers(LivePart(h, vs), vs) && Part(LivePart(h, vs), h)
  {
    var g := LivePart(h, vs);
    forall id | id in g ensures ObjOk(g, id, g[id]) { LiveObjOk(h, vs, id); }
    forall i | 0 <= i < |vs| ensures Refers(g, vs[i]) {
      ReachesSelf(h, vs[i]);
      assert vs[i] in (set j | 0 <= j < |vs| :: vs[j]);
      LiveRefers(h, vs, vs[i]);
    }
  }

  // The walk over a part

  lemma {:induction false} WalkSame(g: Heap, h: Heap, v: Value, seen: Seen, left: set<Id>)
    requires WellFormed(g) && WellFormed(h) && Part(g, h) && Refers(g, v) && Unmet(g, seen) <= left
    ensures Refers(h, v) && WalkValue(g, v, seen) == WalkValue(h, v, seen)
    decreases left, 0, Rank(v), 1
  {
    match v
    case Table(id) => if id !in seen { TableSame(g, h, id, seen, left); }
    case Func(id) => if id !in seen && Accepts(g, v) { FunctionSame(g, h, id, seen, left); }
    case User(id) =>
      assert ObjOk(g, id, g[id]) && ObjOk(h, id, h[id]);
      var k := g[id].hook;
      if HookOk(k) { TwoSame(g, h, k.cb, k.payload, seen, left); }
    case _ =>
  }

  lemma {:induction false} TableSame(g: Heap, h: Heap, id: Id, seen: Seen, left: set<Id>)
    requires WellFormed(g) && WellFormed(h) && Part(g, h) && Refers(g, Table(id)) && id !in seen
    requires Unmet(g, seen) <= left
    ensures Refers(h, Table(id)) && WalkTable(g, id, seen) == WalkTable(h, id, seen)
    decreases left, 0, 0, 0
  {
    assert ObjOk(g, id, g[id]) && ObjOk(h, id, h[id]);
    Shrinks(g, seen, id);
    var k, s := g[id].hook, Register(seen, id);
    if k.NoHook? {
      EntriesSame(g, h, g[id].entries, s, Unmet(g, s));
    } else if HookOk(k) {
      TwoSame(g, h, k.cb, k.payload, s, Unmet(g, s));
    }
  }

  lemma {:induction false} FunctionSame(g: Heap, h: Heap, id: Id, seen: Seen, left: set<Id>)
    requires WellFormed(g) && WellFormed(h) && Part(g, h) && Refers(g, Func(id)) && Accepts(g, Func(id)) && id !in seen
    requires Unmet(g, seen) <= left
    ensures Refers(h, Func(id)) && Accepts(h, Func(id)) && WalkFunction(g, id, seen) == WalkFunction(h, id, seen)
    decreases left, 0, 0, 0
  {
    assert ObjOk(g, id, g[id]) && ObjOk(h, id, h[id]);
    Shrinks(g, seen, id);
    EntriesSame(g, h, UpEntries(g[id].ups), Register(seen, id), Unmet(g, Register(seen, id)));
  }

  lemma {:induction false} TwoSame(g: Heap, h: Heap, a: Value, b: Value, seen: Seen, left: set<Id>)
    requires WellFormed(g) && WellFormed(h) && Part(g, h) && Refers(g, a) && Refers(g, b) && Unmet(g, seen) <= left
    ensures Refers(h, a) && Refers(h, b) && WalkTwo(g, a, b, seen) == WalkTwo(h, a, b, seen)
    decreases left, 0, Rank(a) + Rank(b) + 1, 0
  {
    WalkSame(g, h, a, seen, left);
    var ra := WalkValue(g, a, seen);
    if ra.Walked? {
      StaysMet(g, seen, ra.seen);
      WalkSame(g, h, b, ra.seen, left);
    }
    TwoSteps(g, h, a, b, seen, ra);
  }

  lemma TwoSteps(g: Heap, h: Heap, a: Value, b: Value, seen: Seen, ra: Walk<Code>)
    requires WellFormed(g) && WellFormed(h) && Refers(g, a) && Refers(g, b) && Refers(h, a) && Refers(h, b)
    requires ra == WalkValue(g, a, seen) == WalkValue(h, a, seen)
    requires ra.Walked? ==> WalkValue(g, b, ra.seen) == WalkValue(h, b, ra.seen)
    ensures WalkTwo(g, a, b, seen) == WalkTwo(h, a, b, seen)
  {
  }

  lemma {:induction false} EntriesSame(g: Heap, h: Heap, es: seq<Entry>, seen: Seen, left: set<Id>)
    requires WellFormed(g) && WellFormed(h) && Part(g, h) && EntriesRefer(g, es) && Unmet(g, seen) <= left
    ensures EntriesRefer(h, es) && WalkEntries(g, es, seen) == WalkEntries(h, es, seen)
    decreases left, 1, |es|
  {
    assert EntriesRefer(h, es);
    if es != [] {
      TwoSame(g, h, es[0].key, es[0].val, seen, left);
      var two := WalkTwo(g, es[0].key, es[0].val, seen);
      if two.Walked? {
        StaysMet(g, seen, two.seen);
        EntriesSame(g, h, es[1..], two.seen, left);
      }
    }
  }

  lemma {:induction false} TupleSame(g: Heap, h: Heap, vs: seq<Value>, seen: Seen)
    requires WellFormed(g) && WellFormed(h) && Part(g, h) && TupleRefers(g, vs)
    ensures TupleRefers(h, vs) && WalkTuple(g, vs, seen) == WalkTuple(h, vs, seen)
  {
    assert TupleRefers(h, vs);
    if vs != [] {
      WalkSame(g, h, vs[0], seen, Unmet(g, seen));
      var one := WalkValue(g, vs[0], seen);
      if one.Walked? { TupleSame(g, h, vs[1..], one.seen); }
    }
  }

  /** Encoding over the whole heap is encoding over what can be reached. */
  lemma OnlyLiveMatters(h: Heap, vs: seq<Value>)
    requires WellFormed(h) && TupleRefers(h, vs)
    ensures WellFormed(LivePart(h, vs)) && TupleRefers(LivePart(h, vs), vs)
    ensures WalkTuple(LivePart(h, vs), vs, []) == WalkTuple(h, vs, [])
  {
    LiveWellFormed(h, vs);
    TupleSame(LivePart(h, vs), h, vs, []);
  }
}
