/** Which objects the encoder numbers, and which values it refuses: exactly the reachable
    ones. */
module EncoderReach {
  import opened LuaHeap
  import opened Encoder

  ghost predicate ReachesAny(h: Heap, vs: set<Value>, w: Value)
  {
    exists v :: v in vs && Reaches(h, v, w)
  }

  function EntryValues(es: seq<Entry>): (vs: set<Value>)
    ensures forall i :: 0 <= i < |es| ==> es[i].key in vs && es[i].val in vs
  {
    (set i | 0 <= i < |es| :: es[i].key) + (set i | 0 <= i < |es| :: es[i].val)
  }

  /** What a walk that starts from `vs` may do: refuse a value that can be reached and that the
      serializer does not accept, or number tables and functions that can be reached. */
  ghost predicate Reached<T>(h: Heap, vs: set<Value>, seen: Seen, r: Walk<T>)
  {
    match r
    case Error(at) => Refers(h, at) && !Accepts(h, at) && ReachesAny(h, vs, at)
    case Walked(_, s) =>
      forall id :: id in s && id !in seen ==>
        id in h && !h[id].UserObj? && ReachesAny(h, vs, ValueOf(h, id))
  }

  lemma Widen(h: Heap, vs: set<Value>, ws: set<Value>, w: Value)
    requires ReachesAny(h, vs, w) && vs <= ws
    ensures ReachesAny(h, ws, w)
  {
  }

  /** What the children of `v` reach, `v` reaches. */
  lemma Lift<T>(h: Heap, v: Value, seen: Seen, s: Seen, r: Walk<T>)
    requires Refers(h, v) && Reached(h, Children(h, v), s, r)
    requires r.Walked? ==> forall id :: id in s && id !in seen ==> id in h && !h[id].UserObj? && ValueOf(h, id) == v
    ensures Reached(h, {v}, seen, r)
  {
    forall w | ReachesAny(h, Children(h, v), w)
      ensures ReachesAny(h, {v}, w)
    {
      var u :| u in Children(h, v) && Reaches(h, u, w);
      ReachesStep(h, v, u, w);
    }
    ReachesSelf(h, v);
    assert ReachesAny(h, {v}, v);
  }

  /** Doing one walk after another. */
  lemma Chain<S, T>(h: Heap, vs: set<Value>, ws: set<Value>, seen: Seen, a: Walk<S>, b: Walk<T>)
    requires a.Walked? && Reached(h, vs, seen, a) && Reached(h, ws, a.seen, b)
    ensures Reached(h, vs + ws, seen, b)
  {
  }

  lemma {:induction false} WalkReached(h: Heap, v: Value, seen: Seen, left: set<Id>)
    requires Unmet(h, seen) <= left
    requires WellFormed(h) && Refers(h, v)
    ensures Reached(h, {v}, seen, WalkValue(h, v, seen))
    decreases left, 0, Rank(v), 1
  {
    ReachesSelf(h, v);
    assert ReachesAny(h, {v}, v);
    match v
    case Table(id) => if id !in seen { TableReached(h, id, seen, left); }
    case Func(id) => if id !in seen && Accepts(h, v) { FunctionReached(h, id, seen, left); }
    case User(id) => if Accepts(h, v) { UserReached(h, id, seen, left); }
    case _ =>
  }

  lemma TableReached(h: Heap, id: Id, seen: Seen, left: set<Id>)
    requires Unmet(h, seen) <= left
    requires WellFormed(h) && Refers(h, Table(id)) && id !in seen
    ensures Reached(h, {Table(id)}, seen, WalkTable(h, id, seen))
    decreases left, 0, 0, 0
  {
    var v := Table(id);
    ReachesSelf(h, v);
    assert ReachesAny(h, {v}, v);
    if Accepts(h, v) {
      assert ObjOk(h, id, h[id]);
      Shrinks(h, seen, id);
      var k := h[id].hook;
      if k.Codec? {
        WalkTwoReached(h, k.cb, k.payload, Register(seen, id), Unmet(h, Register(seen, id)));
      } else {
        WalkEntriesReached(h, h[id].entries, Register(seen, id), Unmet(h, Register(seen, id)));
      }
      Lift(h, v, seen, Register(seen, id), WalkTable(h, id, seen));
    }
  }

  lemma FunctionReached(h: Heap, id: Id, seen: Seen, left: set<Id>)
    requires Unmet(h, seen) <= left
    requires WellFormed(h) && Refers(h, Func(id)) && Accepts(h, Func(id)) && id !in seen
    ensures Reached(h, {Func(id)}, seen, WalkFunction(h, id, seen))
    decreases left, 0, 0, 0
  {
    assert ObjOk(h, id, h[id]);
    Shrinks(h, seen, id);
    var r := WalkFunction(h, id, seen);
    WalkEntriesReached(h, UpEntries(h[id].ups), Register(seen, id), Unmet(h, Register(seen, id)));
    UpvaluesOnly(h, Func(id), Register(seen, id), r);
    Lift(h, Func(id), seen, Register(seen, id), r);
  }

  lemma UserReached(h: Heap, id: Id, seen: Seen, left: set<Id>)
    requires Unmet(h, seen) <= left
    requires WellFormed(h) && Refers(h, User(id)) && Accepts(h, User(id))
    ensures Reached(h, {User(id)}, seen, WalkUser(h, id, seen))
    decreases left, 0, Rank(User(id)), 0
  {
    assert ObjOk(h, id, h[id]);
    WalkTwoReached(h, h[id].hook.cb, h[id].hook.payload, seen, left);
    Lift(h, User(id), seen, seen, WalkUser(h, id, seen));
  }

  lemma NumberReachesItself(h: Heap, u: Value, w: Value)
    requires u.Num? && Reaches(h, u, w)
    ensures w == u
  {
    var p :| Path(h, p) && p[0] == u && p[|p| - 1] == w;
    if |p| > 1 {
      PathStep(h, p, 0);
      assert false;
    }
  }

  /** The index numbers of the upvalue table reach nothing else. */
  lemma UpvaluesOnly<T>(h: Heap, v: Value, s: Seen, r: Walk<T>)
    requires WellFormed(h) && v.Func? && Refers(h, v) && h[v.id].LuaFunc? && |h[v.id].ups| <= MAXUPS
    requires Reached(h, EntryValues(UpEntries(h[v.id].ups)), s, r)
    ensures Reached(h, Children(h, v), s, r)
  {
    var es := UpEntries(h[v.id].ups);
    forall w | ReachesAny(h, EntryValues(es), w) && !w.Num?
      ensures ReachesAny(h, Children(h, v), w)
    {
      var u :| u in EntryValues(es) && Reaches(h, u, w);
      var i :| 0 <= i < |es| && (es[i].key == u || es[i].val == u);
      if es[i].val != u { NumberReachesItself(h, u, w); }
    }
  }

  lemma {:induction false} WalkTwoReached(h: Heap, a: Value, b: Value, seen: Seen, left: set<Id>)
    requires Unmet(h, seen) <= left
    requires WellFormed(h) && Refers(h, a) && Refers(h, b)
    ensures Reached(h, {a, b}, seen, WalkTwo(h, a, b, seen))
    decreases left, 0, Rank(a) + Rank(b) + 1, 0
  {
    WalkReached(h, a, seen, left);
    var ra := WalkValue(h, a, seen);
    if ra.Walked? {
      StaysMet(h, seen, ra.seen);
      WalkReached(h, b, ra.seen, left);
      Chain(h, {a}, {b}, seen, ra, WalkValue(h, b, ra.seen));
      assert {a} + {b} == {a, b};
    } else {
      Widen(h, {a}, {a, b}, ra.at);
    }
  }

  lemma {:induction false} WalkEntriesReached(h: Heap, es: seq<Entry>, seen: Seen, left: set<Id>)
    requires Unmet(h, seen) <= left
    requires WellFormed(h) && EntriesRefer(h, es)
    ensures Reached(h, EntryValues(es), seen, WalkEntries(h, es, seen))
    decreases left, 1, |es|
  {
    if es != [] {
      var two := {es[0].key, es[0].val};
      WalkTwoReached(h, es[0].key, es[0].val, seen, left);
      var r := WalkTwo(h, es[0].key, es[0].val, seen);
      if r.Walked? {
        StaysMet(h, seen, r.seen);
        WalkEntriesReached(h, es[1..], r.seen, left);
        Chain(h, two, EntryValues(es[1..]), seen, r, WalkEntries(h, es[1..], r.seen));
        EntryValuesSplit(es);
      } else {
        Widen(h, two, EntryValues(es), r.at);
      }
    }
  }

  lemma EntryValuesSplit(es: seq<Entry>)
    requires es != []
    ensures EntryValues(es) == {es[0].key, es[0].val} + EntryValues(es[1..])
  {
    forall v | v in EntryValues(es)
      ensures v in {es[0].key, es[0].val} + EntryValues(es[1..])
    {
      var i :| 0 <= i < |es| && (es[i].key == v || es[i].val == v);
      if i > 0 { assert es[1..][i - 1] == es[i]; }
    }
    forall v | v in EntryValues(es[1..])
      ensures v in EntryValues(es)
    {
      var i :| 0 <= i < |es[1..]| && (es[1..][i].key == v || es[1..][i].val == v);
      assert es[i + 1] == es[1..][i];
    }
  }

  /** `v` has been dealt with: tables and functions are numbered, what a userdata hook
      answered is dealt with. */
  predicate Covered(h: Heap, seen: Seen, v: Value)
    requires WellFormed(h) && Refers(h, v)
    decreases Rank(v)
  {
    match v
    case Table(id) => id in seen
    case Func(id) => id in seen
    case User(id) =>
      assert ObjOk(h, id, h[id]);
      HookOk(h[id].hook) && Covered(h, seen, h[id].hook.cb) && Covered(h, seen, h[id].hook.payload)
    case Thread(_) => false
    case _ => true
  }

  /** `v` is accepted and everything directly inside it has been dealt with. */
  ghost predicate Settled(h: Heap, seen: Seen, v: Value)
    requires WellFormed(h)
  {
    && Refers(h, v) && Accepts(h, v)
    && forall w :: w in Children(h, v) ==> Refers(h, w) && Covered(h, seen, w)
  }

  /** All numbers given between `a` and `b` went to objects now settled. */
  ghost predicate AllSettled(h: Heap, a: Seen, b: Seen)
    requires WellFormed(h)
  {
    && a <= b
    && forall id :: id in b && id !in a ==> id in h && !h[id].UserObj? && Settled(h, b, ValueOf(h, id))
  }

  lemma {:induction false} CoveredLater(h: Heap, a: Seen, b: Seen, v: Value)
    requires WellFormed(h) && Refers(h, v) && a <= b && Covered(h, a, v)
    ensures Covered(h, b, v)
    decreases Rank(v)
  {
    if v.User? {
      assert ObjOk(h, v.id, h[v.id]);
      CoveredLater(h, a, b, h[v.id].hook.cb);
      CoveredLater(h, a, b, h[v.id].hook.payload);
    }
  }

  lemma SettledChain(h: Heap, a: Seen, b: Seen, c: Seen)
    requires WellFormed(h) && AllSettled(h, a, b) && AllSettled(h, b, c)
    ensures AllSettled(h, a, c)
  {
    forall id | id in c && id !in a
      ensures id in h && !h[id].UserObj? && Settled(h, c, ValueOf(h, id))
    {
      if id in b {
        var v := ValueOf(h, id);
        forall w | w in Children(h, v) ensures Refers(h, w) && Covered(h, c, w) {
          CoveredLater(h, b, c, w);
        }
      }
    }
  }

  lemma {:induction false} WalkSettles(h: Heap, v: Value, seen: Seen, left: set<Id>)
    requires Unmet(h, seen) <= left
    requires WellFormed(h) && Refers(h, v) && WalkValue(h, v, seen).Walked?
    ensures var s := WalkValue(h, v, seen).seen;
            AllSettled(h, seen, s) && Covered(h, s, v)
    decreases left, 0, Rank(v), 1
  {
    match v
    case Table(id) => if id !in seen { TableSettles(h, id, seen, left); }
    case Func(id) => if id !in seen { FunctionSettles(h, id, seen, left); }
    case User(id) =>
      assert ObjOk(h, id, h[id]);
      WalkTwoSettles(h, h[id].hook.cb, h[id].hook.payload, seen, left);
    case _ =>
  }

  /** An object is settled once what is inside it is. */
  lemma SettledObject(h: Heap, seen: Seen, v: Value, s: Seen)
    requires WellFormed(h) && (v.Table? || v.Func?) && Settled(h, s, v)
    requires AllSettled(h, Register(seen, v.id), s)
    ensures AllSettled(h, seen, s) && v.id in s
  {
    var t := Register(seen, v.id);
    assert t[|seen|] == v.id && s[|seen|] == v.id;
    forall id | id in s && id !in seen
      ensures id in h && !h[id].UserObj? && Settled(h, s, ValueOf(h, id))
    {
      if id in t { assert id == v.id; }
    }
  }

  lemma TableSettles(h: Heap, id: Id, seen: Seen, left: set<Id>)
    requires Unmet(h, seen) <= left
    requires WellFormed(h) && Refers(h, Table(id)) && id !in seen && WalkTable(h, id, seen).Walked?
    ensures var s := WalkTable(h, id, seen).seen;
            AllSettled(h, seen, s) && id in s
    decreases left, 0, 0, 0
  {
    assert ObjOk(h, id, h[id]);
    Shrinks(h, seen, id);
    var k := h[id].hook;
    if k.Codec? {
      WalkTwoSettles(h, k.cb, k.payload, Register(seen, id), Unmet(h, Register(seen, id)));
    } else {
      WalkEntriesSettles(h, h[id].entries, Register(seen, id), Unmet(h, Register(seen, id)));
    }
    SettledObject(h, seen, Table(id), WalkTable(h, id, seen).seen);
  }

  lemma FunctionSettles(h: Heap, id: Id, seen: Seen, left: set<Id>)
    requires Unmet(h, seen) <= left
    requires WellFormed(h) && Refers(h, Func(id)) && Accepts(h, Func(id)) && id !in seen
    requires WalkFunction(h, id, seen).Walked?
    ensures var s := WalkFunction(h, id, seen).seen;
            AllSettled(h, seen, s) && id in s
    decreases left, 0, 0, 0
  {
    assert ObjOk(h, id, h[id]);
    Shrinks(h, seen, id);
    var s := WalkFunction(h, id, seen).seen;
    var es := UpEntries(h[id].ups);
    WalkEntriesSettles(h, es, Register(seen, id), Unmet(h, Register(seen, id)));
    forall w | w in Children(h, Func(id)) ensures Refers(h, w) && Covered(h, s, w) {
      var i :| 0 <= i < |h[id].ups| && h[id].ups[i] == w;
      assert es[i].val == w;
    }
    SettledObject(h, seen, Func(id), s);
  }

  lemma {:induction false} WalkTwoSettles(h: Heap, a: Value, b: Value, seen: Seen, left: set<Id>)
    requires Unmet(h, seen) <= left
    requires WellFormed(h) && Refers(h, a) && Refers(h, b) && WalkTwo(h, a, b, seen).Walked?
    ensures var s := WalkTwo(h, a, b, seen).seen;
            AllSettled(h, seen, s) && Covered(h, s, a) && Covered(h, s, b)
    decreases left, 0, Rank(a) + Rank(b) + 1, 0
  {
    WalkSettles(h, a, seen, left);
    var s := WalkValue(h, a, seen).seen;
    StaysMet(h, seen, s);
    WalkSettles(h, b, s, left);
    var t := WalkValue(h, b, s).seen;
    SettledChain(h, seen, s, t);
    CoveredLater(h, s, t, a);
  }

  lemma {:induction false} WalkEntriesSettles(h: Heap, es: seq<Entry>, seen: Seen, left: set<Id>)
    requires Unmet(h, seen) <= left
    requires WellFormed(h) && EntriesRefer(h, es) && WalkEntries(h, es, seen).Walked?
    ensures var s := WalkEntries(h, es, seen).seen;
            && AllSettled(h, seen, s)
            && forall i :: 0 <= i < |es| ==> Covered(h, s, es[i].key) && Covered(h, s, es[i].val)
    decreases left, 1, |es|
  {
    if es != [] {
      WalkTwoSettles(h, es[0].key, es[0].val, seen, left);
      var s := WalkTwo(h, es[0].key, es[0].val, seen).seen;
      StaysMet(h, seen, s);
      WalkEntriesSettles(h, es[1..], s, left);
      var t := WalkEntries(h, es[1..], s).seen;
      SettledChain(h, seen, s, t);
      CoveredLater(h, s, t, es[0].key);
      CoveredLater(h, s, t, es[0].val);
      forall i | 1 <= i < |es| ensures Covered(h, t, es[i].key) && Covered(h, t, es[i].val) {
        assert es[i] == es[1..][i - 1];
      }
    }
  }

  /** Along a path that starts covered, everything is covered and accepted. */
  lemma {:induction false} PathCovered(h: Heap, s: Seen, p: seq<Value>)
    requires WellFormed(h) && Path(h, p) && AllSettled(h, [], s) && Covered(h, s, p[0])
    ensures Covered(h, s, p[|p| - 1]) && Accepts(h, p[|p| - 1])
    decreases |p|
  {
    var v := p[0];
    assert Accepts(h, v);
    if |p| > 1 {
      assert p[0 + 1] in Children(h, v);
      if v.Table? || v.Func? { assert Settled(h, s, v); }
      assert Covered(h, s, p[1]);
      assert Path(h, p[1..]) by {
        forall i | 0 <= i < |p[1..]| - 1 ensures p[1..][i + 1] in Children(h, p[1..][i]) {
          assert p[(i + 1) + 1] in Children(h, p[i + 1]);
        }
      }
      PathCovered(h, s, p[1..]);
    }
  }

  predicate TupleRefers(h: Heap, vs: seq<Value>)
  {
    forall i :: 0 <= i < |vs| ==> Refers(h, vs[i])
  }

  /** A value can be reached from the tuple. */
  ghost predicate Reachable(h: Heap, vs: seq<Value>, w: Value)
  {
    ReachesAny(h, set i | 0 <= i < |vs| :: vs[i], w)
  }

  lemma {:induction false} TupleReached(h: Heap, vs: seq<Value>, seen: Seen)
    requires WellFormed(h) && TupleRefers(h, vs)
    ensures Reached(h, set i | 0 <= i < |vs| :: vs[i], seen, WalkTuple(h, vs, seen))
  {
    if vs != [] {
      var all, tail := set i | 0 <= i < |vs| :: vs[i], set i | 0 <= i < |vs[1..]| :: vs[1..][i];
      assert all == {vs[0]} + tail by {
        forall v | v in all ensures v in {vs[0]} + tail {
          var i :| 0 <= i < |vs| && vs[i] == v;
          if i > 0 { assert vs[1..][i - 1] == v; }
        }
        forall v | v in tail ensures v in all {
          var i :| 0 <= i < |vs[1..]| && vs[1..][i] == v;
          assert vs[i + 1] == v;
        }
      }
      WalkReached(h, vs[0], seen, Unmet(h, seen));
      var r := WalkValue(h, vs[0], seen);
      if r.Walked? {
        TupleReached(h, vs[1..], r.seen);
        Chain(h, {vs[0]}, tail, seen, r, WalkTuple(h, vs[1..], r.seen));
      } else {
        Widen(h, {vs[0]}, all, r.at);
      }
    }
  }

  lemma {:induction false} TupleSettles(h: Heap, vs: seq<Value>, seen: Seen)
    requires WellFormed(h) && TupleRefers(h, vs) && WalkTuple(h, vs, seen).Walked?
    ensures var s := WalkTuple(h, vs, seen).seen;
            AllSettled(h, seen, s) && forall i :: 0 <= i < |vs| ==> Covered(h, s, vs[i])
  {
    if vs != [] {
      WalkSettles(h, vs[0], seen, Unmet(h, seen));
      var s := WalkValue(h, vs[0], seen).seen;
      TupleSettles(h, vs[1..], s);
      var t := WalkTuple(h, vs[1..], s).seen;
      SettledChain(h, seen, s, t);
      CoveredLater(h, s, t, vs[0]);
      forall i | 1 <= i < |vs| ensures Covered(h, t, vs[i]) {
        assert vs[i] == vs[1..][i - 1];
      }
    }
  }

  lemma ReachableCovered(h: Heap, vs: seq<Value>, w: Value)
    requires WellFormed(h) && TupleRefers(h, vs) && WalkTuple(h, vs, []).Walked? && Reachable(h, vs, w)
    ensures Refers(h, w) && Covered(h, WalkTuple(h, vs, []).seen, w) && Accepts(h, w)
  {
    TupleSettles(h, vs, []);
    var v :| v in (set i | 0 <= i < |vs| :: vs[i]) && Reaches(h, v, w);
    var p :| Path(h, p) && p[0] == v && p[|p| - 1] == w;
    PathCovered(h, WalkTuple(h, vs, []).seen, p);
  }

  /** A hook answers with something that is neither a function nor a string as its first value. */
  predicate AnswersBadly(k: Hook)
  {
    k.Codec? && match k.cb case Func(_) => false case Str(_) => false case _ => true
  }

  /** What cannot be serialized: coroutines, C functions, functions with a nil upvalue, userdata without a hook,
      and objects whose hook answers badly. Nothing else is refused. */
  predicate Refused(h: Heap, v: Value)
  {
    match v
    case Thread(_) => true
    case Func(id) =>
      id in h && (h[id].CFunc? || (h[id].LuaFunc? && exists i :: 0 <= i < |h[id].ups| && h[id].ups[i].Nil?))
    case User(id) => id in h && h[id].UserObj? && (h[id].hook.NoHook? || AnswersBadly(h[id].hook))
    case Table(id) => id in h && h[id].TableObj? && AnswersBadly(h[id].hook)
    case _ => false
  }

  lemma RefusedExactly(h: Heap, v: Value)
    requires Refers(h, v)
    ensures Refused(h, v) <==> !Accepts(h, v)
  {
  }

  /** Encoding succeeds exactly when nothing that can be reached is refused; otherwise it stops at such a value. */
  lemma EncodesExactlyAccepted(h: Heap, vs: seq<Value>)
    requires WellFormed(h) && TupleRefers(h, vs)
    ensures var r := WalkTuple(h, vs, []);
            && (r.Walked? <==> forall w :: Reachable(h, vs, w) ==> !Refused(h, w))
            && (r.Error? ==> Reachable(h, vs, r.at) && Refused(h, r.at))
  {
    var r := WalkTuple(h, vs, []);
    if r.Walked? {
      forall w | Reachable(h, vs, w) ensures !Refused(h, w) {
        ReachableCovered(h, vs, w);
        RefusedExactly(h, w);
      }
    } else {
      TupleReached(h, vs, []);
      RefusedExactly(h, r.at);
      assert Reachable(h, vs, r.at);
    }
  }

  /** The objects that get a number are exactly the tables and functions that can be reached. */
  lemma NumbersExactlyReachable(h: Heap, vs: seq<Value>, id: Id)
    requires WellFormed(h) && TupleRefers(h, vs) && WalkTuple(h, vs, []).Walked?
    ensures id in WalkTuple(h, vs, []).seen
            <==> id in h && !h[id].UserObj? && Reachable(h, vs, ValueOf(h, id))
  {
    var s := WalkTuple(h, vs, []).seen;
    TupleReached(h, vs, []);
    if id in h && !h[id].UserObj? && Reachable(h, vs, ValueOf(h, id)) {
      ReachableCovered(h, vs, ValueOf(h, id));
    }
  }
}
