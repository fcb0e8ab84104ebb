/** Which references an encoding holds before the decoder has registered the object they name, as long as
    no table hook answers with an object of its own. */
module EncoderRefs {
  import opened LuaHeap
  import opened Wire
  import opened Encoder
  import opened Numbering

  /** The value is the table `id`, or userdata whose hook answers with it. */
  predicate Mentions(h: Heap, v: Value, id: Id)
    requires WellFormed(h) && Refers(h, v)
    decreases Rank(v)
  {
    || v == Table(id)
    || (v.User? && h[v.id].hook.Codec?
        && (assert ObjOk(h, v.id, h[v.id]); Mentions(h, h[v.id].hook.payload, id)))
  }

  /** The hook of table `id` answers with the table itself. */
  predicate SelfAnswer(h: Heap, id: Id)
    requires WellFormed(h)
  {
    && id in h && h[id].TableObj? && h[id].hook.Codec?
    && (assert ObjOk(h, id, h[id]); Mentions(h, h[id].hook.payload, id))
  }

  /** None of the objects numbered after `from` answers with itself. */
  predicate NoneAnswers(h: Heap, seen: Seen, from: nat)
    requires WellFormed(h)
  {
    forall i :: from <= i < |seen| ==> !SelfAnswer(h, seen[i])
  }

  lemma NoneSplit(h: Heap, a: Seen, b: Seen, from: nat)
    requires WellFormed(h) && a <= b && from <= |a|
    ensures NoneAnswers(h, b, from) <==> NoneAnswers(h, a, from) && NoneAnswers(h, b, |a|)
  {
    if NoneAnswers(h, b, from) {
      forall i | from <= i < |a| ensures !SelfAnswer(h, a[i]) { assert a[i] == b[i]; }
    }
    if NoneAnswers(h, a, from) && NoneAnswers(h, b, |a|) {
      forall i | from <= i < |b| ensures !SelfAnswer(h, b[i]) { if i < |a| { assert a[i] == b[i]; } }
    }
  }

  /** An answer that brings no new object is readable at once exactly if it is not the table `id` itself,
      which has only just got its number. */
  lemma {:induction false} AnswerRefs(h: Heap, v: Value, seen: Seen, id: Id, r: Walk<Code>)
    requires WellFormed(h) && Refers(h, v) && id in h && h[id].TableObj? && id !in seen
    requires r == WalkValue(h, v, Register(seen, id)) && r.Walked? && Count(r.code) == 0
    ensures r.seen == Register(seen, id) && (RefsKnown(r.code, |seen|) <==> !Mentions(h, v, id))
    decreases Rank(v), 0
  {
    match v
    case Table(x) => AnswerNumber(seen, id, x);
    case Func(x) => AnswerNumber(seen, id, x);
    case User(u) => UserAnswerRefs(h, u, seen, id, r);
    case _ =>
  }

  lemma AnswerNumber(seen: Seen, id: Id, x: Id)
    requires id !in seen
    ensures x in Register(seen, id) ==> (NumberOf(Register(seen, id), x) <= |seen| <==> x != id)
  {
    var s := Register(seen, id);
    if x in s {
      var n := NumberOf(s, x);
      assert s[n - 1] == x && s[|seen|] == id;
    }
  }

  lemma {:induction false} UserAnswerRefs(h: Heap, u: Id, seen: Seen, id: Id, r: Walk<Code>)
    requires WellFormed(h) && Refers(h, User(u)) && id in h && h[id].TableObj? && id !in seen
    requires r == WalkValue(h, User(u), Register(seen, id)) && r.Walked? && Count(r.code) == 0
    ensures r.seen == Register(seen, id) && (RefsKnown(r.code, |seen|) <==> !Mentions(h, User(u), id))
    decreases Rank(User(u)) - 1, 2
  {
    assert ObjOk(h, u, h[u]);
    var k, s := h[u].hook, Register(seen, id);
    var two := WalkTwo(h, k.cb, k.payload, s);
    assert r == WalkUser(h, u, s) && two.Walked? && r.code == CUser(two.code.0, two.code.1);
    AnswerTwoRefs(h, k, seen, id, two);
  }

  /** A hook's answer that brings no new object. */
  lemma {:induction false} AnswerTwoRefs(h: Heap, k: Hook, seen: Seen, id: Id, r: Walk<(Code, Code)>)
    requires WellFormed(h) && HookOk(k) && HookRefers(h, k) && id in h && h[id].TableObj? && id !in seen
    requires r == WalkTwo(h, k.cb, k.payload, Register(seen, id)) && r.Walked? && Count(r.code.0) + Count(r.code.1) == 0
    ensures r.seen == Register(seen, id)
    ensures RefsKnown(r.code.0, |seen|) && (RefsKnown(r.code.1, |seen|) <==> !Mentions(h, k.payload, id))
    decreases Rank(k.payload), 1
  {
    var s := Register(seen, id);
    var a := WalkValue(h, k.cb, s);
    CallbackRefs(h, k.cb, seen, id, a);
    AnswerRefs(h, k.payload, seen, id, WalkValue(h, k.payload, s));
  }

  /** The callback is a string, or a function met before. */
  lemma CallbackRefs(h: Heap, v: Value, seen: Seen, id: Id, r: Walk<Code>)
    requires WellFormed(h) && Refers(h, v) && (v.Func? || v.Str?) && id in h && h[id].TableObj? && id !in seen
    requires r == WalkValue(h, v, Register(seen, id)) && r.Walked? && Count(r.code) == 0
    ensures r.seen == Register(seen, id) && RefsKnown(r.code, |seen|)
  {
    if v.Func? { AnswerNumber(seen, id, v.id); }
  }

  // The walk

  /** Every reference is readable at once exactly if none of the tables met answers with itself. */
  lemma {:induction false} ValueRefs(h: Heap, v: Value, seen: Seen, r: Walk<Code>, left: set<Id>)
    requires Unmet(h, seen) <= left
    requires WellFormed(h) && Refers(h, v) && r == WalkValue(h, v, seen) && r.Walked? && HooksEmpty(r.code)
    ensures RefsKnown(r.code, |seen|) <==> NoneAnswers(h, r.seen, |seen|)
    decreases left, 0, Rank(v), 1
  {
    match v
    case Table(id) => if id !in seen { TableRefs(h, id, seen, r, left); }
    case Func(id) => if id !in seen { FunctionRefs(h, id, seen, r, left); }
    case User(id) =>
      assert ObjOk(h, id, h[id]);
      var k := h[id].hook;
      TwoRefs(h, k.cb, k.payload, seen, WalkTwo(h, k.cb, k.payload, seen), left);
    case _ =>
  }

  lemma TableRefs(h: Heap, id: Id, seen: Seen, r: Walk<Code>, left: set<Id>)
    requires Unmet(h, seen) <= left
    requires WellFormed(h) && Refers(h, Table(id)) && id !in seen
    requires r == WalkTable(h, id, seen) && r.Walked? && HooksEmpty(r.code)
    ensures RefsKnown(r.code, |seen|) <==> NoneAnswers(h, r.seen, |seen|)
    decreases left, 0, 0, 0
  {
    assert ObjOk(h, id, h[id]);
    Shrinks(h, seen, id);
    var k, s := h[id].hook, Register(seen, id);
    if k.NoHook? {
      EntriesRefs(h, h[id].entries, s, WalkEntries(h, h[id].entries, s), Unmet(h, s));
      NoneSplit(h, s, r.seen, |seen|);
    } else {
      AnswerTwoRefs(h, k, seen, id, WalkTwo(h, k.cb, k.payload, s));
    }
    assert s[|seen|] == id;
  }

  lemma FunctionRefs(h: Heap, id: Id, seen: Seen, r: Walk<Code>, left: set<Id>)
    requires Unmet(h, seen) <= left
    requires WellFormed(h) && Refers(h, Func(id)) && Accepts(h, Func(id)) && id !in seen
    requires r == WalkFunction(h, id, seen) && r.Walked? && HooksEmpty(r.code)
    ensures RefsKnown(r.code, |seen|) <==> NoneAnswers(h, r.seen, |seen|)
    decreases left, 0, 0, 0
  {
    assert ObjOk(h, id, h[id]);
    Shrinks(h, seen, id);
    var es, s := UpEntries(h[id].ups), Register(seen, id);
    EntriesRefs(h, es, s, WalkEntries(h, es, s), Unmet(h, s));
    NoneSplit(h, s, r.seen, |seen|);
    assert s[|seen|] == id;
  }

  lemma {:induction false} TwoRefs(h: Heap, a: Value, b: Value, seen: Seen, r: Walk<(Code, Code)>, left: set<Id>)
    requires Unmet(h, seen) <= left
    requires WellFormed(h) && Refers(h, a) && Refers(h, b) && r == WalkTwo(h, a, b, seen) && r.Walked?
    requires HooksEmpty(r.code.0) && HooksEmpty(r.code.1)
    ensures RefsKnown(r.code.0, |seen|) && RefsKnown(r.code.1, |seen| + Count(r.code.0))
       <==> NoneAnswers(h, r.seen, |seen|)
    decreases left, 0, Rank(a) + Rank(b) + 1, 0
  {
    var ra := WalkValue(h, a, seen);
    ValueRefs(h, a, seen, ra, left);
    StaysMet(h, seen, ra.seen);
    ValueRefs(h, b, ra.seen, WalkValue(h, b, ra.seen), left);
    NoneSplit(h, ra.seen, r.seen, |seen|);
  }

  lemma PairRefs(k: Code, v: Code, rest: Codes, n: nat, first: bool, later: bool)
    requires RefsKnown(k, n) && RefsKnown(v, n + Count(k)) <==> first
    requires EntryRefsKnown(rest, n + Count(k) + Count(v)) <==> later
    ensures EntryRefsKnown(Pair(k, v, rest), n) <==> first && later
  {
  }

  lemma {:induction false} EntriesRefs(h: Heap, es: seq<Entry>, seen: Seen, r: Walk<Codes>, left: set<Id>)
    requires Unmet(h, seen) <= left
    requires WellFormed(h) && EntriesRefer(h, es) && r == WalkEntries(h, es, seen) && r.Walked?
    requires HooksEmptyEntries(r.code)
    ensures EntryRefsKnown(r.code, |seen|) <==> NoneAnswers(h, r.seen, |seen|)
    decreases left, 1, |es|
  {
    if es != [] {
      var two := WalkTwo(h, es[0].key, es[0].val, seen);
      var rest := WalkEntries(h, es[1..], two.seen);
      WalkEntriesStep(h, es, seen, r, two, rest);
      StaysMet(h, seen, two.seen);
      EntriesRefs(h, es[1..], two.seen, rest, left);
      TwoRefs(h, es[0].key, es[0].val, seen, two, left);
      EntriesJoin(h, seen, two, rest, r);
    }
  }

  lemma EntriesJoin(h: Heap, seen: Seen, two: Walk<(Code, Code)>, rest: Walk<Codes>, r: Walk<Codes>)
    requires WellFormed(h) && two.Walked? && rest.Walked? && seen <= two.seen <= rest.seen
    requires |two.seen| == |seen| + Count(two.code.0) + Count(two.code.1)
    requires r == Walked(Pair(two.code.0, two.code.1, rest.code), rest.seen)
    requires RefsKnown(two.code.0, |seen|) && RefsKnown(two.code.1, |seen| + Count(two.code.0))
        <==> NoneAnswers(h, two.seen, |seen|)
    requires EntryRefsKnown(rest.code, |two.seen|) <==> NoneAnswers(h, rest.seen, |two.seen|)
    ensures EntryRefsKnown(r.code, |seen|) <==> NoneAnswers(h, r.seen, |seen|)
  {
    NoneSplit(h, two.seen, r.seen, |seen|);
    PairRefs(two.code.0, two.code.1, rest.code, |seen|, NoneAnswers(h, two.seen, |seen|),
             NoneAnswers(h, r.seen, |two.seen|));
  }
}
