/** `luv.codec.encode` and `luv.codec.decode` (src/luv_codec.c:414-464) as functions on
    bytes, and the theorem that one undoes the other. */
module Codec {
  import opened Uleb128
  import opened LuaHeap
  import opened Wire
  import opened Grammar
  import opened Encoder
  import opened EncoderReach
  import opened Numbering
  import opened EncoderOnce
  import opened Decoder
  import RT = RoundTrip

  /** The range of a C `int`, which is what the decoder keeps the number of values in. */
  const INT_MAX: nat := 0x7fff_ffff

  function TupleBytes(cs: seq<Code>): seq<byte>
  {
    if cs == [] then [] else Bytes(cs[0]) + TupleBytes(cs[1..])
  }

  /** The string made of a tuple, if all it reaches can be serialized. */
  datatype Encoded = EncodeError(at: Value) | Encoded(bytes: seq<byte>)

  function EncodeTuple(h: Heap, vs: seq<Value>): Encoded
    requires WellFormed(h) && TupleRefers(h, vs)
  {
    match WalkTuple(h, vs, [])
    case Error(at) => EncodeError(at)
    case Walked(cs, _) => Encoded(Number(|vs|) + TupleBytes(cs))
  }

  function ParseTuple(bs: seq<byte>, n: nat): Parsed<seq<Code>>
    decreases n
  {
    if n == 0 then Got([], bs)
    else
      match Parse(bs)
      case Bad => Bad
      case Got(c, rest) =>
        match ParseTuple(rest, n - 1) case Bad => Bad case Got(cs, r) => Got([c] + cs, r)
  }

  function BuildTuple(env: Env, cs: seq<Code>, st: State): (r: Built<seq<Value>>)
    ensures r.Built? ==> |r.v| == |cs|
  {
    if cs == [] then Built([], st)
    else
      match Build(env, cs[0], st)
      case Failed => Failed
      case Built(v, st1) =>
        match BuildTuple(env, cs[1..], st1) case Failed => Failed case Built(vs, t) => Built([v] + vs, t)
  }

  /** Bytes after the last value are ignored. */
  function DecodeTuple(env: Env, bs: seq<byte>, st: State): Built<seq<Value>>
  {
    match Decode(bs)
    case Truncated => Failed
    case Read(n, rest) =>
      if n > INT_MAX then Failed
      else
        match ParseTuple(rest, n)
        case Bad => Failed
        case Got(cs, _) => BuildTuple(env, cs, st)
  }

  predicate AllFit(cs: seq<Code>) { forall i :: 0 <= i < |cs| ==> Fits(cs[i]) }

  lemma ParseTupleStep(bs: seq<byte>, cs: seq<Code>, rest: seq<byte>, suffix: seq<byte>)
    requires cs != [] && Parse(bs) == Got(cs[0], rest) && ParseTuple(rest, |cs| - 1) == Got(cs[1..], suffix)
    ensures ParseTuple(bs, |cs|) == Got(cs, suffix)
  {
    assert [cs[0]] + cs[1..] == cs;
  }

  lemma {:induction false} ParseTupleWritten(cs: seq<Code>, suffix: seq<byte>)
    requires AllFit(cs)
    ensures ParseTuple(TupleBytes(cs) + suffix, |cs|) == Got(cs, suffix)
  {
    if cs == [] {
      assert TupleBytes(cs) + suffix == suffix;
    } else {
      var rest := TupleBytes(cs[1..]) + suffix;
      assert TupleBytes(cs) + suffix == Bytes(cs[0]) + rest;
      ParseTupleWritten(cs[1..], suffix);
      ParseWritten(cs[0], rest);
      ParseTupleStep(Bytes(cs[0]) + rest, cs, rest, suffix);
    }
  }

  /** The bytes start with spellings of the codes, one after another, and `rest` follows. */
  ghost predicate SpellsTuple(cs: seq<Code>, bs: seq<byte>, rest: seq<byte>)
  {
    if cs == [] then bs == rest else exists m :: Spells(cs[0], bs, m) && SpellsTuple(cs[1..], m, rest)
  }

  lemma ParseTupleCons(bs: seq<byte>, cs: seq<Code>, rest: seq<byte>)
    requires cs != [] && ParseTuple(bs, |cs|) == Got(cs, rest)
    ensures Parse(bs).Got? && Parse(bs).value == cs[0] && ParseTuple(Parse(bs).rest, |cs| - 1) == Got(cs[1..], rest)
  {
  }

  lemma {:induction false} TupleSpelled(bs: seq<byte>, cs: seq<Code>, rest: seq<byte>)
    requires ParseTuple(bs, |cs|) == Got(cs, rest)
    ensures SpellsTuple(cs, bs, rest)
    decreases |cs|
  {
    if cs != [] {
      ParseTupleCons(bs, cs, rest);
      var m := Parse(bs).rest;
      ParsesExactly(bs, cs[0], m);
      TupleSpelled(m, cs[1..], rest);
    }
  }

  lemma {:induction false} SpelledTuple(bs: seq<byte>, cs: seq<Code>, rest: seq<byte>)
    requires SpellsTuple(cs, bs, rest)
    ensures ParseTuple(bs, |cs|) == Got(cs, rest)
    decreases |cs|
  {
    if cs != [] {
      var m :| Spells(cs[0], bs, m) && SpellsTuple(cs[1..], m, rest);
      ParsesExactly(bs, cs[0], m);
      SpelledTuple(m, cs[1..], rest);
      ParseTupleStep(bs, cs, m, rest);
    }
  }

  lemma {:induction false} ParseTupleLength(bs: seq<byte>, n: nat)
    ensures ParseTuple(bs, n).Got? ==> |ParseTuple(bs, n).value| == n
    decreases n
  {
    if n > 0 && Parse(bs).Got? { ParseTupleLength(Parse(bs).rest, n - 1); }
  }

  /** The input is a count and spellings of that many codes, with anything behind. */
  ghost predicate SpellsInput(bs: seq<byte>, cs: seq<Code>)
  {
    |cs| <= INT_MAX && exists m, rest :: Decode(bs) == Read(|cs|, m) && SpellsTuple(cs, m, rest)
  }

  /** On every input: what is well formed is decoded by building the codes it spells, and all else fails. */
  lemma DecodesExactly(env: Env, bs: seq<byte>, st: State)
    ensures forall cs :: SpellsInput(bs, cs) ==> DecodeTuple(env, bs, st) == BuildTuple(env, cs, st)
    ensures DecodeTuple(env, bs, st).Built? ==> exists cs :: SpellsInput(bs, cs)
  {
    forall cs | SpellsInput(bs, cs) ensures DecodeTuple(env, bs, st) == BuildTuple(env, cs, st) {
      var m, rest :| Decode(bs) == Read(|cs|, m) && SpellsTuple(cs, m, rest);
      SpelledTuple(m, cs, rest);
    }
    if DecodeTuple(env, bs, st).Built? {
      var n, m := Decode(bs).value, Decode(bs).rest;
      var p := ParseTuple(m, n);
      ParseTupleLength(m, n);
      TupleSpelled(m, p.value, p.rest);
      assert SpellsInput(bs, p.value);
    }
  }

  /** A fresh decoding run into a heap. */
  function Start(heap: Heap, next: Id): State { State(heap, next, [], 0, [], 0, 0) }

  /** No table hook brings objects of its own, and every reference is known in time, when the decoder has
      registered `n` objects. `EncoderOnce.WrittenOnce` says when that is so. */
  predicate InTime(cs: seq<Code>, n: nat) { AllHooksEmpty(cs) && AllRefsKnown(cs, n) }

  lemma InTimeStep(cs: seq<Code>, n: nat, m: nat)
    requires InTime(cs, n) && cs != [] && m == n + Count(cs[0])
    ensures RT.Readable(cs[0], n) && InTime(cs[1..], m)
  {
    forall i | 0 <= i < |cs[1..]| ensures HooksEmpty(cs[1..][i]) { assert cs[1..][i] == cs[i + 1]; }
  }

  lemma {:induction false} TupleCopied(h: Heap, env: Env, base: Id, vs: seq<Value>, seen: Seen, st: State,
                                       r: Walk<seq<Code>>, b: Built<seq<Value>>)
    requires RT.Setting(h, env, base) && TupleRefers(h, vs) && RT.Related(h, env, base, seen, st)
    requires r == WalkTuple(h, vs, seen) && r.Walked? && b == BuildTuple(env, r.code, st) && InTime(r.code, |seen|)
    ensures b.Built? && RT.Good(h, env, base, seen, st, r.seen, b.st, {})
    ensures RT.ListImage(h, env, r.seen, b.st.seen, vs, b.v)
  {
    if vs == [] {
      RT.GoodSame(h, env, base, seen, st);
    } else {
      var rv := WalkValue(h, vs[0], seen);
      var bv := Build(env, rv.code, st);
      InTimeStep(r.code, |seen|, |rv.seen|);
      RT.ValueCopied(h, env, base, vs[0], seen, st, rv, bv, Unmet(h, seen));
      var rt := WalkTuple(h, vs[1..], rv.seen);
      var bt := BuildTuple(env, rt.code, bv.st);
      assert r.code[1..] == rt.code;
      TupleCopied(h, env, base, vs[1..], rv.seen, bv.st, rt, bt);
      TupleChain(h, env, base, vs, seen, st, rv.seen, bv, rt.seen, bt);
    }
  }

  lemma TupleChain(h: Heap, env: Env, base: Id, vs: seq<Value>, seen: Seen, st: State, s: Seen, bv: Built<Value>,
                   t: Seen, bt: Built<seq<Value>>)
    requires vs != [] && RT.Related(h, env, base, seen, st)
    requires RT.ValueGood(h, env, base, vs[0], seen, st, s, bv)
    requires bt.Built? && RT.Good(h, env, base, s, bv.st, t, bt.st, {})
    requires RT.ListImage(h, env, t, bt.st.seen, vs[1..], bt.v)
    ensures RT.Good(h, env, base, seen, st, t, bt.st, {})
    ensures RT.ListImage(h, env, t, bt.st.seen, vs, [bv.v] + bt.v)
  {
    RT.GoodChain(h, env, base, seen, st, s, bv.st, t, bt.st, {});
    RT.ImageLater(h, env, s, bv.st.seen, t, bt.st.seen, vs[0], bv.v);
    forall i | 0 <= i < |vs|
      ensures RT.Image(h, env, t, bt.st.seen, vs[i], ([bv.v] + bt.v)[i])
    {
      if i > 0 { assert vs[i] == vs[1..][i - 1] && RT.Image(h, env, t, bt.st.seen, vs[1..][i - 1], bt.v[i - 1]); }
    }
  }

  // The theorem

  /** `w` stands for `v`: for a table or function, its counterpart according to `to`; for userdata, an answer of
      the decoder that its hook names to what stands for the payload; else the value itself. */
  ghost predicate Stands(h: Heap, env: Env, to: map<Id, Value>, v: Value, w: Value)
    decreases Rank(v), 0
  {
    match v
    case Table(id) => id in to && w == to[id]
    case Func(id) => id in to && w == to[id]
    case User(id) =>
      id in h && h[id].UserObj? && HookOk(h[id].hook) && Descends(id, h[id].hook)
      && Answered(h, env, to, h[id].hook, w)
    case Thread(_) => false
    case _ => w == v
  }

  /** `w` is an answer of the decoder of hook `k` to what stands for its payload. */
  ghost predicate Answered(h: Heap, env: Env, to: map<Id, Value>, k: Hook, w: Value)
    requires HookOk(k)
    decreases Rank(k.payload), 1
  {
    exists f, p :: Stands(h, env, to, k.cb, f) && Stands(h, env, to, k.payload, p) && RT.Answers(env, f, p, w)
  }

  ghost predicate EntriesStand(h: Heap, env: Env, to: map<Id, Value>, es: seq<Entry>, fs: seq<Entry>)
  {
    && |fs| == |es|
    && forall i :: 0 <= i < |es| ==>
         Stands(h, env, to, es[i].key, fs[i].key) && Stands(h, env, to, es[i].val, fs[i].val)
  }

  ghost predicate ListStands(h: Heap, env: Env, to: map<Id, Value>, vs: seq<Value>, ws: seq<Value>)
  {
    |ws| == |vs| && forall i :: 0 <= i < |vs| ==> Stands(h, env, to, vs[i], ws[i])
  }

  /** Object `id` has its counterpart: an answer of its hook's decoder or, if it has none, a new object of
      the same kind and with the same contents up to `to`. */
  ghost predicate Matched(h: Heap, env: Env, to: map<Id, Value>, before: Heap, after: Heap, id: Id)
  {
    && id in h && id in to
    && match h[id]
       case TableObj(es, k) =>
         if k.Codec? then HookOk(k) && Answered(h, env, to, k, to[id])
         else to[id].Table? && to[id].id in after && to[id].id !in before
              && var o := after[to[id].id];
                 o.TableObj? && o.hook.NoHook? && EntriesStand(h, env, to, es, o.entries)
       case LuaFunc(code, ups) =>
         to[id].Func? && to[id].id in after && to[id].id !in before
         && var o := after[to[id].id];
            o.LuaFunc? && o.code == code && ListStands(h, env, to, ups, o.ups)
       case _ => false
  }

  /** `to` gives counterparts to exactly the tables and functions that can be reached from the
      tuple `vs`, different ones to different objects without hooks, and nothing that was there before
      changes. */
  ghost predicate Isomorphic(h: Heap, env: Env, vs: seq<Value>, to: map<Id, Value>, before: Heap, after: Heap)
  {
    && (forall id :: id in to <==> id in h && !h[id].UserObj? && Reachable(h, vs, ValueOf(h, id)))
    && (forall id :: id in before ==> id in after && after[id] == before[id])
    && (forall id :: id in to ==> Matched(h, env, to, before, after, id))
    && (forall a, b :: a in to && b in to && a != b && RT.Copied(h[a]) && RT.Copied(h[b]) ==> to[a] != to[b])
  }

  ghost function Counterparts(seen: Seen, copies: seq<Value>): map<Id, Value>
    requires |seen| == |copies|
  {
    map id | id in seen :: copies[NumberOf(seen, id) - 1]
  }

  lemma {:induction false} ImageStands(h: Heap, env: Env, seen: Seen, copies: seq<Value>, v: Value, w: Value)
    requires |seen| == |copies| && RT.Image(h, env, seen, copies, v, w)
    ensures Stands(h, env, Counterparts(seen, copies), v, w)
    decreases Rank(v), 0
  {
    if v.User? { AnswerStands(h, env, seen, copies, h[v.id].hook, w); }
  }

  lemma {:induction false} AnswerStands(h: Heap, env: Env, seen: Seen, copies: seq<Value>, k: Hook, w: Value)
    requires |seen| == |copies| && HookOk(k) && RT.AnswerImage(h, env, seen, copies, k, w)
    ensures Answered(h, env, Counterparts(seen, copies), k, w)
    decreases Rank(k.payload), 1
  {
    var f, p :| RT.Image(h, env, seen, copies, k.cb, f) && RT.Image(h, env, seen, copies, k.payload, p)
                && RT.Answers(env, f, p, w);
    ImageStands(h, env, seen, copies, k.cb, f);
    ImageStands(h, env, seen, copies, k.payload, p);
  }

  lemma ListImageStands(h: Heap, env: Env, seen: Seen, copies: seq<Value>, vs: seq<Value>, ws: seq<Value>)
    requires |seen| == |copies| && RT.ListImage(h, env, seen, copies, vs, ws)
    ensures ListStands(h, env, Counterparts(seen, copies), vs, ws)
  {
    forall i | 0 <= i < |vs| ensures Stands(h, env, Counterparts(seen, copies), vs[i], ws[i]) {
      ImageStands(h, env, seen, copies, vs[i], ws[i]);
    }
  }

  lemma EntriesImageStands(h: Heap, env: Env, seen: Seen, copies: seq<Value>, es: seq<Entry>, fs: seq<Entry>)
    requires |seen| == |copies| && RT.EntriesImage(h, env, seen, copies, es, fs)
    ensures EntriesStand(h, env, Counterparts(seen, copies), es, fs)
  {
    forall i | 0 <= i < |es|
      ensures Stands(h, env, Counterparts(seen, copies), es[i].key, fs[i].key)
      ensures Stands(h, env, Counterparts(seen, copies), es[i].val, fs[i].val)
    {
      ImageStands(h, env, seen, copies, es[i].key, fs[i].key);
      ImageStands(h, env, seen, copies, es[i].val, fs[i].val);
    }
  }

  lemma ObjectMatched(h: Heap, env: Env, base: Id, before: Heap, seen: Seen, b: State, id: Id)
    requires RT.Related(h, env, base, [], Start(before, base))
    requires RT.Good(h, env, base, [], Start(before, base), seen, b, {}) && id in seen
    ensures Matched(h, env, Counterparts(seen, b.seen), before, b.heap, id)
  {
    var i := NumberOf(seen, id) - 1;
    assert RT.Slot(h, env, base, b.next, seen[i], b.seen[i]) && RT.Filled(h, env, seen, b.seen, b.heap, i);
    assert Tidy(Start(before, base));
    match h[id]
    case TableObj(es, k) =>
      if k.Codec? {
        AnswerStands(h, env, seen, b.seen, k, b.seen[i]);
      } else {
        EntriesImageStands(h, env, seen, b.seen, es, b.heap[b.seen[i].id].entries);
      }
    case LuaFunc(_, ups) => ListImageStands(h, env, seen, b.seen, ups, b.heap[b.seen[i].id].ups);
    case _ =>
  }

  lemma CopiesDiffer(h: Heap, env: Env, base: Id, seen: Seen, b: State, x: Id, y: Id)
    requires RT.Related(h, env, base, seen, b) && x in seen && y in seen && x != y
    requires x in h && y in h && RT.Copied(h[x]) && RT.Copied(h[y])
    ensures Counterparts(seen, b.seen)[x] != Counterparts(seen, b.seen)[y]
  {
    var i, j := NumberOf(seen, x) - 1, NumberOf(seen, y) - 1;
    assert RT.Slot(h, env, base, b.next, seen[i], b.seen[i]) && RT.Slot(h, env, base, b.next, seen[j], b.seen[j]);
  }

  lemma Summary(h: Heap, env: Env, vs: seq<Value>, before: Heap, next: Id, seen: Seen, b: State)
    requires WellFormed(h) && TupleRefers(h, vs)
    requires forall id :: id in seen <==> id in h && !h[id].UserObj? && Reachable(h, vs, ValueOf(h, id))
    requires RT.Related(h, env, next, [], Start(before, next))
    requires RT.Good(h, env, next, [], Start(before, next), seen, b, {})
    ensures Isomorphic(h, env, vs, Counterparts(seen, b.seen), before, b.heap)
  {
    var to := Counterparts(seen, b.seen);
    forall id | id in to ensures Matched(h, env, to, before, b.heap, id) {
      ObjectMatched(h, env, next, before, seen, b, id);
    }
    forall x, y | x in to && y in to && x != y && RT.Copied(h[x]) && RT.Copied(h[y])
      ensures to[x] != to[y]
    {
      CopiesDiffer(h, env, next, seen, b, x, y);
    }
  }

  lemma SeenReachable(h: Heap, vs: seq<Value>)
    requires WellFormed(h) && TupleRefers(h, vs) && WalkTuple(h, vs, []).Walked?
    ensures forall id :: id in WalkTuple(h, vs, []).seen
                         <==> id in h && !h[id].UserObj? && Reachable(h, vs, ValueOf(h, id))
  {
    forall id
      ensures id in WalkTuple(h, vs, []).seen
              <==> id in h && !h[id].UserObj? && Reachable(h, vs, ValueOf(h, id))
    {
      NumbersExactlyReachable(h, vs, id);
    }
  }

  /** The string starts with the number of values, and their codes follow in order. */
  lemma CountFirst(h: Heap, vs: seq<Value>)
    requires WellFormed(h) && TupleRefers(h, vs) && EncodeTuple(h, vs).Encoded?
    ensures var cs := WalkTuple(h, vs, []).code;
            |cs| == |vs| && Decode(EncodeTuple(h, vs).bytes) == Read(|vs| % WORD, TupleBytes(cs))
  {
    Uleb128.RoundTrip(|vs|, TupleBytes(WalkTuple(h, vs, []).code));
  }

  /** Decoding reads back exactly the codes that were written. */
  lemma DecodeWritten(h: Heap, env: Env, vs: seq<Value>, st: State, suffix: seq<byte>)
    requires WellFormed(h) && TupleRefers(h, vs) && |vs| <= INT_MAX
    requires WalkTuple(h, vs, []).Walked? && AllFit(WalkTuple(h, vs, []).code)
    ensures DecodeTuple(env, EncodeTuple(h, vs).bytes + suffix, st) == BuildTuple(env, WalkTuple(h, vs, []).code, st)
  {
    var cs := WalkTuple(h, vs, []).code;
    var body := TupleBytes(cs) + suffix;
    assert EncodeTuple(h, vs).bytes + suffix == Number(|vs|) + body;
    Uleb128.RoundTrip(|vs|, body);
    ParseTupleWritten(cs, suffix);
  }

  /** The round trip over a heap all of which fits: with cycles, sharing, tables as keys, closures and
      hooks, decoding what was encoded (whatever bytes follow) yields what stands for the tuple over
      an isomorphic copy of everything that can be reached from it, and leaves the rest of the decoding
      heap alone. */
  lemma WholeRoundTrip(h: Heap, env: Env, vs: seq<Value>, before: Heap, next: Id, suffix: seq<byte>)
    requires RT.Setting(h, env, next) && TupleRefers(h, vs) && |vs| <= INT_MAX
    requires forall id :: id in before ==> id < next
    requires WalkTuple(h, vs, []).Walked? && AllFit(WalkTuple(h, vs, []).code) && InTime(WalkTuple(h, vs, []).code, 0)
    ensures var w := WalkTuple(h, vs, []);
            var d := DecodeTuple(env, EncodeTuple(h, vs).bytes + suffix, Start(before, next));
            && d.Built? && |w.seen| == |d.st.seen|
            && var to := Counterparts(w.seen, d.st.seen);
               Isomorphic(h, env, vs, to, before, d.st.heap) && ListStands(h, env, to, vs, d.v)
  {
    var w, st := WalkTuple(h, vs, []), Start(before, next);
    DecodeWritten(h, env, vs, st, suffix);
    var b := BuildTuple(env, w.code, st);
    assert RT.Related(h, env, next, [], st);
    TupleCopied(h, env, next, vs, [], st, w, b);
    SeenReachable(h, vs);
    Summary(h, env, vs, before, next, w.seen, b.st);
    ListImageStands(h, env, w.seen, b.st.seen, vs, b.v);
  }
}
