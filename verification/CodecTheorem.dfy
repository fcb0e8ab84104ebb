/** Decoding after encoding, for everything that can be reached from a tuple, and the two programs one
    after the other. */
module CodecTheorem {
  import opened Uleb128
  import opened LuaHeap
  import opened Encoder
  import opened EncoderReach
  import opened Numbering
  import opened EncoderOnce
  import opened Live
  import opened Decoder
  import opened Codec
  import opened CodecLimits
  import EncoderRun
  import DecoderRun

  // From the live part to the whole heap

  lemma {:induction false} StandsInWhole(g: Heap, h: Heap, env: Env, to: map<Id, Value>, v: Value, w: Value)
    requires Part(g, h) && Stands(g, env, to, v, w)
    ensures Stands(h, env, to, v, w)
    decreases Rank(v), 0
  {
    if v.User? { AnsweredInWhole(g, h, env, to, g[v.id].hook, w); }
  }

  lemma {:induction false} AnsweredInWhole(g: Heap, h: Heap, env: Env, to: map<Id, Value>, k: Hook, w: Value)
    requires Part(g, h) && HookOk(k) && Answered(g, env, to, k, w)
    ensures Answered(h, env, to, k, w)
    decreases Rank(k.payload), 1
  {
    var f, p :| Stands(g, env, to, k.cb, f) && Stands(g, env, to, k.payload, p) && RT.Answers(env, f, p, w);
    StandsInWhole(g, h, env, to, k.cb, f);
    StandsInWhole(g, h, env, to, k.payload, p);
  }

  lemma ListInWhole(g: Heap, h: Heap, env: Env, to: map<Id, Value>, vs: seq<Value>, ws: seq<Value>)
    requires Part(g, h) && ListStands(g, env, to, vs, ws)
    ensures ListStands(h, env, to, vs, ws)
  {
    forall i | 0 <= i < |vs| ensures Stands(h, env, to, vs[i], ws[i]) { StandsInWhole(g, h, env, to, vs[i], ws[i]); }
  }

  lemma EntriesInWhole(g: Heap, h: Heap, env: Env, to: map<Id, Value>, es: seq<Entry>, fs: seq<Entry>)
    requires Part(g, h) && EntriesStand(g, env, to, es, fs)
    ensures EntriesStand(h, env, to, es, fs)
  {
    forall i | 0 <= i < |es|
      ensures Stands(h, env, to, es[i].key, fs[i].key) && Stands(h, env, to, es[i].val, fs[i].val)
    {
      StandsInWhole(g, h, env, to, es[i].key, fs[i].key);
      StandsInWhole(g, h, env, to, es[i].val, fs[i].val);
    }
  }

  lemma MatchedInWhole(g: Heap, h: Heap, env: Env, to: map<Id, Value>, before: Heap, after: Heap, id: Id)
    requires Part(g, h) && Matched(g, env, to, before, after, id)
    ensures Matched(h, env, to, before, after, id)
  {
    match g[id]
    case TableObj(es, k) =>
      if k.Codec? {
        AnsweredInWhole(g, h, env, to, k, to[id]);
      } else {
        EntriesInWhole(g, h, env, to, es, after[to[id].id].entries);
      }
    case LuaFunc(_, ups) => ListInWhole(g, h, env, to, ups, after[to[id].id].ups);
    case _ =>
  }

  lemma IsomorphicInWhole(g: Heap, h: Heap, env: Env, vs: seq<Value>, to: map<Id, Value>, before: Heap, after: Heap)
    requires Part(g, h) && Isomorphic(g, env, vs, to, before, after)
    requires forall id :: id in to <==> id in h && !h[id].UserObj? && Reachable(h, vs, ValueOf(h, id))
    ensures Isomorphic(h, env, vs, to, before, after)
  {
    forall id | id in to ensures Matched(h, env, to, before, after, id) {
      assert Matched(g, env, to, before, after, id);
      MatchedInWhole(g, h, env, to, before, after, id);
    }
    forall a, b | a in to && b in to && a != b && RT.Copied(h[a]) && RT.Copied(h[b]) ensures to[a] != to[b] {
      assert Matched(g, env, to, before, after, a) && Matched(g, env, to, before, after, b);
      assert RT.Copied(g[a]) && RT.Copied(g[b]);
    }
  }

  /** The values `ws` over `after` stand for the tuple `vs` over `h`. */
  ghost predicate SameGraph(h: Heap, env: Env, vs: seq<Value>, before: Heap, after: Heap, ws: seq<Value>)
  {
    exists to :: Isomorphic(h, env, vs, to, before, after) && ListStands(h, env, to, vs, ws)
  }

  /** The round trip: whenever what can be reached from the tuple fits the format, its hooks name decoders that
      answer, and the two sides agree on numbers and references, decoding what was encoded, whatever bytes
      follow, yields the tuple over an isomorphic copy of exactly that part. */
  lemma RoundTripIsomorphic(h: Heap, env: Env, vs: seq<Value>, before: Heap, next: Id, suffix: seq<byte>)
    requires WellFormed(h) && TupleRefers(h, vs) && RT.Setting(LivePart(h, vs), env, next) && |vs| <= INT_MAX
    requires forall id :: id in before ==> id < next
    requires WalkTuple(h, vs, []).Walked? && AllFit(WalkTuple(h, vs, []).code) && InTime(WalkTuple(h, vs, []).code, 0)
    ensures EncodeTuple(h, vs).Encoded?
    ensures var d := DecodeTuple(env, EncodeTuple(h, vs).bytes + suffix, Start(before, next));
            d.Built? && SameGraph(h, env, vs, before, d.st.heap, d.v)
  {
    var g, w := LivePart(h, vs), WalkTuple(h, vs, []);
    LiveWellFormed(h, vs);
    OnlyLiveMatters(h, vs);
    WholeRoundTrip(g, env, vs, before, next, suffix);
    var d := DecodeTuple(env, EncodeTuple(g, vs).bytes + suffix, Start(before, next));
    var to := Counterparts(w.seen, d.st.seen);
    SeenReachable(h, vs);
    IsomorphicInWhole(g, h, env, vs, to, before, d.st.heap);
    ListInWhole(g, h, env, to, vs, d.v);
  }

  // Hooks that restore what was there

  /** Every hook that can be reached names a decoder which knows what the payload stands for, and brings no two
      keys of a table together. */
  ghost predicate Restoring(h: Heap, env: Env, next: Id)
  {
    forall id :: id in h ==>
      match h[id]
      case TableObj(es, k) => RT.Restorable(env, next, k) && RT.Apart(h, env, es)
      case UserObj(k) => RT.Restorable(env, next, k)
      case _ => true
  }

  lemma RestoringSetting(h: Heap, env: Env, next: Id)
    requires WellFormed(h) && Restoring(h, env, next)
    ensures RT.Setting(h, env, next) && PlainTableHooks(h)
  {
    forall id | id in h ensures RT.ObjFits(h, env, next, h[id]) {
      match h[id]
      case TableObj(es, k) =>
        RT.RestorableServes(h, env, next, k);
        forall i | 0 <= i < |es| ensures RT.Restorable(env, next, RT.HookOf(h, es[i].key)) {
        }
      case UserObj(k) => RT.RestorableServes(h, env, next, k);
      case _ =>
    }
  }

  lemma RestoredOnly(h: Heap, env: Env, base: Id, to: map<Id, Value>, k: Hook, w: Value)
    requires HookOk(k) && RT.Restorable(env, base, k) && Answered(h, env, to, k, w)
    ensures w == RT.Restored(env, k)
  {
  }

  /** The tuple comes back with every hooked table as the very object that its decoder restores. */
  lemma RestoredRoundTrip(h: Heap, env: Env, vs: seq<Value>, before: Heap, next: Id, suffix: seq<byte>)
    requires WellFormed(h) && TupleRefers(h, vs) && Restoring(LivePart(h, vs), env, next) && |vs| <= INT_MAX
    requires forall id :: id in before ==> id < next
    requires WalkTuple(h, vs, []).Walked? && AllFit(WalkTuple(h, vs, []).code)
    ensures var d := DecodeTuple(env, EncodeTuple(h, vs).bytes + suffix, Start(before, next));
            && d.Built?
            && exists to ::
                 && Isomorphic(h, env, vs, to, before, d.st.heap) && ListStands(h, env, to, vs, d.v)
                 && forall id :: id in to && h[id].TableObj? && h[id].hook.Codec? ==>
                      to[id] == RT.Restored(env, h[id].hook)
  {
    var g := LivePart(h, vs);
    LiveWellFormed(h, vs);
    RestoringSetting(g, env, next);
    PlainRefsKnown(h, vs);
    RoundTripIsomorphic(h, env, vs, before, next, suffix);
    var d := DecodeTuple(env, EncodeTuple(h, vs).bytes + suffix, Start(before, next));
    var to :| Isomorphic(h, env, vs, to, before, d.st.heap) && ListStands(h, env, to, vs, d.v);
    forall id | id in to && h[id].TableObj? && h[id].hook.Codec? ensures to[id] == RT.Restored(env, h[id].hook) {
      assert Matched(h, env, to, before, d.st.heap, id) && g[id] == Visible(h[id]);
      RestoredOnly(h, env, next, to, h[id].hook, to[id]);
    }
  }

  // Without hooks

  predicate HookFree(h: Heap)
  {
    forall id :: id in h ==> (h[id].TableObj? || h[id].UserObj? ==> h[id].hook.NoHook?)
  }

  /** Nothing that the serializer refuses can be reached from the tuple. */
  ghost predicate Serializable(h: Heap, vs: seq<Value>)
  {
    forall w :: Reachable(h, vs, w) ==> !Refused(h, w)
  }

  /** That is exactly when a string is made. */
  lemma EncodedExactly(h: Heap, vs: seq<Value>)
    requires WellFormed(h) && TupleRefers(h, vs)
    ensures EncodeTuple(h, vs).Encoded? <==> Serializable(h, vs)
    ensures var e := EncodeTuple(h, vs); e.EncodeError? ==> Reachable(h, vs, e.at) && Refused(h, e.at)
  {
    EncodesExactlyAccepted(h, vs);
  }

  /** What can be reached is within the sizes the format has room for. */
  ghost predicate Sizes(h: Heap, vs: seq<Value>)
  {
    && SmallHeap(LivePart(h, vs)) && |LivePart(h, vs)| < WORD && |vs| <= INT_MAX
    && forall i :: 0 <= i < |vs| ==> SmallValue(vs[i])
  }

  /** What is within these sizes fits the format. */
  lemma SizesFit(h: Heap, vs: seq<Value>)
    requires WellFormed(h) && TupleRefers(h, vs) && WalkTuple(h, vs, []).Walked? && Sizes(h, vs)
    ensures AllFit(WalkTuple(h, vs, []).code)
  {
    var g := LivePart(h, vs);
    LiveWellFormed(h, vs);
    OnlyLiveMatters(h, vs);
    WrittenOnce(g, vs);
    TupleFits(g, vs, [], WalkTuple(g, vs, []));
  }

  /** Without hooks, both sides agree on numbers and references. */
  lemma HookFreeInTime(h: Heap, env: Env, vs: seq<Value>, next: Id)
    requires WellFormed(h) && TupleRefers(h, vs) && HookFree(LivePart(h, vs)) && WalkTuple(h, vs, []).Walked?
    ensures RT.Setting(LivePart(h, vs), env, next) && InTime(WalkTuple(h, vs, []).code, 0)
  {
    var g := LivePart(h, vs);
    LiveWellFormed(h, vs);
    RT.HookFreeSetting(g, env, next);
    PlainRefsKnown(h, vs);
  }

  /** Any tuple that can be serialized at all, and from which no hook can be reached, comes back as an
      isomorphic graph. */
  lemma HookFreeRoundTrip(h: Heap, env: Env, vs: seq<Value>, before: Heap, next: Id, suffix: seq<byte>)
    requires WellFormed(h) && TupleRefers(h, vs) && HookFree(LivePart(h, vs)) && Serializable(h, vs) && Sizes(h, vs)
    requires forall id :: id in before ==> id < next
    ensures var e := EncodeTuple(h, vs);
            && e.Encoded?
            && var d := DecodeTuple(env, e.bytes + suffix, Start(before, next));
               d.Built? && SameGraph(h, env, vs, before, d.st.heap, d.v)
  {
    EncodesExactlyAccepted(h, vs);
    SizesFit(h, vs);
    HookFreeInTime(h, env, vs, next);
    RoundTripIsomorphic(h, env, vs, before, next, suffix);
  }

  /** Both sides agree on the numbers and references of the tuple's codes. */
  predicate AgreesInTime(h: Heap, vs: seq<Value>)
    requires WellFormed(h) && TupleRefers(h, vs)
  {
    WalkTuple(h, vs, []).Walked? ==> InTime(WalkTuple(h, vs, []).code, 0)
  }

  /** The two programs, one after the other. */
  method Transfer(h: Heap, env: Env, vs: seq<Value>, before: Heap, next: Id) returns (ws: seq<Value>, after: Heap)
    requires WellFormed(h) && TupleRefers(h, vs) && Serializable(h, vs) && Sizes(h, vs)
    requires HookFree(LivePart(h, vs))
             || (RT.Setting(LivePart(h, vs), env, next) && AgreesInTime(h, vs))
    requires forall id :: id in before ==> id < next
    ensures SameGraph(h, env, vs, before, after, ws)
  {
    EncodesExactlyAccepted(h, vs);
    SizesFit(h, vs);
    if HookFree(LivePart(h, vs)) { HookFreeInTime(h, env, vs, next); }
    RoundTripIsomorphic(h, env, vs, before, next, []);
    var e := EncoderRun.Encode(h, vs);
    assert e.bytes + [] == e.bytes;
    var r;
    r, after := DecoderRun.DecodeAll(env, e.bytes, before, next);
    ws := r.value;
  }
}
