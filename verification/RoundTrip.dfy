/** Decoding what was encoded copies the reachable graph: cycles, sharing, tables as keys,
    closures, and objects whose hooks name a decoder. */
module RoundTrip {
  import opened Uleb128
  import opened LuaHeap
  import opened Wire
  import opened Encoder
  import opened Numbering
  import opened EncoderRefs
  import opened Decoder

  // What the decoding side must bring

  /** What the decoder named by a hook makes of the hook's payload. */
  ghost function Restored(env: Env, k: Hook): Value
    requires k.Codec?
  {
    if d :| DecoderOf(env, k.cb, d) then
      match env.call(map[], d, k.payload)
      case Raised => Nil
      case Returned(v, _) => v
    else Nil
  }

  lemma OnlyDecoder(env: Env, cb: Value, d: Value)
    requires DecoderOf(env, cb, d)
    ensures forall e :: DecoderOf(env, cb, e) ==> e == d
  {
  }

  /** A value that was there before decoding started with `base` as the next free number. */
  predicate Old(base: Id, w: Value)
  {
    w.Table? || w.Func? || w.User? || w.Thread? ==> w.id < base
  }

  /** The hook names a known decoder, which answers with an object that is already there, whatever
      the rest of the heap looks like. The decoder of library tables is one (src/luv.c:39-45). */
  ghost predicate Restorable(env: Env, base: Id, k: Hook)
  {
    k.Codec? ==>
      && Plain(k) && Restored(env, k) != Nil && Old(base, Restored(env, k))
      && exists d :: DecoderOf(env, k.cb, d)
                     && forall g: Heap :: env.call(g, d, k.payload) == Returned(Restored(env, k), [])
  }

  /** The name under which the library registers the decoder of its modules. */
  const LIBRARY: seq<byte> := [108, 117, 118, 58, 108, 105, 98, 58, 100, 101, 99, 111, 100, 101, 114]

  /** `luvL_lib_encoder` and `luvL_lib_decoder`: a module answers with its name, and comes back as the
      module registered under that name. */
  lemma LibraryHook(env: Env, base: Id, d: Id, name: seq<byte>, m: Id)
    requires LIBRARY in env.registry && env.registry[LIBRARY] == Func(d)
    requires name in env.registry && env.registry[name] == Table(m) && m < base
    requires forall g: Heap :: env.call(g, Func(d), Str(name)) == Returned(env.registry[name], [])
    ensures Restorable(env, base, Codec(Str(LIBRARY), Str(name)))
    ensures Restored(env, Codec(Str(LIBRARY), Str(name))) == Table(m)
  {
    assert DecoderOf(env, Str(LIBRARY), Func(d));
    OnlyDecoder(env, Str(LIBRARY), Func(d));
    var k := Codec(Str(LIBRARY), Str(name));
    assert Restored(env, k) == Table(m);
  }

  /** The object is copied by the decoder, rather than restored by a hook. */
  predicate Copied(o: Obj)
  {
    o.LuaFunc? || (o.TableObj? && o.hook.NoHook?)
  }

  predicate CopiedValue(h: Heap, v: Value)
  {
    (v.Table? || v.Func?) && v.id in h && Copied(h[v.id])
  }

  /** What becomes of a value that is not copied: a hook's answer, or the value itself. */
  ghost function Kept(h: Heap, env: Env, v: Value): Value
  {
    match v
    case Table(id) => if id in h && h[id].TableObj? && h[id].hook.Codec? then Restored(env, h[id].hook) else v
    case User(id) => if id in h && h[id].UserObj? && h[id].hook.Codec? then Restored(env, h[id].hook) else v
    case _ => v
  }

  /** Hooks do not bring different keys of one table together. */
  ghost predicate Apart(h: Heap, env: Env, es: seq<Entry>)
  {
    forall i, j :: 0 <= i < j < |es| && !CopiedValue(h, es[i].key) && !CopiedValue(h, es[j].key)
      ==> Kept(h, env, es[i].key) != Kept(h, env, es[j].key)
  }

  /** A decoder called on `p` answers, and not with nil. */
  ghost predicate Served(env: Env, g: Heap, f: Value, p: Value)
  {
    exists d :: DecoderOf(env, f, d) && env.call(g, d, p).Returned? && env.call(g, d, p).v != Nil
  }

  /** What a value can come back as, when decoding starts with `base` as the next free number. */
  predicate MayBe(h: Heap, base: Id, v: Value, w: Value)
  {
    if Scalar(v) then w == v
    else if CopiedValue(h, v) then (if v.Table? then w.Table? else w.Func?) && base <= w.id
    else w != Nil
  }

  /** The decoder that the hook answers with, by name or as a function, takes the payload as it comes
      back. It may make objects, and may answer differently from call to call. */
  ghost predicate Serves(h: Heap, env: Env, base: Id, k: Hook)
  {
    k.Codec? ==>
      forall g: Heap, f, p :: MayBe(h, base, k.cb, f) && MayBe(h, base, k.payload, p) ==> Served(env, g, f, p)
  }

  lemma RestorableServes(h: Heap, env: Env, base: Id, k: Hook)
    requires Restorable(env, base, k)
    ensures Serves(h, env, base, k)
  {
  }

  /** A decoder known by name, in the registry or, where that has nothing, in the globals, which makes what it
      answers with, as `luvL_zmq_ctx_decoder` makes userdata for the pointer that its hook names. */
  lemma MakingHook(h: Heap, env: Env, base: Id, d: Id, name: seq<byte>, ptr: Word)
    requires (name in env.registry && env.registry[name] == Func(d))
             || ((name !in env.registry || env.registry[name] == Nil)
                 && name in env.globals && env.globals[name] == Func(d))
    requires forall g: Heap :: env.call(g, Func(d), Light(ptr)).Returned? && env.call(g, Func(d), Light(ptr)).v != Nil
    ensures Serves(h, env, base, Codec(Str(name), Light(ptr)))
  {
    var k := Codec(Str(name), Light(ptr));
    assert DecoderOf(env, Str(name), Func(d));
    forall g: Heap, f, p | MayBe(h, base, k.cb, f) && MayBe(h, base, k.payload, p) ensures Served(env, g, f, p) {
      assert env.call(g, Func(d), p).Returned? && env.call(g, Func(d), p).v != Nil;
    }
  }

  /** A Lua function sent along as the decoder, of which every copy answers: no name is needed. */
  lemma SentHook(h: Heap, env: Env, base: Id, id: Id, payload: Value)
    requires id in h && h[id].LuaFunc?
    requires forall g: Heap, d, p :: base <= d ==> env.call(g, Func(d), p).Returned? && env.call(g, Func(d), p).v != Nil
    ensures Serves(h, env, base, Codec(Func(id), payload))
  {
    var k := Codec(Func(id), payload);
    forall g: Heap, f, p | MayBe(h, base, k.cb, f) && MayBe(h, base, k.payload, p) ensures Served(env, g, f, p) {
      assert DecoderOf(env, f, f) && f == Func(f.id);
      assert env.call(g, Func(f.id), p).Returned? && env.call(g, Func(f.id), p).v != Nil;
    }
  }

  /** The hook of a value, if it has one. */
  function HookOf(h: Heap, v: Value): Hook
  {
    if (v.Table? || v.User?) && v.id in h && (h[v.id].TableObj? || h[v.id].UserObj?) then h[v.id].hook else NoHook
  }

  /** The hooked keys of a table are restored to what they were. */
  ghost predicate KeysFit(h: Heap, env: Env, base: Id, es: seq<Entry>)
  {
    forall i :: 0 <= i < |es| ==> Restorable(env, base, HookOf(h, es[i].key))
  }

  ghost predicate ObjFits(h: Heap, env: Env, base: Id, o: Obj)
  {
    match o
    case TableObj(es, k) => Serves(h, env, base, k) && (k.NoHook? ==> KeysFit(h, env, base, es) && Apart(h, env, es))
    case UserObj(k) => Serves(h, env, base, k)
    case _ => true
  }

  /** What the decoding side must bring for heap `h`. */
  ghost predicate Setting(h: Heap, env: Env, base: Id)
  {
    WellFormed(h) && forall id :: id in h ==> ObjFits(h, env, base, h[id])
  }

  /** A heap without hooks needs nothing from the decoding side. */
  lemma HookFreeSetting(h: Heap, env: Env, base: Id)
    requires WellFormed(h)
    requires forall id :: id in h ==> (h[id].TableObj? || h[id].UserObj? ==> h[id].hook.NoHook?)
    ensures Setting(h, env, base)
  {
    forall id | id in h ensures ObjFits(h, env, base, h[id]) {
      assert ObjOk(h, id, h[id]);
      if h[id].TableObj? {
        var es := h[id].entries;
        forall i | 0 <= i < |es| ensures Restorable(env, base, HookOf(h, es[i].key)) {
          assert HookOf(h, es[i].key).NoHook?;
        }
      }
    }
  }

  // The correspondence between source and copy

  /** Called on `p` over some heap, the function `d` returns `w`. */
  ghost predicate Replies(env: Env, d: Value, p: Value, w: Value)
  {
    exists g: Heap :: env.call(g, d, p).Returned? && env.call(g, d, p).v == w
  }

  /** The decoder that the callback `f` stands for answered `w` when it was called on `p`. */
  ghost predicate Answers(env: Env, f: Value, p: Value, w: Value)
  {
    w != Nil && exists d :: DecoderOf(env, f, d) && Replies(env, d, p, w)
  }

  /** `w` is the copy of `v`, where the object numbered i was decoded as `copies[i - 1]`: for userdata, an
      answer of the decoder that its hook names to the copy of the payload. */
  ghost predicate Image(h: Heap, env: Env, seen: Seen, copies: seq<Value>, v: Value, w: Value)
    decreases Rank(v), 0
  {
    match v
    case Table(id) => id in seen && |seen| <= |copies| && w == copies[NumberOf(seen, id) - 1]
    case Func(id) => id in seen && |seen| <= |copies| && w == copies[NumberOf(seen, id) - 1]
    case User(id) =>
      id in h && h[id].UserObj? && HookOk(h[id].hook) && Descends(id, h[id].hook)
      && AnswerImage(h, env, seen, copies, h[id].hook, w)
    case Thread(_) => false
    case _ => w == v
  }

  /** `w` is an answer of the decoder of hook `k` to the copy of its payload. */
  ghost predicate AnswerImage(h: Heap, env: Env, seen: Seen, copies: seq<Value>, k: Hook, w: Value)
    requires HookOk(k)
    decreases Rank(k.payload), 1
  {
    exists f, p :: Image(h, env, seen, copies, k.cb, f) && Image(h, env, seen, copies, k.payload, p)
                   && Answers(env, f, p, w)
  }

  ghost predicate EntriesImage(h: Heap, env: Env, seen: Seen, copies: seq<Value>, es: seq<Entry>, fs: seq<Entry>)
  {
    && |es| == |fs|
    && forall i :: 0 <= i < |es| ==>
         Image(h, env, seen, copies, es[i].key, fs[i].key) && Image(h, env, seen, copies, es[i].val, fs[i].val)
  }

  ghost predicate ListImage(h: Heap, env: Env, seen: Seen, copies: seq<Value>, vs: seq<Value>, ws: seq<Value>)
  {
    |vs| == |ws| && forall i :: 0 <= i < |vs| ==> Image(h, env, seen, copies, vs[i], ws[i])
  }

  lemma {:induction false} ImageLater(h: Heap, env: Env, s: Seen, c: seq<Value>, t: Seen, d: seq<Value>,
                                      v: Value, w: Value)
    requires s <= t && c <= d && |s| <= |c| && |t| <= |d| && Image(h, env, s, c, v, w)
    ensures Image(h, env, t, d, v, w)
    decreases Rank(v), 0
  {
    if v.Table? || v.Func? {
      NumberStays(s, t, v.id);
    } else if v.User? {
      AnswerLater(h, env, s, c, t, d, h[v.id].hook, w);
    }
  }

  lemma {:induction false} AnswerLater(h: Heap, env: Env, s: Seen, c: seq<Value>, t: Seen, d: seq<Value>,
                                       k: Hook, w: Value)
    requires s <= t && c <= d && |s| <= |c| && |t| <= |d| && HookOk(k) && AnswerImage(h, env, s, c, k, w)
    ensures AnswerImage(h, env, t, d, k, w)
    decreases Rank(k.payload), 1
  {
    var f, p :| Image(h, env, s, c, k.cb, f) && Image(h, env, s, c, k.payload, p) && Answers(env, f, p, w);
    ImageLater(h, env, s, c, t, d, k.cb, f);
    ImageLater(h, env, s, c, t, d, k.payload, p);
  }

  /** A hook that restores gives just one answer. */
  lemma RestoredAnswer(h: Heap, env: Env, base: Id, seen: Seen, copies: seq<Value>, k: Hook, w: Value)
    requires HookOk(k) && Restorable(env, base, k) && AnswerImage(h, env, seen, copies, k, w)
    ensures w == Restored(env, k)
  {
    var d :| DecoderOf(env, k.cb, d) && forall g: Heap :: env.call(g, d, k.payload) == Returned(Restored(env, k), []);
    OnlyDecoder(env, k.cb, d);
    assert Answers(env, k.cb, k.payload, w);
    assert Replies(env, d, k.payload, w);
  }

  lemma EntriesImageLater(h: Heap, env: Env, s: Seen, c: seq<Value>, t: Seen, d: seq<Value>,
                          es: seq<Entry>, fs: seq<Entry>)
    requires s <= t && c <= d && |s| <= |c| && |t| <= |d| && EntriesImage(h, env, s, c, es, fs)
    ensures EntriesImage(h, env, t, d, es, fs)
  {
    forall i | 0 <= i < |es|
      ensures Image(h, env, t, d, es[i].key, fs[i].key) && Image(h, env, t, d, es[i].val, fs[i].val)
    {
      ImageLater(h, env, s, c, t, d, es[i].key, fs[i].key);
      ImageLater(h, env, s, c, t, d, es[i].val, fs[i].val);
    }
  }

  lemma ListImageLater(h: Heap, env: Env, s: Seen, c: seq<Value>, t: Seen, d: seq<Value>,
                       vs: seq<Value>, ws: seq<Value>)
    requires s <= t && c <= d && |s| <= |c| && |t| <= |d| && ListImage(h, env, s, c, vs, ws)
    ensures ListImage(h, env, t, d, vs, ws)
  {
    forall i | 0 <= i < |vs| ensures Image(h, env, t, d, vs[i], ws[i]) {
      ImageLater(h, env, s, c, t, d, vs[i], ws[i]);
    }
  }

  /** Object `id` is registered as `w`: a new object of its kind, or what its hook restores. */
  ghost predicate Slot(h: Heap, env: Env, base: Id, next: Id, id: Id, w: Value)
  {
    && id in h
    && match h[id]
       case TableObj(_, k) =>
         if k.Codec? then w != Nil && (Restorable(env, base, k) ==> w == Restored(env, k))
         else w.Table? && base <= w.id < next
       case LuaFunc(_, _) => w.Func? && base <= w.id < next
       case _ => false
  }

  /** Encoder and decoder are in step, and different objects have different copies. */
  ghost predicate Related(h: Heap, env: Env, base: Id, seen: Seen, st: State)
  {
    && Tidy(st) && base <= st.next && |seen| == |st.seen|
    && (forall i :: 0 <= i < |seen| ==> Slot(h, env, base, st.next, seen[i], st.seen[i]))
    && (forall i, j :: 0 <= i < j < |seen| && Copied(h[seen[i]]) && Copied(h[seen[j]])
          ==> st.seen[i].id != st.seen[j].id)
  }

  /** The copy of the object numbered i + 1 is complete; if it is hooked, its decoder has answered. */
  ghost predicate Filled(h: Heap, env: Env, seen: Seen, copies: seq<Value>, heap: Heap, i: nat)
    requires i < |seen| && i < |copies|
  {
    seen[i] in h ==>
      match h[seen[i]]
      case TableObj(es, k) =>
        if k.Codec? then HookOk(k) && AnswerImage(h, env, seen, copies, k, copies[i])
        else copies[i].Table? && copies[i].id in heap
             && var o := heap[copies[i].id];
                o.TableObj? && o.hook.NoHook? && EntriesImage(h, env, seen, copies, es, o.entries)
      case LuaFunc(code, ups) =>
        copies[i].Func? && copies[i].id in heap
        && var o := heap[copies[i].id];
           o.LuaFunc? && o.code == code && ListImage(h, env, seen, copies, ups, o.ups)
      case _ => true
  }

  /** Objects numbered between `s` and `t` have been copied in full into new places. */
  ghost predicate Copies(h: Heap, env: Env, s: Seen, a: State, t: Seen, b: State)
  {
    && |s| <= |t| <= |b.seen|
    && forall i :: |s| <= i < |t| ==>
         && Filled(h, env, t, b.seen, b.heap, i)
         && (t[i] in h && Copied(h[t[i]]) && (b.seen[i].Table? || b.seen[i].Func?) ==> a.next <= b.seen[i].id)
  }

  ghost predicate Good(h: Heap, env: Env, base: Id, s: Seen, a: State, t: Seen, b: State, open: set<Id>)
  {
    s <= t && Related(h, env, base, t, b) && Grows(a, b, open) && Copies(h, env, s, a, t, b)
  }

  lemma FilledLater(h: Heap, env: Env, s: Seen, a: State, t: Seen, b: State, i: nat)
    requires i < |s| <= |a.seen| && s <= t && a.seen <= b.seen && |t| <= |b.seen|
    requires Filled(h, env, s, a.seen, a.heap, i)
    requires s[i] in h && Copied(h[s[i]]) && (a.seen[i].Table? || a.seen[i].Func?) ==>
               (a.seen[i].id in a.heap ==> a.seen[i].id in b.heap && b.heap[a.seen[i].id] == a.heap[a.seen[i].id])
    ensures Filled(h, env, t, b.seen, b.heap, i)
  {
    if s[i] in h {
      match h[s[i]]
      case TableObj(es, k) =>
        if k.Codec? {
          AnswerLater(h, env, s, a.seen, t, b.seen, k, a.seen[i]);
        } else {
          EntriesImageLater(h, env, s, a.seen, t, b.seen, es, a.heap[a.seen[i].id].entries);
        }
      case LuaFunc(_, ups) => ListImageLater(h, env, s, a.seen, t, b.seen, ups, a.heap[a.seen[i].id].ups);
      case _ =>
    }
  }

  /** One piece of decoding after another, while table `t` (if any) is being filled. */
  lemma GoodChain(h: Heap, env: Env, base: Id, s: Seen, a: State, t: Seen, b: State, u: Seen, c: State, open: set<Id>)
    requires Related(h, env, base, s, a)
    requires Good(h, env, base, s, a, t, b, open) && Good(h, env, base, t, b, u, c, open)
    requires forall x :: x in open ==> x < a.next
    ensures Good(h, env, base, s, a, u, c, open)
  {
    forall i | |s| <= i < |u|
      ensures Filled(h, env, u, c.seen, c.heap, i)
      ensures u[i] in h && Copied(h[u[i]]) && (c.seen[i].Table? || c.seen[i].Func?) ==> a.next <= c.seen[i].id
    {
      if i < |t| { FilledLater(h, env, t, b, u, c, i); }
    }
    assert Grows(a, c, open);
  }

  // Keys

  /** What a value comes back as. */
  lemma ImageMayBe(h: Heap, env: Env, base: Id, seen: Seen, st: State, v: Value, w: Value)
    requires Related(h, env, base, seen, st) && Refers(h, v) && Image(h, env, seen, st.seen, v, w)
    ensures MayBe(h, base, v, w) && (v != Nil ==> w != Nil)
  {
    if v.Table? || v.Func? {
      var i := NumberOf(seen, v.id) - 1;
      assert Slot(h, env, base, st.next, seen[i], st.seen[i]);
    } else if v.User? {
      var f, p :| Image(h, env, seen, st.seen, h[v.id].hook.cb, f)
                  && Image(h, env, seen, st.seen, h[v.id].hook.payload, p) && Answers(env, f, p, w);
    }
  }

  /** A key that is not copied is restored to what was there before; one that is copied gets a new image. */
  lemma ImageKind(h: Heap, env: Env, base: Id, seen: Seen, st: State, v: Value, w: Value)
    requires Related(h, env, base, seen, st) && Refers(h, v) && Restorable(env, base, HookOf(h, v))
    requires Image(h, env, seen, st.seen, v, w)
    ensures CopiedValue(h, v) ==> (w.Table? || w.Func?) && base <= w.id
    ensures !CopiedValue(h, v) ==> w == Kept(h, env, v) && (w.Table? || w.Func? ==> w.id < base)
  {
    if v.Table? || v.Func? {
      var i := NumberOf(seen, v.id) - 1;
      assert Slot(h, env, base, st.next, seen[i], st.seen[i]);
    } else if v.User? {
      RestoredAnswer(h, env, base, seen, st.seen, h[v.id].hook, w);
    }
  }

  /** Different keys of a table have different images. */
  lemma ImagesDiffer(h: Heap, env: Env, base: Id, seen: Seen, st: State, v: Value, w: Value, x: Value)
    requires Related(h, env, base, seen, st) && Refers(h, v) && Refers(h, w) && v != w
    requires Restorable(env, base, HookOf(h, v)) && Restorable(env, base, HookOf(h, w))
    requires !CopiedValue(h, v) && !CopiedValue(h, w) ==> Kept(h, env, v) != Kept(h, env, w)
    requires Image(h, env, seen, st.seen, v, x)
    ensures !Image(h, env, seen, st.seen, w, x)
  {
    if Image(h, env, seen, st.seen, w, x) {
      ImageKind(h, env, base, seen, st, v, x);
      ImageKind(h, env, base, seen, st, w, x);
    }
  }

  lemma {:induction false} StoreNew(es: seq<Entry>, k: Value, v: Value)
    requires v != Nil && forall i :: 0 <= i < |es| ==> es[i].key != k
    ensures Store(es, k, v) == es + [Entry(k, v)]
  {
    if es != [] {
      StoreNew(es[1..], k, v);
      assert es == [es[0]] + es[1..];
    }
  }

  lemma {:induction false} LookupAt(es: seq<Entry>, i: nat)
    requires i < |es| && forall j :: 0 <= j < i ==> es[j].key != es[i].key
    ensures Lookup(es, es[i].key) == es[i].val
  {
    if i > 0 { LookupAt(es[1..], i - 1); }
  }

  lemma {:induction false} LookupMissing(es: seq<Entry>, k: Value)
    requires forall j :: 0 <= j < |es| ==> es[j].key != k
    ensures Lookup(es, k) == Nil
  {
    if es != [] { LookupMissing(es[1..], k); }
  }

  /** Reading a list back from the keys it was stored under, from the i-th on. */
  lemma {:induction false} ValuesBack(es: seq<Entry>, keys: seq<Value>, i: nat)
    requires i <= |es| <= |keys|
    requires forall j, k :: 0 <= j < k < |keys| ==> keys[j] != keys[k]
    requires forall j :: 0 <= j < |es| ==> es[j].key == keys[j] && es[j].val != Nil
    ensures |ValuesAt(es, keys[i..])| == |es| - i
    ensures forall j :: i <= j < |es| ==> ValuesAt(es, keys[i..])[j - i] == es[j].val
    decreases |es| - i
  {
    if i < |es| {
      LookupAt(es, i);
      assert keys[i..][1..] == keys[i + 1..];
      ValuesBack(es, keys, i + 1);
    } else if i < |keys| {
      LookupMissing(es, keys[i]);
    }
  }

  // Values

  /** What the code of a value says of its hooks and references, if the decoder has registered `n` objects:
      no table hook brings objects of its own, and every reference is known in time. */
  predicate Readable(c: Code, n: nat) { HooksEmpty(c) && RefsKnown(c, n) }

  predicate ReadableEntries(es: Codes, n: nat) { HooksEmptyEntries(es) && EntryRefsKnown(es, n) }

  predicate ReadableTwo(c: (Code, Code), n: nat) { Readable(c.0, n) && Readable(c.1, n + Count(c.0)) }

  lemma ReadablePair(two: (Code, Code), rest: Codes, n: nat, m: nat)
    requires ReadableEntries(Pair(two.0, two.1, rest), n) && m == n + Count(two.0) + Count(two.1)
    ensures ReadableTwo(two, n) && ReadableEntries(rest, m)
  {
  }

  lemma ReadableSecond(two: (Code, Code), n: nat, m: nat)
    requires ReadableTwo(two, n) && m == n + Count(two.0)
    ensures Readable(two.1, m)
  {
  }

  lemma ReadableTable(es: Codes, n: nat)
    requires Readable(CTab(es), n)
    ensures ReadableEntries(es, n + 1)
  {
  }

  lemma ReadableFunction(code: seq<byte>, ups: Codes, n: nat)
    requires Readable(CFun(code, ups), n)
    ensures ReadableEntries(ups, n + 1)
  {
  }

  lemma ReadableUser(two: (Code, Code), n: nat)
    requires Readable(CUser(two.0, two.1), n)
    ensures ReadableTwo(two, n)
  {
  }

  lemma SilentUser(two: (Code, Code), n: nat)
    requires Count(CUser(two.0, two.1)) == 0 && RefsKnown(CUser(two.0, two.1), n)
    ensures Silent(two, n)
  {
  }

  lemma ReadableHook(two: (Code, Code), n: nat)
    requires Readable(CHook(two.0, two.1), n)
    ensures Silent(two, n)
  {
  }

  /** An answer without objects of its own whose references are known. */
  predicate Silent(two: (Code, Code), n: nat)
  {
    Count(two.0) + Count(two.1) == 0 && RefsKnown(two.0, n) && RefsKnown(two.1, n)
  }

  ghost predicate ValueGood(h: Heap, env: Env, base: Id, v: Value, seen: Seen, st: State, t: Seen, b: Built<Value>)
  {
    b.Built? && Good(h, env, base, seen, st, t, b.st, {}) && Image(h, env, t, b.st.seen, v, b.v)
  }

  lemma GoodSame(h: Heap, env: Env, base: Id, seen: Seen, st: State)
    requires Related(h, env, base, seen, st)
    ensures Good(h, env, base, seen, st, seen, st, {})
  {
  }

  /** The main induction: decoding the code of a value, with encoder and decoder in step, copies
      what the encoder met for the first time and yields the image of the value. */
  lemma {:induction false} ValueCopied(h: Heap, env: Env, base: Id, v: Value, seen: Seen, st: State,
                                       r: Walk<Code>, b: Built<Value>, left: set<Id>)
    requires Unmet(h, seen) <= left
    requires Setting(h, env, base) && Refers(h, v) && Related(h, env, base, seen, st)
    requires r == WalkValue(h, v, seen) && r.Walked? && b == Build(env, r.code, st)
    requires Readable(r.code, |seen|)
    ensures ValueGood(h, env, base, v, seen, st, r.seen, b)
    decreases left, 0, Rank(v), 1
  {
    match v
    case Table(id) =>
      if id in seen { RefCopied(h, env, base, v, seen, st, r, b); }
      else if h[id].hook.Codec? { TableAnswered(h, env, base, id, seen, st, r, b); }
      else { TableCopied(h, env, base, id, seen, st, r, b, left); }
    case Func(id) =>
      if id in seen { RefCopied(h, env, base, v, seen, st, r, b); }
      else { FunctionCopied(h, env, base, id, seen, st, r, b, left); }
    case User(id) => UserAnswered(h, env, base, id, seen, st, r, b, left);
    case _ => ScalarCopied(h, env, base, v, seen, st, r, b);
  }

  /** An object met before comes back as what the decoder registered under the same number. */
  lemma RefCopied(h: Heap, env: Env, base: Id, v: Value, seen: Seen, st: State, r: Walk<Code>, b: Built<Value>)
    requires Setting(h, env, base) && Refers(h, v) && Related(h, env, base, seen, st)
    requires (v.Table? || v.Func?) && v.id in seen
    requires r == WalkValue(h, v, seen) && r.Walked? && b == Build(env, r.code, st)
    ensures ValueGood(h, env, base, v, seen, st, r.seen, b)
  {
    RefBuilt(h, env, base, v, seen, st, b);
  }

  lemma ScalarCopied(h: Heap, env: Env, base: Id, v: Value, seen: Seen, st: State, r: Walk<Code>, b: Built<Value>)
    requires WellFormed(h) && Refers(h, v) && Related(h, env, base, seen, st) && Scalar(v)
    requires r == WalkValue(h, v, seen) && r.Walked? && b == Build(env, r.code, st)
    ensures ValueGood(h, env, base, v, seen, st, r.seen, b)
  {
    GoodSame(h, env, base, seen, st);
  }

  // Hooks

  /** What decoding adds without registering anything keeps both sides in step. */
  lemma RelatedGrown(h: Heap, env: Env, base: Id, seen: Seen, st: State, t: State)
    requires Related(h, env, base, seen, st) && Grows(st, t, {}) && t.seen == st.seen
    ensures Related(h, env, base, seen, t) && Good(h, env, base, seen, st, seen, t, {})
  {
    forall i | 0 <= i < |seen| ensures Slot(h, env, base, t.next, seen[i], t.seen[i]) {
      assert Slot(h, env, base, st.next, seen[i], st.seen[i]);
    }
  }

  /** The decoder is called on what the payload came back as. */
  lemma Called(h: Heap, env: Env, base: Id, k: Hook, seen: Seen, st: State, f: Value, p: Value, b: Built<Value>)
    requires Related(h, env, base, seen, st) && HookOk(k) && HookRefers(h, k) && Serves(h, env, base, k)
    requires Image(h, env, seen, st.seen, k.cb, f) && Image(h, env, seen, st.seen, k.payload, p)
    requires b == CallHook(env, f, p, st)
    ensures b.Built? && b.v != Nil && b.st.seen == st.seen && b.st.entered == st.entered
    ensures Good(h, env, base, seen, st, seen, b.st, {}) && AnswerImage(h, env, seen, b.st.seen, k, b.v)
  {
    ImageMayBe(h, env, base, seen, st, k.cb, f);
    ImageMayBe(h, env, base, seen, st, k.payload, p);
    assert Served(env, st.heap, f, p);
    var d :| DecoderOf(env, f, d) && env.call(st.heap, d, p).Returned? && env.call(st.heap, d, p).v != Nil;
    FindsExactly(env, f, d);
    var r := env.call(st.heap, d, p);
    AllocAllGrows(st, r.made);
    AllocAllSame(st, r.made);
    RelatedGrown(h, env, base, seen, st, b.st);
    assert Replies(env, d, p, b.v) && Answers(env, f, p, b.v);
  }

  /** Userdata: what its hook answered is decoded, then its decoder is called. */
  lemma {:induction false} UserAnswered(h: Heap, env: Env, base: Id, id: Id, seen: Seen, st: State, r: Walk<Code>,
                                        b: Built<Value>, left: set<Id>)
    requires Unmet(h, seen) <= left
    requires Setting(h, env, base) && Refers(h, User(id)) && Related(h, env, base, seen, st)
    requires r == WalkValue(h, User(id), seen) && r.Walked? && b == Build(env, r.code, st)
    requires Readable(r.code, |seen|)
    ensures ValueGood(h, env, base, User(id), seen, st, r.seen, b)
    decreases left, 0, Rank(User(id)), 0
  {
    var k := h[id].hook;
    var two := UserWalked(h, id, seen, r);
    ReadableUser(two.code, |seen|);
    var b2 := BuildTwo(env, two.code.0, two.code.1, st);
    TwoCopied(h, env, base, k.cb, k.payload, seen, st, two, b2, left);
    UserBuilds(env, two.code.0, two.code.1, st);
    UserBuilt(env, two.code.0, two.code.1, st, b2);
    UserCalled(h, env, base, id, seen, st, two.seen, b2, b);
  }

  /** A value in the answer of the hook of table `id`, which the encoder has numbered and the decoder has not:
      it brings no object of its own and does not refer to the table. */
  lemma {:induction false} AnswerCopied(h: Heap, env: Env, base: Id, id: Id, v: Value, seen: Seen, st: State,
                                        r: Walk<Code>, b: Built<Value>)
    requires Setting(h, env, base) && Refers(h, v) && Related(h, env, base, seen, st) && id !in seen
    requires r == WalkValue(h, v, Encoder.Register(seen, id)) && r.Walked? && b == Build(env, r.code, st)
    requires Count(r.code) == 0 && RefsKnown(r.code, |seen|)
    ensures r.seen == Encoder.Register(seen, id) && ValueGood(h, env, base, v, seen, st, seen, b)
    decreases Rank(v), 0
  {
    match v
    case Table(x) => AnswerRefCopied(h, env, base, id, v, seen, st, r, b);
    case Func(x) => AnswerRefCopied(h, env, base, id, v, seen, st, r, b);
    case User(u) => AnswerUserCopied(h, env, base, id, u, seen, st, r, b);
    case _ => GoodSame(h, env, base, seen, st);
  }

  lemma EarlierNumber(seen: Seen, id: Id, x: Id)
    requires id !in seen && x in Encoder.Register(seen, id) && NumberOf(Encoder.Register(seen, id), x) <= |seen|
    ensures x in seen && NumberOf(seen, x) == NumberOf(Encoder.Register(seen, id), x)
  {
    AnswerNumber(seen, id, x);
    NumberStays(seen, Encoder.Register(seen, id), x);
  }

  lemma AnswerRefWalked(h: Heap, id: Id, v: Value, seen: Seen, r: Walk<Code>)
    requires WellFormed(h) && Refers(h, v) && id !in seen && (v.Table? || v.Func?)
    requires r == WalkValue(h, v, Encoder.Register(seen, id)) && r.Walked?
    requires Count(r.code) == 0 && RefsKnown(r.code, |seen|)
    ensures v.id in seen && r == Walked(CRef(v.Func?, NumberOf(seen, v.id)), Encoder.Register(seen, id))
  {
    var s := Encoder.Register(seen, id);
    assert v.id in s && r == Walked(CRef(v.Func?, NumberOf(s, v.id)), s);
    EarlierNumber(seen, id, v.id);
  }

  /** What a reference comes back as. */
  lemma RefBuilt(h: Heap, env: Env, base: Id, v: Value, seen: Seen, st: State, b: Built<Value>)
    requires Related(h, env, base, seen, st) && (v.Table? || v.Func?) && v.id in seen
    requires b == Build(env, CRef(v.Func?, NumberOf(seen, v.id)), st)
    ensures ValueGood(h, env, base, v, seen, st, seen, b)
  {
    assert b == LookUp(NumberOf(seen, v.id), st);
    GoodSame(h, env, base, seen, st);
  }

  lemma AnswerRefCopied(h: Heap, env: Env, base: Id, id: Id, v: Value, seen: Seen, st: State, r: Walk<Code>,
                        b: Built<Value>)
    requires Setting(h, env, base) && Refers(h, v) && Related(h, env, base, seen, st) && id !in seen
    requires v.Table? || v.Func?
    requires r == WalkValue(h, v, Encoder.Register(seen, id)) && r.Walked? && b == Build(env, r.code, st)
    requires Count(r.code) == 0 && RefsKnown(r.code, |seen|)
    ensures r.seen == Encoder.Register(seen, id) && ValueGood(h, env, base, v, seen, st, seen, b)
  {
    AnswerRefWalked(h, id, v, seen, r);
    RefBuilt(h, env, base, v, seen, st, b);
  }

  lemma {:induction false} AnswerUserCopied(h: Heap, env: Env, base: Id, id: Id, u: Id, seen: Seen, st: State,
                                            r: Walk<Code>, b: Built<Value>)
    requires Setting(h, env, base) && Refers(h, User(u)) && Related(h, env, base, seen, st) && id !in seen
    requires r == WalkValue(h, User(u), Encoder.Register(seen, id)) && r.Walked? && b == Build(env, r.code, st)
    requires Count(r.code) == 0 && RefsKnown(r.code, |seen|)
    ensures r.seen == Encoder.Register(seen, id) && ValueGood(h, env, base, User(u), seen, st, seen, b)
    decreases Rank(User(u)) - 1, 2
  {
    var k := h[u].hook;
    var two := UserWalked(h, u, Encoder.Register(seen, id), r);
    SilentUser(two.code, |seen|);
    var b2 := BuildTwo(env, two.code.0, two.code.1, st);
    AnswerTwoCopied(h, env, base, id, k, seen, st, two, b2);
    UserBuilds(env, two.code.0, two.code.1, st);
    UserBuilt(env, two.code.0, two.code.1, st, b2);
    UserCalled(h, env, base, u, seen, st, seen, b2, b);
  }

  /** The whole answer. */
  lemma {:induction false} AnswerTwoCopied(h: Heap, env: Env, base: Id, id: Id, k: Hook, seen: Seen, st: State,
                                           r: Walk<(Code, Code)>, b: Built<(Value, Value)>)
    requires Setting(h, env, base) && HookOk(k) && HookRefers(h, k) && Related(h, env, base, seen, st) && id !in seen
    requires r == WalkTwo(h, k.cb, k.payload, Encoder.Register(seen, id)) && r.Walked?
    requires b == BuildTwo(env, r.code.0, r.code.1, st)
    requires Silent(r.code, |seen|)
    ensures r.seen == Encoder.Register(seen, id) && b.Built? && Good(h, env, base, seen, st, seen, b.st, {})
    ensures Image(h, env, seen, b.st.seen, k.cb, b.v.0) && Image(h, env, seen, b.st.seen, k.payload, b.v.1)
    decreases Rank(k.payload), 1
  {
    var s := Encoder.Register(seen, id);
    var ra := WalkValue(h, k.cb, s);
    var ba := Build(env, ra.code, st);
    AnswerCopied(h, env, base, id, k.cb, seen, st, ra, ba);
    var rb := WalkValue(h, k.payload, s);
    var bb := Build(env, rb.code, ba.st);
    AnswerCopied(h, env, base, id, k.payload, seen, ba.st, rb, bb);
    TwoGood(h, env, base, k.cb, k.payload, seen, st, seen, ba, seen, bb);
  }

  /** Registering an object on both sides keeps them in step. */
  lemma RegisterRelated(h: Heap, env: Env, base: Id, id: Id, w: Value, seen: Seen, st: State, t: State)
    requires Related(h, env, base, seen, st) && st.next <= t.next && Tidy(t) && t.seen == st.seen + [w]
    requires Slot(h, env, base, t.next, id, w)
    requires Copied(h[id]) ==> w.id == st.next
    ensures Related(h, env, base, seen + [id], t)
  {
    forall i | 0 <= i < |seen| + 1
      ensures Slot(h, env, base, t.next, (seen + [id])[i], t.seen[i])
    {
      if i < |seen| { assert Slot(h, env, base, st.next, seen[i], st.seen[i]); }
    }
    forall i | 0 <= i < |seen| && Copied(h[seen[i]]) && Copied(h[id])
      ensures t.seen[i].id != w.id
    {
      assert Slot(h, env, base, st.next, seen[i], st.seen[i]);
    }
  }

  lemma NewNumber(seen: Seen, id: Id)
    requires id !in seen
    ensures id in seen + [id] && NumberOf(seen + [id], id) == |seen| + 1
  {
    assert (seen + [id])[|seen|] == id;
    var n := NumberOf(seen + [id], id);
    assert (seen + [id])[n - 1] == id;
  }

  lemma TableAnswered(h: Heap, env: Env, base: Id, id: Id, seen: Seen, st: State, r: Walk<Code>, b: Built<Value>)
    requires Setting(h, env, base) && Refers(h, Table(id)) && id !in seen && Related(h, env, base, seen, st)
    requires h[id].hook.Codec?
    requires r == WalkTable(h, id, seen) && r.Walked? && b == Build(env, r.code, st)
    requires Readable(r.code, |seen|)
    ensures ValueGood(h, env, base, Table(id), seen, st, r.seen, b)
  {
    var two := HookWalked(h, id, seen, r);
    ReadableHook(two.code, |seen|);
    HookBuilds(env, two.code.0, two.code.1, st);
    HookAnswered(h, env, base, id, seen, st, two, b);
  }

  lemma HookAnswered(h: Heap, env: Env, base: Id, id: Id, seen: Seen, st: State, two: Walk<(Code, Code)>,
                     b: Built<Value>)
    requires Setting(h, env, base) && Refers(h, Table(id)) && id !in seen && Related(h, env, base, seen, st)
    requires HookOk(h[id].hook) && HookRefers(h, h[id].hook)
    requires two == WalkTwo(h, h[id].hook.cb, h[id].hook.payload, Encoder.Register(seen, id)) && two.Walked?
    requires Silent(two.code, |seen|) && b == BuildHooked(env, two.code.0, two.code.1, st)
    ensures ValueGood(h, env, base, Table(id), seen, st, two.seen, b)
  {
    var k, st0 := h[id].hook, st.(entered := st.entered + 1);
    RelatedGrown(h, env, base, seen, st, st0);
    var b2 := BuildTwo(env, two.code.0, two.code.1, st0);
    AnswerTwoCopied(h, env, base, id, k, seen, st0, two, b2);
    assert ObjFits(h, env, base, h[id]);
    var c := CallHook(env, b2.v.0, b2.v.1, b2.st);
    Called(h, env, base, k, seen, b2.st, b2.v.0, b2.v.1, c);
    GoodChain(h, env, base, seen, st0, seen, b2.st, seen, c.st, {});
    HookBuilt(env, two.code.0, two.code.1, st, b2, c);
    AnswerRegistered(h, env, base, id, c.v, seen, st, c.st, b.st);
  }

  lemma HookWalked(h: Heap, id: Id, seen: Seen, r: Walk<Code>) returns (two: Walk<(Code, Code)>)
    requires WellFormed(h) && Refers(h, Table(id)) && id !in seen && h[id].hook.Codec?
    requires r == WalkTable(h, id, seen) && r.Walked?
    ensures HookOk(h[id].hook) && HookRefers(h, h[id].hook)
    ensures two == WalkTwo(h, h[id].hook.cb, h[id].hook.payload, Encoder.Register(seen, id))
    ensures two.Walked? && r == Walked(CHook(two.code.0, two.code.1), two.seen)
  {
    assert ObjOk(h, id, h[id]);
    two := WalkTwo(h, h[id].hook.cb, h[id].hook.payload, Encoder.Register(seen, id));
  }

  lemma HookBuilt(env: Env, cb: Code, p: Code, st: State, b: Built<(Value, Value)>, c: Built<Value>)
    requires b == BuildTwo(env, cb, p, st.(entered := st.entered + 1)) && b.Built?
    requires c == CallHook(env, b.v.0, b.v.1, b.st) && c.Built?
    ensures BuildHooked(env, cb, p, st) == Built(c.v, Decoder.Register(c.st, c.v, st.entered + 1))
  {
  }

  lemma HookBuilds(env: Env, cb: Code, p: Code, st: State)
    ensures Build(env, CHook(cb, p), st) == BuildHooked(env, cb, p, st)
  {
  }

  lemma UserBuilt(env: Env, cb: Code, p: Code, st: State, b: Built<(Value, Value)>)
    requires b == BuildTwo(env, cb, p, st) && b.Built?
    ensures BuildUser(env, cb, p, st) == CallHook(env, b.v.0, b.v.1, b.st)
  {
  }

  lemma UserBuilds(env: Env, cb: Code, p: Code, st: State)
    ensures Build(env, CUser(cb, p), st) == BuildUser(env, cb, p, st)
  {
  }

  /** Once the callback and the payload are there, the decoder is called. */
  lemma UserCalled(h: Heap, env: Env, base: Id, id: Id, seen: Seen, st: State, t: Seen, b2: Built<(Value, Value)>,
                   b: Built<Value>)
    requires Setting(h, env, base) && Refers(h, User(id)) && HookOk(h[id].hook) && Related(h, env, base, seen, st)
    requires b2.Built? && Good(h, env, base, seen, st, t, b2.st, {})
    requires Image(h, env, t, b2.st.seen, h[id].hook.cb, b2.v.0)
    requires Image(h, env, t, b2.st.seen, h[id].hook.payload, b2.v.1)
    requires b == CallHook(env, b2.v.0, b2.v.1, b2.st)
    ensures ValueGood(h, env, base, User(id), seen, st, t, b)
  {
    assert ObjOk(h, id, h[id]) && ObjFits(h, env, base, h[id]);
    Called(h, env, base, h[id].hook, t, b2.st, b2.v.0, b2.v.1, b);
    GoodChain(h, env, base, seen, st, t, b2.st, t, b.st, {});
  }

  lemma UserWalked(h: Heap, id: Id, seen: Seen, r: Walk<Code>) returns (two: Walk<(Code, Code)>)
    requires WellFormed(h) && Refers(h, User(id)) && r == WalkValue(h, User(id), seen) && r.Walked?
    ensures HookOk(h[id].hook) && HookRefers(h, h[id].hook) && Descends(id, h[id].hook)
    ensures two == WalkTwo(h, h[id].hook.cb, h[id].hook.payload, seen)
    ensures two.Walked? && r == Walked(CUser(two.code.0, two.code.1), two.seen)
  {
    assert ObjOk(h, id, h[id]);
    two := WalkTwo(h, h[id].hook.cb, h[id].hook.payload, seen);
    assert r == WalkUser(h, id, seen);
  }

  /** The answer is registered under the number of the table. */
  lemma AnswerRegistered(h: Heap, env: Env, base: Id, id: Id, w: Value, seen: Seen, st: State, a: State, t: State)
    requires Setting(h, env, base) && Refers(h, Table(id)) && id !in seen && HookOk(h[id].hook)
    requires Related(h, env, base, seen, st) && Related(h, env, base, seen, a) && Grows(st, a, {}) && a.seen == st.seen
    requires AnswerImage(h, env, seen, a.seen, h[id].hook, w) && w != Nil
    requires t.heap == a.heap && t.next == a.next && t.seen == a.seen + [w] && a.marks <= t.marks
    ensures Good(h, env, base, seen, st, Encoder.Register(seen, id), t, {})
    ensures Image(h, env, Encoder.Register(seen, id), t.seen, Table(id), w)
  {
    var k, s := h[id].hook, Encoder.Register(seen, id);
    if Restorable(env, base, k) { RestoredAnswer(h, env, base, seen, a.seen, k, w); }
    RegisterRelated(h, env, base, id, w, seen, a, t);
    NewNumber(seen, id);
    AnswerLater(h, env, seen, a.seen, s, t.seen, k, w);
    assert s[|seen|] == id && t.seen[|seen|] == w;
    assert Filled(h, env, s, t.seen, t.heap, |seen|);
  }

  lemma TableCopied(h: Heap, env: Env, base: Id, id: Id, seen: Seen, st: State, r: Walk<Code>, b: Built<Value>,
                    left: set<Id>)
    requires Unmet(h, seen) <= left
    requires Setting(h, env, base) && Refers(h, Table(id)) && id !in seen && Related(h, env, base, seen, st)
    requires h[id].hook.NoHook?
    requires r == WalkTable(h, id, seen) && r.Walked? && b == Build(env, r.code, st)
    requires Readable(r.code, |seen|)
    ensures ValueGood(h, env, base, Table(id), seen, st, r.seen, b)
    decreases left, 0, 0, 0
  {
    Shrinks(h, seen, id);
    TablePairs(h, env, base, id);
    var e := WalkEntries(h, h[id].entries, seen + [id]);
    TableWalked(h, id, seen, r, e);
    ReadableTable(e.code, |seen|);
    var st1 := Enter(st, TableObj([], NoHook), Table(st.next));
    EnterTable(h, env, base, id, seen, st, st1);
    var c := BuildEntries(env, e.code, st.next, st1);
    PairsCopied(h, env, base, id, st.next, seen + [id], st1, e, c, Unmet(h, seen + [id]));
    TableDone(h, env, base, id, e.code, seen, st, st1, e.seen, c, b);
  }

  lemma TablePairs(h: Heap, env: Env, base: Id, id: Id)
    requires Setting(h, env, base) && Refers(h, Table(id)) && h[id].hook.NoHook?
    ensures Copyable(h, env, base, h[id].entries)
  {
    assert ObjOk(h, id, h[id]) && ObjFits(h, env, base, h[id]);
  }

  /** The pairs are read into the new table `t`. */
  lemma {:induction false} PairsCopied(h: Heap, env: Env, base: Id, id: Id, t: Id, seen: Seen, st: State,
                                       e: Walk<Codes>, c: Built<()>, left: set<Id>)
    requires Setting(h, env, base) && Refers(h, Table(id)) && h[id].hook.NoHook? && EntriesRefer(h, h[id].entries)
    requires Unmet(h, seen) <= left && Related(h, env, base, seen, st) && t < st.next && t in st.heap
    requires st.heap[t] == TableObj([], NoHook)
    requires e == WalkEntries(h, h[id].entries, seen) && e.Walked? && c == BuildEntries(env, e.code, t, st)
    requires ReadableEntries(e.code, |seen|)
    ensures c.Built? && Good(h, env, base, seen, st, e.seen, c.st, {t})
    ensures t in c.st.heap && c.st.heap[t].TableObj? && c.st.heap[t].hook.NoHook?
    ensures EntriesImage(h, env, e.seen, c.st.seen, h[id].entries, c.st.heap[t].entries)
    decreases left, 1, |h[id].entries| + 1
  {
    TablePairs(h, env, base, id);
    var es := h[id].entries;
    assert es[0..] == es && es[..|es|] == es && es[..0] == [];
    EntriesCopied(h, env, base, es, 0, t, seen, st, e, c, left);
  }

  /** Once its pairs are read, the table is copied. */
  lemma TableDone(h: Heap, env: Env, base: Id, id: Id, es: Codes, seen: Seen, st: State, a: State, t: Seen,
                  c: Built<()>, b: Built<Value>)
    requires Related(h, env, base, seen, st) && id !in seen && Refers(h, Table(id)) && h[id].hook.NoHook?
    requires a == Enter(st, TableObj([], NoHook), Table(st.next)) && Grows(st, a, {})
    requires c == BuildEntries(env, es, st.next, a) && b == Build(env, CTab(es), st)
    requires c.Built? && Good(h, env, base, seen + [id], a, t, c.st, {st.next})
    requires st.next in c.st.heap && c.st.heap[st.next].TableObj? && c.st.heap[st.next].hook.NoHook?
    requires EntriesImage(h, env, t, c.st.seen, h[id].entries, c.st.heap[st.next].entries)
    ensures ValueGood(h, env, base, Table(id), seen, st, t, b)
  {
    TableBuilt(env, es, st, c);
    TableFilled(h, env, id, Table(st.next), seen, st, t, c.st);
    ObjectDone(h, env, base, id, Table(st.next), seen, st, a, t, c.st);
  }

  lemma TableWalked(h: Heap, id: Id, seen: Seen, r: Walk<Code>, e: Walk<Codes>)
    requires WellFormed(h) && Refers(h, Table(id)) && id !in seen && h[id].hook.NoHook?
    requires EntriesRefer(h, h[id].entries) && e == WalkEntries(h, h[id].entries, seen + [id])
    requires r == WalkTable(h, id, seen) && r.Walked?
    ensures e.Walked? && r == Walked(CTab(e.code), e.seen)
  {
  }

  lemma TableBuilt(env: Env, es: Codes, st: State, c: Built<()>)
    requires c == BuildEntries(env, es, st.next, Enter(st, TableObj([], NoHook), Table(st.next))) && c.Built?
    ensures Build(env, CTab(es), st) == Built(Table(st.next), c.st)
  {
  }

  /** Entering a table on both sides. */
  lemma EnterTable(h: Heap, env: Env, base: Id, id: Id, seen: Seen, st: State, t: State)
    requires Related(h, env, base, seen, st) && id in h && h[id].TableObj? && h[id].hook.NoHook?
    requires t == Enter(st, TableObj([], NoHook), Table(st.next))
    ensures Grows(st, t, {}) && Related(h, env, base, seen + [id], t) && t.seen == st.seen + [Table(st.next)]
    ensures t.next == st.next + 1 && st.next in t.heap && t.heap[st.next] == TableObj([], NoHook)
    ensures EntriesImage(h, env, seen + [id], t.seen, [], [])
  {
    RegisterRelated(h, env, base, id, Table(st.next), seen, st, t);
    EnterGrows(st, TableObj([], NoHook), Table(st.next));
  }

  lemma EnterGrows(st: State, o: Obj, v: Value)
    requires Tidy(st)
    ensures Grows(st, Enter(st, o, v), {})
  {
  }

  lemma TableFilled(h: Heap, env: Env, id: Id, w: Value, seen: Seen, st: State, t: Seen, b: State)
    requires id in h && h[id].TableObj? && h[id].hook.NoHook? && w == Table(st.next)
    requires seen + [id] <= t && |t| <= |b.seen|
    requires |seen| == |st.seen| && st.seen + [w] <= b.seen
    requires st.next in b.heap && b.heap[st.next].TableObj? && b.heap[st.next].hook.NoHook?
    requires EntriesImage(h, env, t, b.seen, h[id].entries, b.heap[st.next].entries)
    ensures Filled(h, env, t, b.seen, b.heap, |seen|)
  {
    assert t[|seen|] == (seen + [id])[|seen|] == id;
    assert b.seen[|seen|] == (st.seen + [w])[|st.seen|] == w;
  }

  /** An object is copied once its contents are. */
  lemma ObjectDone(h: Heap, env: Env, base: Id, id: Id, w: Value, seen: Seen, st: State, a: State, t: Seen, b: State)
    requires Related(h, env, base, seen, st) && id !in seen && id in h && Copied(h[id])
    requires (w.Table? || w.Func?) && w.id == st.next
    requires Grows(st, a, {}) && a.seen == st.seen + [w]
    requires seen + [id] <= t && Related(h, env, base, t, b) && Grows(a, b, {st.next})
    requires Copies(h, env, seen + [id], a, t, b)
    requires Filled(h, env, t, b.seen, b.heap, |seen|)
    ensures Good(h, env, base, seen, st, t, b, {}) && Image(h, env, t, b.seen, ValueOf(h, id), w)
  {
    NewImage(h, env, id, w, seen, a, t, b.seen);
    OldKept(st, a, b, {st.next});
    forall i | |seen| <= i < |t|
      ensures Filled(h, env, t, b.seen, b.heap, i)
      ensures t[i] in h && Copied(h[t[i]]) && (b.seen[i].Table? || b.seen[i].Func?) ==> st.next <= b.seen[i].id
    {
    }
  }

  /** What was there before stays, if only new objects were written to. */
  lemma OldKept(st: State, a: State, b: State, fresh_: set<Id>)
    requires Tidy(st) && Grows(st, a, {}) && Grows(a, b, fresh_) && forall x :: x in fresh_ ==> st.next <= x
    ensures Grows(st, b, {})
  {
  }

  /** The object registered next after `seen` stands for itself. */
  lemma NewImage(h: Heap, env: Env, id: Id, w: Value, seen: Seen, a: State, t: Seen, copies: seq<Value>)
    requires id in h && Copied(h[id]) && id !in seen && seen + [id] <= t && |a.seen| == |seen| + 1
    requires a.seen[|seen|] == w && a.seen <= copies && |t| <= |copies|
    ensures t[|seen|] == id && copies[|seen|] == w && Image(h, env, t, copies, ValueOf(h, id), w)
  {
    assert t[|seen|] == (seen + [id])[|seen|] == id;
    assert copies[|seen|] == a.seen[|seen|];
    NewNumber(seen, id);
    NumberStays(seen + [id], t, id);
  }

  lemma FunctionCopied(h: Heap, env: Env, base: Id, id: Id, seen: Seen, st: State, r: Walk<Code>, b: Built<Value>,
                       left: set<Id>)
    requires Unmet(h, seen) <= left
    requires Setting(h, env, base) && Refers(h, Func(id)) && Accepts(h, Func(id)) && id !in seen
    requires Related(h, env, base, seen, st)
    requires r == WalkFunction(h, id, seen) && r.Walked? && b == Build(env, r.code, st)
    requires Readable(r.code, |seen|)
    ensures ValueGood(h, env, base, Func(id), seen, st, r.seen, b)
    decreases left, 0, 0, 0
  {
    Shrinks(h, seen, id);
    UpvalueTable(h, env, base, id);
    var e := WalkEntries(h, UpEntries(h[id].ups), seen + [id]);
    WalkFunctionStep(h, id, seen, r, e);
    ReadableFunction(h[id].code, e.code, |seen|);
    var st2 := Alloc(Enter(st, LuaFunc(h[id].code, []), Func(st.next)), TableObj([], NoHook));
    EnterFunction(h, env, base, id, seen, st, st2);
    var c := BuildEntries(env, e.code, st.next + 1, st2);
    UpvaluesCopied(h, env, base, id, st.next + 1, seen + [id], st2, e, c, Unmet(h, seen + [id]));
    FunctionDone(h, env, base, id, e.code, seen, st, st2, e.seen, c, b);
  }

  /** The upvalues are read into a new table `t`. */
  lemma {:induction false} UpvaluesCopied(h: Heap, env: Env, base: Id, id: Id, t: Id, seen: Seen, st: State,
                                          e: Walk<Codes>, c: Built<()>, left: set<Id>)
    requires Setting(h, env, base) && Refers(h, Func(id)) && Accepts(h, Func(id)) && |h[id].ups| <= MAXUPS
    requires Unmet(h, seen) <= left && Related(h, env, base, seen, st) && t < st.next && t in st.heap
    requires st.heap[t] == TableObj([], NoHook) && EntriesRefer(h, UpEntries(h[id].ups))
    requires e == WalkEntries(h, UpEntries(h[id].ups), seen) && e.Walked? && c == BuildEntries(env, e.code, t, st)
    requires ReadableEntries(e.code, |seen|)
    ensures c.Built? && Good(h, env, base, seen, st, e.seen, c.st, {t})
    ensures t in c.st.heap && c.st.heap[t].TableObj?
    ensures EntriesImage(h, env, e.seen, c.st.seen, UpEntries(h[id].ups), c.st.heap[t].entries)
    decreases left, 1, |UpEntries(h[id].ups)| + 1
  {
    UpvalueTable(h, env, base, id);
    var es := UpEntries(h[id].ups);
    assert es[0..] == es && es[..|es|] == es && es[..0] == [];
    EntriesCopied(h, env, base, es, 0, t, seen, st, e, c, left);
  }

  /** Once the table of upvalues is filled, so is the function. */
  lemma FunctionDone(h: Heap, env: Env, base: Id, id: Id, ups: Codes, seen: Seen, st: State, a: State,
                     t: Seen, c: Built<()>, b: Built<Value>)
    requires Setting(h, env, base) && Related(h, env, base, seen, st) && id !in seen
    requires Refers(h, Func(id)) && Accepts(h, Func(id)) && |h[id].ups| <= MAXUPS
    requires a == Alloc(Enter(st, LuaFunc(h[id].code, []), Func(st.next)), TableObj([], NoHook)) && Grows(st, a, {})
    requires c == BuildEntries(env, ups, st.next + 1, a) && b == Build(env, CFun(h[id].code, ups), st)
    requires c.Built? && Good(h, env, base, seen + [id], a, t, c.st, {st.next + 1})
    requires st.next + 1 in c.st.heap && c.st.heap[st.next + 1].TableObj?
    requires EntriesImage(h, env, t, c.st.seen, UpEntries(h[id].ups), c.st.heap[st.next + 1].entries)
    ensures ValueGood(h, env, base, Func(id), seen, st, t, b)
  {
    FunctionBuilt(env, h[id].code, ups, st, c);
    FunctionFilled(h, env, base, id, seen, st, a, t, c.st);
  }

  /** Entering a function on both sides, with an empty table for its upvalues. */
  lemma EnterFunction(h: Heap, env: Env, base: Id, id: Id, seen: Seen, st: State, t: State)
    requires Related(h, env, base, seen, st) && id in h && h[id].LuaFunc?
    requires t == Alloc(Enter(st, LuaFunc(h[id].code, []), Func(st.next)), TableObj([], NoHook))
    ensures Grows(st, t, {}) && Related(h, env, base, seen + [id], t)
    ensures t.next == st.next + 2 && t.seen == st.seen + [Func(st.next)] && st.next in t.heap
    ensures st.next + 1 in t.heap && t.heap[st.next + 1] == TableObj([], NoHook)
    ensures EntriesImage(h, env, seen + [id], t.seen, [], [])
  {
    RegisterRelated(h, env, base, id, Func(st.next), seen, st, t);
  }

  lemma FunctionBuilt(env: Env, code: seq<byte>, ups: Codes, st: State, c: Built<()>)
    requires c == BuildEntries(env, ups, st.next + 1,
                               Alloc(Enter(st, LuaFunc(code, []), Func(st.next)), TableObj([], NoHook)))
    requires c.Built? && st.next + 1 in c.st.heap && c.st.heap[st.next + 1].TableObj?
    ensures Build(env, CFun(code, ups), st)
            == Built(Func(st.next),
                     c.st.(heap := c.st.heap[st.next := LuaFunc(code, Upvalues(c.st.heap[st.next + 1].entries))]))
  {
  }

  /** The table of upvalues is a table like any other. */
  lemma UpvalueTable(h: Heap, env: Env, base: Id, id: Id)
    requires WellFormed(h) && Refers(h, Func(id)) && Accepts(h, Func(id))
    ensures |h[id].ups| <= MAXUPS
    ensures Copyable(h, env, base, UpEntries(h[id].ups))
  {
    assert ObjOk(h, id, h[id]);
    var es := UpEntries(h[id].ups);
    UpEntriesPairs(h, h[id].ups);
    NumbersApart(h, env, base, es);
  }

  lemma NumbersApart(h: Heap, env: Env, base: Id, es: seq<Entry>)
    requires forall i :: 0 <= i < |es| ==> es[i].key.Num?
    requires forall i, j :: 0 <= i < j < |es| ==> es[i].key != es[j].key
    ensures Apart(h, env, es) && KeysFit(h, env, base, es)
  {
  }

  /** The upvalues read back from their table complete the function. */
  lemma FunctionFilled(h: Heap, env: Env, base: Id, id: Id, seen: Seen, st: State, a: State, t: Seen, b: State)
    requires Setting(h, env, base) && Related(h, env, base, seen, st) && id !in seen
    requires Refers(h, Func(id)) && Accepts(h, Func(id)) && |h[id].ups| <= MAXUPS
    requires Grows(st, a, {}) && a.seen == st.seen + [Func(st.next)] && st.next in a.heap
    requires seen + [id] <= t && Related(h, env, base, t, b) && Grows(a, b, {st.next + 1})
    requires Copies(h, env, seen + [id], a, t, b) && a.next == st.next + 2
    requires st.next + 1 in b.heap && b.heap[st.next + 1].TableObj?
    requires EntriesImage(h, env, t, b.seen, UpEntries(h[id].ups), b.heap[st.next + 1].entries)
    ensures var c := b.(heap := b.heap[st.next := LuaFunc(h[id].code, Upvalues(b.heap[st.next + 1].entries))]);
            Good(h, env, base, seen, st, t, c, {}) && Image(h, env, t, c.seen, Func(id), Func(st.next))
  {
    var us := Upvalues(b.heap[st.next + 1].entries);
    UpvaluesBack(h, env, base, id, t, b, b.heap[st.next + 1].entries);
    FunctionGood(h, env, base, id, us, seen, st, a, t, b, b.(heap := b.heap[st.next := LuaFunc(h[id].code, us)]));
  }

  /** The upvalues are found again in the table they were read into. */
  lemma UpvaluesBack(h: Heap, env: Env, base: Id, id: Id, t: Seen, b: State, fs: seq<Entry>)
    requires Setting(h, env, base) && Related(h, env, base, t, b)
    requires Refers(h, Func(id)) && Accepts(h, Func(id)) && |h[id].ups| <= MAXUPS
    requires EntriesImage(h, env, t, b.seen, UpEntries(h[id].ups), fs)
    ensures ListImage(h, env, t, b.seen, h[id].ups, Upvalues(fs))
  {
    assert ObjOk(h, id, h[id]);
    IndicesDistinct(|h[id].ups|);
    var ups := h[id].ups;
    var es, keys := UpEntries(ups), Indices(|ups|);
    forall j | 0 <= j < |fs|
      ensures fs[j].key == keys[j] && fs[j].val != Nil && Image(h, env, t, b.seen, ups[j], fs[j].val)
    {
      assert Image(h, env, t, b.seen, es[j].key, fs[j].key) && Image(h, env, t, b.seen, es[j].val, fs[j].val);
      ImageMayBe(h, env, base, t, b, ups[j], fs[j].val);
    }
    ValuesBack(fs, keys, 0);
    assert keys[0..] == keys;
  }

  lemma FunctionGood(h: Heap, env: Env, base: Id, id: Id, us: seq<Value>, seen: Seen, st: State, a: State,
                     t: Seen, b: State, c: State)
    requires Related(h, env, base, seen, st) && id !in seen && id in h && h[id].LuaFunc?
    requires Grows(st, a, {}) && a.seen == st.seen + [Func(st.next)] && st.next in a.heap && a.next == st.next + 2
    requires seen + [id] <= t && Related(h, env, base, t, b) && Grows(a, b, {st.next + 1})
    requires Copies(h, env, seen + [id], a, t, b)
    requires ListImage(h, env, t, b.seen, h[id].ups, us)
    requires c == b.(heap := b.heap[st.next := LuaFunc(h[id].code, us)])
    ensures Good(h, env, base, seen, st, t, c, {}) && Image(h, env, t, c.seen, Func(id), Func(st.next))
  {
    NewImage(h, env, id, Func(st.next), seen, a, t, b.seen);
    OldKept(st, a, b, {st.next + 1});
    NewWritten(st, b, c, LuaFunc(h[id].code, us));
    forall i | |seen| <= i < |t|
      ensures Filled(h, env, t, c.seen, c.heap, i)
      ensures t[i] in h && Copied(h[t[i]]) && (c.seen[i].Table? || c.seen[i].Func?) ==> st.next <= c.seen[i].id
    {
      if i > |seen| { FilledLater(h, env, t, b, t, c, i); }
    }
  }

  /** Writing to an object that was not there before. */
  lemma NewWritten(st: State, b: State, c: State, o: Obj)
    requires Tidy(st) && Grows(st, b, {}) && st.next in b.heap && c == b.(heap := b.heap[st.next := o])
    ensures Grows(st, c, {})
  {
  }

  // Pairs

  lemma {:induction false} TwoCopied(h: Heap, env: Env, base: Id, k: Value, v: Value, seen: Seen, st: State,
                                     r: Walk<(Code, Code)>, b: Built<(Value, Value)>, left: set<Id>)
    requires Unmet(h, seen) <= left
    requires Setting(h, env, base) && Refers(h, k) && Refers(h, v) && Related(h, env, base, seen, st)
    requires r == WalkTwo(h, k, v, seen) && r.Walked? && b == BuildTwo(env, r.code.0, r.code.1, st)
    requires ReadableTwo(r.code, |seen|)
    ensures b.Built? && Good(h, env, base, seen, st, r.seen, b.st, {})
    ensures Image(h, env, r.seen, b.st.seen, k, b.v.0) && Image(h, env, r.seen, b.st.seen, v, b.v.1)
    decreases left, 0, Rank(k) + Rank(v) + 1, 0
  {
    var rk := WalkValue(h, k, seen);
    var bk := Build(env, rk.code, st);
    ValueCopied(h, env, base, k, seen, st, rk, bk, left);
    StaysMet(h, seen, rk.seen);
    var rv := WalkValue(h, v, rk.seen);
    ReadableSecond(r.code, |seen|, |rk.seen|);
    var bv := Build(env, rv.code, bk.st);
    ValueCopied(h, env, base, v, rk.seen, bk.st, rv, bv, left);
    TwoGood(h, env, base, k, v, seen, st, rk.seen, bk, rv.seen, bv);
  }

  lemma TwoGood(h: Heap, env: Env, base: Id, k: Value, v: Value, seen: Seen, st: State,
                s: Seen, bk: Built<Value>, t: Seen, bv: Built<Value>)
    requires Related(h, env, base, seen, st)
    requires ValueGood(h, env, base, k, seen, st, s, bk) && ValueGood(h, env, base, v, s, bk.st, t, bv)
    ensures Good(h, env, base, seen, st, t, bv.st, {})
    ensures Image(h, env, t, bv.st.seen, k, bk.v) && Image(h, env, t, bv.st.seen, v, bv.v)
  {
    GoodChain(h, env, base, seen, st, s, bk.st, t, bv.st, {});
    ImageLater(h, env, s, bk.st.seen, t, bv.st.seen, k, bk.v);
  }

  /** The pairs of a table that can be copied. */
  ghost predicate Copyable(h: Heap, env: Env, base: Id, es: seq<Entry>)
  {
    Pairs(h, es) && Apart(h, env, es) && KeysFit(h, env, base, es) && EntriesRefer(h, es)
  }

  /** Table `t` holds the images of the first `n` pairs. */
  ghost predicate Filling(h: Heap, env: Env, seen: Seen, st: State, es: seq<Entry>, n: nat, t: Id)
  {
    && n <= |es| && t < st.next && t in st.heap && st.heap[t].TableObj? && st.heap[t].hook.NoHook?
    && EntriesImage(h, env, seen, st.seen, es[..n], st.heap[t].entries)
  }

  /** The image of a further key of a table is new, so its pair goes to the end. */
  lemma PairAppended(h: Heap, env: Env, base: Id, es: seq<Entry>, n: nat, seen: Seen, st: State, fs: seq<Entry>,
                     key: Value, val: Value)
    requires Copyable(h, env, base, es) && n < |es| && Related(h, env, base, seen, st)
    requires EntriesImage(h, env, seen, st.seen, es[..n], fs)
    requires Image(h, env, seen, st.seen, es[n].key, key) && Image(h, env, seen, st.seen, es[n].val, val)
    ensures key != Nil && Store(fs, key, val) == fs + [Entry(key, val)]
    ensures EntriesImage(h, env, seen, st.seen, es[..n + 1], fs + [Entry(key, val)])
  {
    ImageMayBe(h, env, base, seen, st, es[n].key, key);
    ImageMayBe(h, env, base, seen, st, es[n].val, val);
    forall i | 0 <= i < |fs| ensures fs[i].key != key {
      assert es[..n][i] == es[i] && Image(h, env, seen, st.seen, es[..n][i].key, fs[i].key);
      ImagesDiffer(h, env, base, seen, st, es[i].key, es[n].key, fs[i].key);
    }
    StoreNew(fs, key, val);
    assert es[..n + 1] == es[..n] + [es[n]];
  }

  ghost predicate EntriesGood(h: Heap, env: Env, base: Id, es: seq<Entry>, t: Id, seen: Seen, st: State,
                              u: Seen, b: Built<()>)
  {
    b.Built? && Good(h, env, base, seen, st, u, b.st, {t}) && Filling(h, env, u, b.st, es, |es|, t)
  }

  lemma EntriesChain(h: Heap, env: Env, base: Id, es: seq<Entry>, t: Id, seen: Seen, st: State, s: Seen, a: State,
                     u: Seen, b: Built<()>)
    requires Related(h, env, base, seen, st) && t < st.next && Good(h, env, base, seen, st, s, a, {t})
    requires EntriesGood(h, env, base, es, t, s, a, u, b)
    ensures EntriesGood(h, env, base, es, t, seen, st, u, b)
  {
    GoodChain(h, env, base, seen, st, s, a, u, b.st, {t});
  }

  /** The pairs from the n-th on are read into table `t`. */
  lemma {:induction false} EntriesCopied(h: Heap, env: Env, base: Id, es: seq<Entry>, n: nat, t: Id, seen: Seen,
                                         st: State, r: Walk<Codes>, b: Built<()>, left: set<Id>)
    requires Unmet(h, seen) <= left && Setting(h, env, base) && Copyable(h, env, base, es)
    requires Related(h, env, base, seen, st) && Filling(h, env, seen, st, es, n, t)
    requires r == WalkEntries(h, es[n..], seen) && r.Walked? && b == BuildEntries(env, r.code, t, st)
    requires ReadableEntries(r.code, |seen|)
    ensures EntriesGood(h, env, base, es, t, seen, st, r.seen, b)
    decreases left, 1, |es| - n
  {
    if n == |es| {
      assert Good(h, env, base, seen, st, seen, st, {t});
    } else {
      assert es[n..][0] == es[n] && es[n..][1..] == es[n + 1..];
      var two := WalkTwo(h, es[n].key, es[n].val, seen);
      var b2 := BuildTwo(env, two.code.0, two.code.1, st);
      var rest := WalkEntries(h, es[n + 1..], two.seen);
      WalkEntriesStep(h, es[n..], seen, r, two, rest);
      ReadablePair(two.code, rest.code, |seen|, |two.seen|);
      TwoCopied(h, env, base, es[n].key, es[n].val, seen, st, two, b2, left);
      EntryStored(h, env, base, es, n, t, seen, st, two.seen, b2);
      StaysMet(h, seen, two.seen);
      var st2 := StorePair(b2.st, t, b2.v.0, b2.v.1);
      var b3 := BuildEntries(env, rest.code, t, st2);
      EntriesCopied(h, env, base, es, n + 1, t, two.seen, st2, rest, b3, left);
      PairBuilt(env, two.code, rest.code, t, st, b2, b3);
      EntriesChain(h, env, base, es, t, seen, st, two.seen, st2, rest.seen, b3);
    }
  }

  lemma PairBuilt(env: Env, two: (Code, Code), rest: Codes, t: Id, st: State, b: Built<(Value, Value)>, c: Built<()>)
    requires b == BuildTwo(env, two.0, two.1, st) && b.Built? && b.v.0 != Nil
    requires t in b.st.heap && b.st.heap[t].TableObj?
    requires c == BuildEntries(env, rest, t, StorePair(b.st, t, b.v.0, b.v.1))
    ensures BuildEntries(env, Pair(two.0, two.1, rest), t, st) == c
  {
  }

  /** One turn of the decoder's loop over the pairs of table `t`. */
  lemma EntryStored(h: Heap, env: Env, base: Id, es: seq<Entry>, n: nat, t: Id, seen: Seen, st: State,
                    u: Seen, b: Built<(Value, Value)>)
    requires Copyable(h, env, base, es) && n < |es|
    requires Related(h, env, base, seen, st) && Filling(h, env, seen, st, es, n, t)
    requires b.Built? && Good(h, env, base, seen, st, u, b.st, {})
    requires Image(h, env, u, b.st.seen, es[n].key, b.v.0) && Image(h, env, u, b.st.seen, es[n].val, b.v.1)
    ensures t in b.st.heap && b.st.heap[t].TableObj? && b.v.0 != Nil
    ensures var c := StorePair(b.st, t, b.v.0, b.v.1);
            Good(h, env, base, seen, st, u, c, {t}) && Filling(h, env, u, c, es, n + 1, t)
  {
    var fs := st.heap[t].entries;
    EntriesImageLater(h, env, seen, st.seen, u, b.st.seen, es[..n], fs);
    PairAppended(h, env, base, es, n, u, b.st, fs, b.v.0, b.v.1);
    StoredGood(h, env, base, t, seen, st, u, b.st, StorePair(b.st, t, b.v.0, b.v.1));
  }

  lemma StoredGood(h: Heap, env: Env, base: Id, t: Id, s: Seen, a: State, u: Seen, b: State, c: State)
    requires Related(h, env, base, s, a) && Good(h, env, base, s, a, u, b, {}) && t in a.heap && t < a.next
    requires a.heap[t].TableObj? && t in b.heap && b.heap[t].TableObj? && t in c.heap && c.heap[t].TableObj?
    requires c == b.(heap := b.heap[t := c.heap[t]])
    ensures Good(h, env, base, s, a, u, c, {t})
  {
    forall i | |s| <= i < |u|
      ensures Filled(h, env, u, c.seen, c.heap, i)
      ensures u[i] in h && Copied(h[u[i]]) && (c.seen[i].Table? || c.seen[i].Func?) ==> a.next <= c.seen[i].id
    {
      FilledLater(h, env, u, b, u, c, i);
    }
  }
}
