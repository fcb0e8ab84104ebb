/** The encoder as src/luv_codec.c runs it: one pass that appends to a growing buffer and
    updates the table of objects met. */
module EncoderRun {
  import opened Options
  import opened Uleb128
  import opened ByteBuffer
  import opened LuaHeap
  import opened Wire
  import opened Encoder
  import opened EncoderReach
  import opened Codec
  import opened Numbering

  function ScalarCode(v: Value): (c: Code)
    requires Scalar(v)
  {
    match v
    case Nil => CNil
    case Bool(b) => CBool(b)
    case Light(w) => CLight(w)
    case Num(w) => CNum(w)
    case Str(s) => CStr(s)
  }

  /** The numbers in `seen` are those of the objects in `order`. */
  ghost predicate Mirrors(seen: map<Id, nat>, order: Seen)
  {
    && |seen| == |order|
    && (forall id :: id in seen <==> id in order)
    && (forall id :: id in order ==> seen[id] == NumberOf(order, id))
  }

  lemma MirrorsRegister(seen: map<Id, nat>, order: Seen, id: Id)
    requires Mirrors(seen, order) && id !in seen
    ensures Mirrors(seen[id := |seen| + 1], Encoder.Register(order, id))
  {
    forall x | x in order ensures NumberOf(order + [id], x) == NumberOf(order, x) {
      NumberStays(order, order + [id], x);
    }
    assert (order + [id])[|order|] == id;
    assert (order + [id])[NumberOf(order + [id], id) - 1] == id;
  }

  lemma FunctionBytes(before: seq<byte>, code: seq<byte>, ups: Codes, middle: seq<byte>, after: seq<byte>)
    requires middle == (before + [TFUNCTION, TVAL]) + (Number(|code|) + code)
    requires after == middle + EntryBytes(ups)
    ensures after == before + Bytes(CFun(code, ups))
  {
  }

  lemma RefBytes(before: seq<byte>, func: bool, ref: nat, middle: seq<byte>, after: seq<byte>)
    requires middle == before + [if func then TFUNCTION else TTABLE, TREF] && after == middle + Number(ref)
    ensures after == before + Bytes(CRef(func, ref))
  {
    Append(before, middle, after, [if func then TFUNCTION else TTABLE, TREF], Number(ref));
  }

  lemma TableBytes(before: seq<byte>, es: Codes, middle: seq<byte>, after: seq<byte>)
    requires middle == before + [TTABLE, TVAL] && after == middle + EntryBytes(es)
    ensures after == before + Bytes(CTab(es))
  {
  }

  lemma HookBytes(before: seq<byte>, cb: Code, p: Code, middle: seq<byte>, after: seq<byte>)
    requires middle == before + [TTABLE, TUSR] && after == middle + (Bytes(cb) + Bytes(p))
    ensures after == before + Bytes(CHook(cb, p))
  {
  }

  lemma UserBytes(before: seq<byte>, cb: Code, p: Code, middle: seq<byte>, after: seq<byte>)
    requires middle == before + [TUSERDATA, TUSR] && after == middle + (Bytes(cb) + Bytes(p))
    ensures after == before + Bytes(CUser(cb, p))
  {
  }

  class Run {
    const h: Heap
    const buf: Buffer
    /** The number of each table and function met (`seen`). */
    var seen: map<Id, nat>
    /** The same objects in the order they were met. */
    ghost var order: Seen
    /** What the buffer holds. */
    ghost var written: seq<byte>

    ghost predicate Valid()
      reads this, buf, buf.base
    {
      WellFormed(h) && Mirrors(seen, order) && buf.Valid() && buf.Contents() == written
    }

    constructor (h: Heap)
      requires WellFormed(h)
      ensures Valid() && order == [] && written == [] && this.h == h
      ensures fresh(buf) && fresh(buf.base)
    {
      this.h := h;
      buf := new Buffer();
      seen := map[];
      order := [];
      written := [];
    }

    /** `encoder_seen`. */
    method Register(id: Id)
      requires Valid() && id !in seen
      modifies this`seen, this`order
      ensures Valid() && order == Encoder.Register(old(order), id)
    {
      MirrorsRegister(seen, order, id);
      seen := seen[id := |seen| + 1];
      order := order + [id];
    }

    method Put(bs: seq<byte>)
      requires Valid()
      modifies this`written, buf, buf.base
      ensures Valid() && written == old(written) + bs
      ensures buf.base == old(buf.base) || fresh(buf.base)
    {
      buf.Write(bs);
      written := written + bs;
    }

    method PutNumber(n: nat)
      requires Valid()
      modifies this`written, buf, buf.base
      ensures Valid() && written == old(written) + Number(n)
      ensures buf.base == old(buf.base) || fresh(buf.base)
    {
      buf.WriteUleb128(n % WORD);
      written := written + Number(n);
    }

    /** A length, then that many bytes. */
    method PutString(s: seq<byte>)
      requires Valid()
      modifies this`written, buf, buf.base
      ensures Valid() && written == old(written) + (Number(|s|) + s)
      ensures buf.base == old(buf.base) || fresh(buf.base)
    {
      PutNumber(|s|);
      Put(s);
    }

    /** A type byte, then the bytes of the value. */
    method PutTagged(t: seq<byte>, bs: seq<byte>)
      requires Valid()
      modifies this`written, buf, buf.base
      ensures Valid() && written == old(written) + (t + bs)
      ensures buf.base == old(buf.base) || fresh(buf.base)
    {
      Put(t);
      Put(bs);
    }

    /** A value with nothing inside: nil, boolean, number, string, light pointer. */
    method PutScalar(v: Value, ghost c: Code)
      requires Valid() && Scalar(v) && c == ScalarCode(v)
      modifies this`written, buf, buf.base
      ensures Valid() && written == old(written) + Bytes(c)
      ensures buf.base == old(buf.base) || fresh(buf.base)
    {
      match v
      case Nil => Put([TNIL]);
      case Bool(b) => Put([TBOOLEAN, if b then 1 else 0]);
      case Light(w) => PutTagged([TLIGHTUSERDATA], w);
      case Num(w) => PutTagged([TNUMBER], w);
      case Str(s) =>
        Put([TSTRING]);
        ghost var middle := written;
        PutString(s);
        Append(old(written), middle, written, [TSTRING], Number(|s|) + s);
    }

    method PutRef(func: bool, ref: nat)
      requires Valid()
      modifies this`written, buf, buf.base
      ensures Valid() && written == old(written) + Bytes(CRef(func, ref))
      ensures buf.base == old(buf.base) || fresh(buf.base)
    {
      Put([if func then TFUNCTION else TTABLE, TREF]);
      ghost var middle := written;
      PutNumber(ref);
      RefBytes(old(written), func, ref, middle, written);
    }

    /** What a call has appended and registered, or the value it stopped at. */
    ghost predicate Done(before: seq<byte>, r: Option<Value>, w: Walk<Code>)
      reads this
    {
      match w
      case Error(at) => r == Some(at)
      case Walked(c, s) => r == None && order == s && written == before + Bytes(c)
    }

    /** `encode_value`. The objects in `left` are those the walk may still enter. */
    method EncodeValue(v: Value, ghost left: set<Id>) returns (r: Option<Value>)
      requires Valid() && Unmet(h, order) <= left && Refers(h, v)
      modifies this, buf, buf.base
      ensures Valid() && (buf.base == old(buf.base) || fresh(buf.base))
      ensures Done(old(written), r, WalkValue(h, v, old(order)))
      decreases left, 0, Rank(v), 1
    {
      r := None;
      match v
      case Table(id) =>
        if id in seen { PutRef(false, seen[id]); } else { r := EncodeTableObject(id, left); }
      case Func(id) =>
        if id in seen { PutRef(true, seen[id]); }
        else if !Accepts(h, v) { r := Some(v); }
        else { r := EncodeFunction(id, left); }
      case User(id) =>
        if !HookOk(h[id].hook) { r := Some(v); } else { r := EncodeUser(id, left); }
      case Thread(_) => r := Some(v);
      case _ => PutScalar(v, ScalarCode(v));
    }

    method EncodeTableObject(id: Id, ghost left: set<Id>) returns (r: Option<Value>)
      requires Valid() && Unmet(h, order) <= left && Refers(h, Table(id)) && id !in seen
      modifies this, buf, buf.base
      ensures Valid() && (buf.base == old(buf.base) || fresh(buf.base))
      ensures Done(old(written), r, WalkTable(h, id, old(order)))
      decreases left, 0, 0, 0
    {
      assert ObjOk(h, id, h[id]);
      Shrinks(h, order, id);
      Register(id);
      var k := h[id].hook;
      if k.NoHook? {
        Put([TTABLE, TVAL]);
        ghost var w, middle := WalkEntries(h, h[id].entries, order), written;
        r := EncodeTable(h[id].entries, Unmet(h, order));
        if r == None { TableBytes(old(written), w.code, middle, written); }
      } else if HookOk(k) {
        Put([TTABLE, TUSR]);
        ghost var w, middle := WalkTwo(h, k.cb, k.payload, order), written;
        r := EncodeTwo(k.cb, k.payload, Unmet(h, order));
        if r == None { HookBytes(old(written), w.code.0, w.code.1, middle, written); }
      } else {
        r := Some(Table(id));
      }
    }

    method EncodeFunction(id: Id, ghost left: set<Id>) returns (r: Option<Value>)
      requires Valid() && Unmet(h, order) <= left && Refers(h, Func(id)) && Accepts(h, Func(id)) && id !in seen
      modifies this, buf, buf.base
      ensures Valid() && (buf.base == old(buf.base) || fresh(buf.base))
      ensures Done(old(written), r, WalkFunction(h, id, old(order)))
      decreases left, 0, 0, 0
    {
      assert ObjOk(h, id, h[id]);
      Shrinks(h, order, id);
      Register(id);
      r := EncodeCode(h[id].code, UpEntries(h[id].ups), Unmet(h, order));
    }

    /** The code of a function, then the table of its upvalues. */
    method EncodeCode(code: seq<byte>, es: seq<Entry>, ghost left: set<Id>) returns (r: Option<Value>)
      requires Valid() && Unmet(h, order) <= left && EntriesRefer(h, es)
      modifies this, buf, buf.base
      ensures Valid() && (buf.base == old(buf.base) || fresh(buf.base))
      ensures match WalkEntries(h, es, old(order))
              case Error(at) => r == Some(at)
              case Walked(c, s) => r == None && order == s && written == old(written) + Bytes(CFun(code, c))
      decreases left, 1, 3
    {
      ghost var w := WalkEntries(h, es, order);
      Put([TFUNCTION, TVAL]);
      PutString(code);
      ghost var middle := written;
      r := EncodeTable(es, left);
      if r == None { FunctionBytes(old(written), code, w.code, middle, written); }
    }

    method EncodeUser(id: Id, ghost left: set<Id>) returns (r: Option<Value>)
      requires Valid() && Unmet(h, order) <= left && Refers(h, User(id)) && HookOk(h[id].hook)
      modifies this, buf, buf.base
      ensures Valid() && (buf.base == old(buf.base) || fresh(buf.base))
      ensures Done(old(written), r, WalkUser(h, id, old(order)))
      decreases left, 0, Rank(User(id)), 0
    {
      assert ObjOk(h, id, h[id]);
      var k := h[id].hook;
      Put([TUSERDATA, TUSR]);
      ghost var w, middle := WalkTwo(h, k.cb, k.payload, order), written;
      r := EncodeTwo(k.cb, k.payload, left);
      if r == None { UserBytes(old(written), w.code.0, w.code.1, middle, written); }
    }

    method EncodeTwo(a: Value, b: Value, ghost left: set<Id>) returns (r: Option<Value>)
      requires Valid() && Unmet(h, order) <= left && Refers(h, a) && Refers(h, b)
      modifies this, buf, buf.base
      ensures Valid() && (buf.base == old(buf.base) || fresh(buf.base))
      ensures match WalkTwo(h, a, b, old(order))
              case Error(at) => r == Some(at)
              case Walked(c, s) =>
                r == None && order == s && written == old(written) + (Bytes(c.0) + Bytes(c.1))
      decreases left, 0, Rank(a) + Rank(b) + 1, 0
    {
      ghost var wa := WalkValue(h, a, order);
      r := EncodeValue(a, left);
      if r == None {
        StaysMet(h, old(order), order);
        ghost var wb, middle := WalkValue(h, b, order), written;
        r := EncodeValue(b, left);
        if r == None { Append(old(written), middle, written, Bytes(wa.code), Bytes(wb.code)); }
      }
    }

    /** `encode_table`: the pairs one by one, then a nil. */
    method EncodeTable(es: seq<Entry>, ghost left: set<Id>) returns (r: Option<Value>)
      requires Valid() && Unmet(h, order) <= left && EntriesRefer(h, es)
      modifies this, buf, buf.base
      ensures Valid() && (buf.base == old(buf.base) || fresh(buf.base))
      ensures match WalkEntries(h, es, old(order))
              case Error(at) => r == Some(at)
              case Walked(c, s) => r == None && order == s && written == old(written) + EntryBytes(c)
      decreases left, 1, 2
    {
      ghost var all := WalkEntries(h, es, order);
      r := EncodePairs(es, all, left);
      if r == None { Put([TNIL]); }
    }

    method EncodePairs(es: seq<Entry>, ghost all: Walk<Codes>, ghost left: set<Id>) returns (r: Option<Value>)
      requires Valid() && Unmet(h, order) <= left && EntriesRefer(h, es) && all == WalkEntries(h, es, order)
      modifies this, buf, buf.base
      ensures Valid() && (buf.base == old(buf.base) || fresh(buf.base))
      ensures r == None ==> Resumes(all, old(written), Walked(Codes.Done, order), written)
      ensures r != None ==> all == Error(r.value)
      decreases left, 1, 1
    {
      var i := 0;
      ghost var before, rest := written, es;
      r := None;
      while i < |es| && r == None
        invariant i <= |es| && Valid() && (buf.base == old(buf.base) || fresh(buf.base))
        invariant r == None ==> Unmet(h, order) <= left && rest == es[i..]
        invariant r == None ==> Resumes(all, before, WalkEntries(h, rest, order), written)
        invariant r != None ==> all == Error(r.value)
      {
        r := EncodeEntry(es, i, all, before, left);
        i := i + 1;
        rest := es[i..];
      }
      if r == None { PairsDone(h, rest, order, all, before, written); }
    }

    /** One turn of the loop. */
    method EncodeEntry(es: seq<Entry>, i: nat, ghost all: Walk<Codes>, ghost before: seq<byte>, ghost left: set<Id>)
      returns (r: Option<Value>)
      requires Valid() && Unmet(h, order) <= left && EntriesRefer(h, es) && i < |es|
      requires Resumes(all, before, WalkEntries(h, es[i..], order), written)
      modifies this, buf, buf.base
      ensures Valid() && (buf.base == old(buf.base) || fresh(buf.base))
      ensures r == None ==> Unmet(h, order) <= left && Resumes(all, before, WalkEntries(h, es[i + 1..], order), written)
      ensures r != None ==> all == Error(r.value)
      decreases left, 1, 0
    {
      var e := es[i];
      assert es[i..][1..] == es[i + 1..] && es[i..][0] == e;
      ghost var two, mid, now := WalkTwo(h, e.key, e.val, order), written, WalkEntries(h, es[i..], order);
      r := EncodeTwo(e.key, e.val, left);
      if r == None {
        StaysMet(h, old(order), order);
        ResumesStep(all, before, now, mid, two, WalkEntries(h, es[i + 1..], order), written);
      }
    }
  }

  /** Part way through a table, the rest of the walk completes the whole. */
  ghost predicate Resumes(all: Walk<Codes>, before: seq<byte>, rest: Walk<Codes>, now: seq<byte>)
  {
    match rest
    case Error(at) => all == Error(at)
    case Walked(c, s) =>
      all.Walked? && all.seen == s && before + EntryBytes(all.code) == now + EntryBytes(c)
  }

  /** No pair is left to encode. */
  lemma PairsDone(h: Heap, none: seq<Entry>, order: Seen, all: Walk<Codes>, before: seq<byte>, now: seq<byte>)
    requires WellFormed(h) && EntriesRefer(h, none) && |none| == 0
    requires Resumes(all, before, WalkEntries(h, none, order), now)
    ensures Resumes(all, before, Walked(Codes.Done, order), now)
  {
  }

  lemma Regroup(a: seq<byte>, b: seq<byte>, c: seq<byte>, d: seq<byte>)
    ensures (a + (b + c)) + d == a + (b + (c + d))
  {
  }

  lemma ResumesStep(all: Walk<Codes>, before: seq<byte>, rest: Walk<Codes>, now: seq<byte>,
                    two: Walk<(Code, Code)>, next: Walk<Codes>, then_: seq<byte>)
    requires Resumes(all, before, rest, now) && two.Walked?
    requires rest == match next
                     case Error(at) => Error(at)
                     case Walked(c, s) => Walked(Pair(two.code.0, two.code.1, c), s)
    requires then_ == now + (Bytes(two.code.0) + Bytes(two.code.1))
    ensures Resumes(all, before, next, then_)
  {
    if next.Walked? {
      Regroup(now, Bytes(two.code.0), Bytes(two.code.1), EntryBytes(next.code));
    }
  }

  ghost predicate TupleResumes(all: Walk<seq<Code>>, before: seq<byte>, rest: Walk<seq<Code>>, now: seq<byte>)
  {
    match rest
    case Error(at) => all == Error(at)
    case Walked(cs, s) =>
      all.Walked? && all.seen == s && before + TupleBytes(all.code) == now + TupleBytes(cs)
  }

  lemma TupleResumesStep(all: Walk<seq<Code>>, before: seq<byte>, rest: Walk<seq<Code>>, now: seq<byte>,
                         one: Walk<Code>, next: Walk<seq<Code>>, then_: seq<byte>)
    requires TupleResumes(all, before, rest, now) && one.Walked?
    requires rest == match next case Error(at) => Error(at) case Walked(cs, s) => Walked([one.code] + cs, s)
    requires then_ == now + Bytes(one.code)
    ensures TupleResumes(all, before, next, then_)
  {
    if next.Walked? {
      assert rest.code[0] == one.code && rest.code[1..] == next.code;
      assert TupleBytes(rest.code) == Bytes(one.code) + TupleBytes(next.code);
    }
  }

  /** Nothing is left to encode. */
  lemma TupleDone(h: Heap, none: seq<Value>, order: Seen, all: Walk<seq<Code>>, before: seq<byte>, now: seq<byte>)
    requires WellFormed(h) && TupleRefers(h, none) && |none| == 0
    requires TupleResumes(all, before, WalkTuple(h, none, order), now)
    ensures all.Walked? && now == before + TupleBytes(all.code)
  {
    var r := WalkTuple(h, none, order);
    assert r.code == [] && now + TupleBytes(r.code) == now;
  }

  /** The values of a tuple, one by one. */
  method EncodeValues(run: Run, vs: seq<Value>, ghost all: Walk<seq<Code>>) returns (r: Option<Value>)
    requires run.Valid() && TupleRefers(run.h, vs) && all == WalkTuple(run.h, vs, run.order)
    modifies run, run.buf, run.buf.base
    ensures run.Valid() && (run.buf.base == old(run.buf.base) || fresh(run.buf.base))
    ensures r == None ==> all.Walked? && run.written == old(run.written) + TupleBytes(all.code)
    ensures r != None ==> all == Error(r.value)
  {
    var i := 0;
    ghost var before := run.written;
    r := None;
    assert vs[0..] == vs;
    while i < |vs| && r == None
      invariant i <= |vs| && run.Valid()
      invariant run.buf.base == old(run.buf.base) || fresh(run.buf.base)
      invariant r == None ==> TupleResumes(all, before, WalkTuple(run.h, vs[i..], run.order), run.written)
      invariant r != None ==> all == Error(r.value)
    {
      r := EncodeNext(run, vs, i, all, before);
      i := i + 1;
    }
    if r == None { TupleDone(run.h, vs[i..], run.order, all, before, run.written); }
  }

  method EncodeNext(run: Run, vs: seq<Value>, i: nat, ghost all: Walk<seq<Code>>, ghost before: seq<byte>)
    returns (r: Option<Value>)
    requires run.Valid() && TupleRefers(run.h, vs) && i < |vs|
    requires TupleResumes(all, before, WalkTuple(run.h, vs[i..], run.order), run.written)
    modifies run, run.buf, run.buf.base
    ensures run.Valid() && (run.buf.base == old(run.buf.base) || fresh(run.buf.base))
    ensures r == None ==> TupleResumes(all, before, WalkTuple(run.h, vs[i + 1..], run.order), run.written)
    ensures r != None ==> all == Error(r.value)
  {
    assert vs[i..][1..] == vs[i + 1..] && vs[i..][0] == vs[i];
    ghost var one, now := WalkValue(run.h, vs[i], run.order), run.written;
    ghost var rest := WalkTuple(run.h, vs[i..], run.order);
    r := run.EncodeValue(vs[i], Unmet(run.h, run.order));
    if r == None {
      TupleResumesStep(all, before, rest, now, one, WalkTuple(run.h, vs[i + 1..], run.order), run.written);
    }
  }

  /** `luvL_codec_encode`: the number of values, then the values, into an empty buffer. */
  method Encode(h: Heap, vs: seq<Value>) returns (e: Encoded)
    requires WellFormed(h) && TupleRefers(h, vs)
    ensures e == EncodeTuple(h, vs)
  {
    var run := new Run(h);
    run.PutNumber(|vs|);
    assert run.written == Number(|vs|);
    ghost var all := WalkTuple(h, vs, []);
    var r := EncodeValues(run, vs, all);
    if r.Some? {
      e := EncodeError(r.value);
    } else {
      assert run.written == Number(|vs|) + TupleBytes(all.code);
      e := Encoded(run.buf.base[..run.buf.head]);
    }
  }
}
