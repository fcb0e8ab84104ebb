/** The numbers the encoder and the decoder give to tables and functions. The encoder
    counts an object when it enters it (src/luv_codec.c:172, 208). The decoder counts a plain
    table or a function when it enters it (src/luv_codec.c:341, 362) but a hooked table only
    after its payload (src/luv_codec.c:337). */
module Numbering {
  import opened LuaHeap
  import opened Wire
  import opened Encoder

  /** Every back reference in `c` names a number the decoder has given out by the time it
      reads it, if it has given out `n` when it starts on `c`. */
  predicate RefsKnown(c: Code, n: nat)
  {
    match c
    case CRef(_, r) => 1 <= r <= n
    case CTab(es) => EntryRefsKnown(es, n + 1)
    case CFun(_, ups) => EntryRefsKnown(ups, n + 1)
    case CHook(cb, p) => RefsKnown(cb, n) && RefsKnown(p, n + Count(cb))
    case CUser(cb, p) => RefsKnown(cb, n) && RefsKnown(p, n + Count(cb))
    case _ => true
  }

  predicate EntryRefsKnown(es: Codes, n: nat)
  {
    es.Pair? ==>
      && RefsKnown(es.key, n) && RefsKnown(es.val, n + Count(es.key))
      && EntryRefsKnown(es.rest, n + Count(es.key) + Count(es.val))
  }

  predicate Scalar(v: Value) { !v.Table? && !v.Func? && !v.User? && !v.Thread? }

  /** A hook that answers with the name of a decoder and a plain value, as all hooks of the
      library itself do. */
  predicate Plain(k: Hook) { k.Codec? ==> k.cb.Str? && Scalar(k.payload) }

  /** The hooks on tables are plain; hooks on userdata may answer anything. */
  predicate PlainTableHooks(h: Heap)
  {
    forall id :: id in h && h[id].TableObj? ==> Plain(h[id].hook)
  }

  lemma ScalarWalk(h: Heap, v: Value, seen: Seen)
    requires WellFormed(h) && Scalar(v)
    ensures var r := WalkValue(h, v, seen); r.Walked? && r.seen == seen && Count(r.code) == 0
  {
  }

  // The same in the encoder's terms

  /** No back reference in `c` names one of the last `open` numbers given out before it, when the encoder
      has given out `n` and is answering `open` table hooks as it starts on `c`. */
  predicate NoLateRef(c: Code, n: nat, open: nat)
  {
    match c
    case CRef(_, r) => 1 <= r && r + open <= n
    case CTab(es) => NoLateEntryRef(es, n + 1, open)
    case CFun(_, ups) => NoLateEntryRef(ups, n + 1, open)
    case CHook(cb, p) => NoLateRef(cb, n + 1, open + 1) && NoLateRef(p, n + 1 + Count(cb), open + 1)
    case CUser(cb, p) => NoLateRef(cb, n, open) && NoLateRef(p, n + Count(cb), open)
    case _ => true
  }

  predicate NoLateEntryRef(es: Codes, n: nat, open: nat)
  {
    es.Pair? ==>
      && NoLateRef(es.key, n, open) && NoLateRef(es.val, n + Count(es.key), open)
      && NoLateEntryRef(es.rest, n + Count(es.key) + Count(es.val), open)
  }

  /** The decoder is behind the encoder by the hooked tables whose hooks are still being answered. */
  lemma {:induction false} KnownExactly(c: Code, n: nat, open: nat)
    ensures RefsKnown(c, n) <==> NoLateRef(c, n + open, open)
    decreases c
  {
    match c
    case CTab(es) => EntryKnownExactly(es, n + 1, open);
    case CFun(_, ups) => EntryKnownExactly(ups, n + 1, open);
    case CHook(cb, p) =>
      KnownExactly(cb, n, open + 1);
      KnownExactly(p, n + Count(cb), open + 1);
    case CUser(cb, p) =>
      KnownExactly(cb, n, open);
      KnownExactly(p, n + Count(cb), open);
    case _ =>
  }

  lemma {:induction false} EntryKnownExactly(es: Codes, n: nat, open: nat)
    ensures EntryRefsKnown(es, n) <==> NoLateEntryRef(es, n + open, open)
    decreases es
  {
    if es.Pair? {
      KnownExactly(es.key, n, open);
      KnownExactly(es.val, n + Count(es.key), open);
      EntryKnownExactly(es.rest, n + Count(es.key) + Count(es.val), open);
    }
  }

  // Lockstep

  /** The objects written out in `c`, named by the numbers the encoder gives them when it starts
      on `c` after number `n`, in the order in which the decoder registers them. */
  function DecoderOrder(c: Code, n: nat): (s: seq<nat>)
    ensures |s| == Count(c)
  {
    match c
    case CTab(es) => [n + 1] + DecoderOrderEntries(es, n + 1)
    case CFun(_, ups) => [n + 1] + DecoderOrderEntries(ups, n + 1)
    case CHook(cb, p) => DecoderOrder(cb, n + 1) + DecoderOrder(p, n + 1 + Count(cb)) + [n + 1]
    case CUser(cb, p) => DecoderOrder(cb, n) + DecoderOrder(p, n + Count(cb))
    case _ => []
  }

  function DecoderOrderEntries(es: Codes, n: nat): (s: seq<nat>)
    ensures |s| == CountEntries(es)
  {
    match es
    case Done => []
    case Pair(k, v, rest) =>
      DecoderOrder(k, n) + DecoderOrder(v, n + Count(k))
      + DecoderOrderEntries(rest, n + Count(k) + Count(v))
  }

  /** No table hook inside `c` has an object inside its answer. */
  predicate HooksEmpty(c: Code)
  {
    match c
    case CTab(es) => HooksEmptyEntries(es)
    case CFun(_, ups) => HooksEmptyEntries(ups)
    case CHook(cb, p) => Count(cb) + Count(p) == 0
    case CUser(cb, p) => HooksEmpty(cb) && HooksEmpty(p)
    case _ => true
  }

  predicate HooksEmptyEntries(es: Codes)
  {
    es.Pair? ==> HooksEmpty(es.key) && HooksEmpty(es.val) && HooksEmptyEntries(es.rest)
  }

  /** The objects are registered in the order of their numbers, which follow `n`. */
  predicate InStep(s: seq<nat>, n: nat) { forall i :: 0 <= i < |s| ==> s[i] == n + 1 + i }

  lemma InStepConcat(s: seq<nat>, t: seq<nat>, n: nat)
    ensures InStep(s + t, n) <==> InStep(s, n) && InStep(t, n + |s|)
  {
    var u := s + t;
    if InStep(u, n) {
      forall i | 0 <= i < |s| ensures s[i] == n + 1 + i { assert u[i] == s[i]; }
      forall i | 0 <= i < |t| ensures t[i] == n + |s| + 1 + i { assert u[|s| + i] == t[i]; }
    }
  }

  lemma InStepOne(x: nat, n: nat)
    ensures InStep([x], n) <==> x == n + 1
  {
    assert InStep([x], n) ==> [x][0] == n + 1;
  }

  /** The decoder gives every object the number the encoder gave it exactly when no
      table hook answers with a table or function of its own. */
  lemma {:induction false} LockstepExactly(c: Code, n: nat)
    ensures InStep(DecoderOrder(c, n), n) <==> HooksEmpty(c)
    decreases c
  {
    match c
    case CTab(es) =>
      LockstepEntries(es, n + 1);
      InStepOne(n + 1, n);
      InStepConcat([n + 1], DecoderOrderEntries(es, n + 1), n);
    case CFun(_, ups) =>
      LockstepEntries(ups, n + 1);
      InStepOne(n + 1, n);
      InStepConcat([n + 1], DecoderOrderEntries(ups, n + 1), n);
    case CHook(cb, p) =>
      LockstepHook(DecoderOrder(cb, n + 1) + DecoderOrder(p, n + 1 + Count(cb)), n);
    case CUser(cb, p) =>
      LockstepExactly(cb, n);
      LockstepExactly(p, n + Count(cb));
      InStepConcat(DecoderOrder(cb, n), DecoderOrder(p, n + Count(cb)), n);
    case _ =>
  }

  lemma LockstepHook(s: seq<nat>, n: nat)
    ensures InStep(s + [n + 1], n) <==> |s| == 0
  {
    InStepConcat(s, [n + 1], n);
    InStepOne(n + 1, n + |s|);
  }

  lemma {:induction false} LockstepEntries(es: Codes, n: nat)
    ensures InStep(DecoderOrderEntries(es, n), n) <==> HooksEmptyEntries(es)
    decreases es
  {
    match es
    case Done =>
    case Pair(k, v, rest) =>
      LockstepExactly(k, n);
      LockstepExactly(v, n + Count(k));
      LockstepEntries(rest, n + Count(k) + Count(v));
      var a, b := DecoderOrder(k, n), DecoderOrder(v, n + Count(k));
      var c := DecoderOrderEntries(rest, n + Count(k) + Count(v));
      var all := OrderOfPair(k, v, rest, n, a, b, c);
      LockstepPair(k, v, rest, n, a, b, c, all);
  }

  lemma LockstepPair(k: Code, v: Code, rest: Codes, n: nat, a: seq<nat>, b: seq<nat>, c: seq<nat>, all: seq<nat>)
    requires all == a + b + c && |a| == Count(k) && |b| == Count(v)
    requires InStep(a, n) <==> HooksEmpty(k)
    requires InStep(b, n + Count(k)) <==> HooksEmpty(v)
    requires InStep(c, n + Count(k) + Count(v)) <==> HooksEmptyEntries(rest)
    ensures InStep(all, n) <==> HooksEmptyEntries(Pair(k, v, rest))
  {
    InStepThree(a, b, c, all, n, n + Count(k), n + Count(k) + Count(v));
  }

  lemma OrderOfPair(k: Code, v: Code, rest: Codes, n: nat, a: seq<nat>, b: seq<nat>, c: seq<nat>)
    returns (all: seq<nat>)
    requires a == DecoderOrder(k, n) && b == DecoderOrder(v, n + Count(k))
    requires c == DecoderOrderEntries(rest, n + Count(k) + Count(v))
    ensures all == DecoderOrderEntries(Pair(k, v, rest), n) && all == a + b + c
    ensures |a| == Count(k) && |b| == Count(v)
  {
    all := a + b + c;
  }

  lemma InStepThree(a: seq<nat>, b: seq<nat>, c: seq<nat>, all: seq<nat>, n: nat, i: nat, j: nat)
    requires all == a + b + c && i == n + |a| && j == i + |b|
    ensures InStep(all, n) <==> InStep(a, n) && InStep(b, i) && InStep(c, j)
  {
    InStepConcat(a, b, n);
    InStepConcat(a + b, c, n);
  }

  /** `s` holds each number from `n + 1` to `n + |s|` once. */
  predicate Permutes(s: seq<nat>, n: nat)
  {
    && (forall i :: 0 <= i < |s| ==> n + 1 <= s[i] <= n + |s|)
    && (forall i, j :: 0 <= i < j < |s| ==> s[i] != s[j])
  }

  lemma InStepPermutes(s: seq<nat>, n: nat)
    requires InStep(s, n)
    ensures Permutes(s, n)
  {
  }

  lemma PermutesConcat(s: seq<nat>, t: seq<nat>, n: nat)
    requires Permutes(s, n) && Permutes(t, n + |s|)
    ensures Permutes(s + t, n)
  {
  }

  lemma PermutesRotate(s: seq<nat>, n: nat)
    requires Permutes(s, n + 1)
    ensures Permutes([n + 1] + s, n) && Permutes(s + [n + 1], n)
  {
  }

  /** Whatever the hooks answer, both sides give out the same numbers: the two orders
      differ only in who gets which. */
  lemma {:induction false} SameNumbers(c: Code, n: nat)
    ensures Permutes(DecoderOrder(c, n), n)
    decreases Size(c), 0
  {
    match c
    case CTab(es) =>
      SameNumbersEntries(es, n + 1);
      PermutesRotate(DecoderOrderEntries(es, n + 1), n);
    case CFun(_, ups) =>
      SameNumbersEntries(ups, n + 1);
      PermutesRotate(DecoderOrderEntries(ups, n + 1), n);
    case CHook(cb, p) =>
      SameNumbersTwo(cb, p, n + 1);
      PermutesRotate(DecoderOrder(cb, n + 1) + DecoderOrder(p, n + 1 + Count(cb)), n);
    case CUser(cb, p) =>
      SameNumbersTwo(cb, p, n);
    case _ =>
  }

  lemma {:induction false} SameNumbersTwo(a: Code, b: Code, n: nat)
    ensures Permutes(DecoderOrder(a, n) + DecoderOrder(b, n + Count(a)), n)
    decreases Size(a) + Size(b), 0
  {
    SameNumbers(a, n);
    SameNumbers(b, n + Count(a));
    PermutesConcat(DecoderOrder(a, n), DecoderOrder(b, n + Count(a)), n);
  }

  lemma {:induction false} SameNumbersEntries(es: Codes, n: nat)
    ensures Permutes(DecoderOrderEntries(es, n), n)
    decreases SizeEntries(es), 0
  {
    match es
    case Done =>
    case Pair(k, v, rest) =>
      var s := DecoderOrder(k, n) + DecoderOrder(v, n + Count(k));
      var t := DecoderOrderEntries(rest, n + Count(k) + Count(v));
      SameNumbersTwo(k, v, n);
      SameNumbersEntries(rest, n + Count(k) + Count(v));
      PermutesConcat(s, t, n);
      assert DecoderOrderEntries(es, n) == s + t;
  }
}
