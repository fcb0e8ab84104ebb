/** Reading from a stream: the callback and the calls of src/luv_stream.c, and the callback after
    closing of src/luv_object.c. */
module Stream {
  import opened Options
  import opened Uleb128
  import opened Scheduler

  /** What a call of `read` returns. A reader roused by the end of closing gets `Woken`: nothing was
      put on its stack. */
  datatype Answer = Chunk(bytes: seq<byte>) | Eof | Failed | Refused | Woken

  datatype Delivery = Delivery(to: Sid, answer: Answer)

  /** The stream object. `started` is the flag `LUV_OSTARTED`, `reading` what libuv does; `pending` is the
      buffer `buf` when its base is set, cut to `count` bytes, and `size` its length `buf.len`; `rouse` is
      the list of waiting readers. The last three fields are the history: the bytes that came in, the
      states that called `read`, and the answers they got. */
  datatype Reader = Reader(
    started: bool,
    reading: bool,
    closing: bool,
    closed: bool,
    pending: Option<seq<byte>>,
    size: nat,
    rouse: seq<Sid>,
    received: seq<byte>,
    callers: seq<Sid>,
    log: seq<Delivery>)

  function NewReader(): Reader { Reader(false, false, false, false, None, 0, [], [], [], []) }

  /** Calls by Lua code, and callbacks of libuv. `refused` says that `uv_read_start` would fail, `more` that
      libuv goes on reading after an end of file. */
  datatype Op =
    | Read(s: Sid, len: nat, refused: bool)
    | Start(refused: bool)
    | Stop
    | Receive(bytes: seq<byte>)
    | ReceiveEof(more: bool)
    | ReceiveError
    | CloseDone

  function Told(r: Reader, s: Sid, a: Answer): Reader { r.(log := r.log + [Delivery(s, a)]) }

  /** `luvL_stream_start` and `luvL_stream_stop`: libuv is asked only when the flag changes. */
  function Started(r: Reader, refused: bool): Reader
  {
    if r.started then r else r.(started := true, reading := !refused)
  }

  function Stopped(r: Reader): Reader
  {
    if r.started then r.(started := false, reading := false) else r
  }

  /** `luv_stream_read`. A start that libuv refuses goes unnoticed. */
  function DoRead(r: Reader, s: Sid, len: nat, refused: bool): Reader
  {
    var q := r.(callers := r.callers + [s]);
    if r.closing then Told(q, s, Refused)
    else if r.pending.Some? then Told(q.(pending := None, size := 0), s, Chunk(r.pending.value))
    else Started(q.(size := len), refused).(rouse := r.rouse + [s])
  }

  /** `_read_cb` with bytes: for the first reader, or else to be kept. */
  function DoReceive(r: Reader, bytes: seq<byte>): Reader
  {
    var q := r.(received := r.received + bytes);
    if r.rouse == [] then Stopped(q).(pending := Some(bytes))
    else
      var t := Told(q.(rouse := r.rouse[1..]), r.rouse[0], Chunk(bytes));
      if bytes == [] then Stopped(t) else t
  }

  function DoReceiveEof(r: Reader, more: bool): Reader
  {
    var q := r.(reading := r.reading && more);
    if r.rouse == [] then Stopped(q) else Told(q.(rouse := r.rouse[1..]), r.rouse[0], Eof)
  }

  function DoReceiveError(r: Reader): Reader
  {
    if r.rouse == [] then Stopped(r)
    else Told(Stopped(r).(rouse := r.rouse[1..], closing := true), r.rouse[0], Failed)
  }

  /** `start` called from Lua; when libuv refuses, the stream is closed. */
  function DoStart(r: Reader, refused: bool): Reader
  {
    if !r.started && refused then r.(reading := false, closing := true) else Started(r, refused)
  }

  /** `luvL_object_close_cb`. */
  function DoCloseDone(r: Reader): Reader
  {
    var q := r.(closed := true);
    if r.rouse == [] then q else Told(q.(rouse := r.rouse[1..]), r.rouse[0], Woken)
  }

  /** libuv calls back only while it reads on an open handle, with at most as many bytes as the block
      holds that the allocation callback gave it; and once when a handle has been closed. */
  predicate Enabled(r: Reader, op: Op)
  {
    match op
    case Receive(bytes) => r.reading && !r.closing && |bytes| <= r.size
    case ReceiveEof(_) => r.reading && !r.closing
    case ReceiveError => r.reading && !r.closing
    case CloseDone => r.closing && !r.closed
    case _ => true
  }

  function Step(r: Reader, op: Op): Reader
  {
    match op
    case Read(s, len, refused) => DoRead(r, s, len, refused)
    case Start(refused) => DoStart(r, refused)
    case Stop => Stopped(r)
    case Receive(bytes) => DoReceive(r, bytes)
    case ReceiveEof(more) => DoReceiveEof(r, more)
    case ReceiveError => DoReceiveError(r)
    case CloseDone => DoCloseDone(r)
  }

  predicate Runs(r: Reader, ops: seq<Op>)
    decreases |ops|
  {
    ops != [] ==> Enabled(r, ops[0]) && Runs(Step(r, ops[0]), ops[1..])
  }

  function Exec(r: Reader, ops: seq<Op>): Reader
    decreases |ops|
  {
    if ops == [] then r else Exec(Step(r, ops[0]), ops[1..])
  }

  /** The bytes handed out, in order. */
  function Delivered(log: seq<Delivery>): seq<byte>
  {
    if log == [] then []
    else Delivered(log[..|log| - 1]) + (var a := log[|log| - 1].answer; if a.Chunk? then a.bytes else [])
  }

  function Pending(r: Reader): seq<byte> { if r.pending.Some? then r.pending.value else [] }

  function Answered(log: seq<Delivery>): seq<Sid>
  {
    if log == [] then [] else Answered(log[..|log| - 1]) + [log[|log| - 1].to]
  }

  lemma DeliveredMore(log: seq<Delivery>, d: Delivery)
    ensures Delivered(log + [d]) == Delivered(log) + (if d.answer.Chunk? then d.answer.bytes else [])
    ensures Answered(log + [d]) == Answered(log) + [d.to]
  {
    assert (log + [d])[..|log|] == log;
  }

  // What every run keeps

  /** No reader waits while a buffer is pending, and libuv reads only while the flag is set. */
  predicate Sound(r: Reader) { (r.pending.Some? ==> r.rouse == []) && (r.reading ==> r.started) }

  lemma StepSound(r: Reader, op: Op)
    requires Sound(r)
    ensures Sound(Step(r, op))
  {
  }

  // Field by field

  /** The call has to wait: the stream is open and has no bytes kept. */
  predicate Waits(r: Reader, op: Op) { op.Read? && !r.closing && r.pending.None? }

  /** The call takes the bytes kept. */
  predicate TakesKept(r: Reader, op: Op) { op.Read? && !r.closing && r.pending.Some? }

  predicate IsCallback(op: Op) { op.Receive? || op.ReceiveEof? || op.ReceiveError? || op.CloseDone? }

  /** Reading is stopped: by a call, by an error, by an empty read, or because nobody waits for what has come. */
  predicate Stops(r: Reader, op: Op)
  {
    || op.Stop? || op.ReceiveError? || (op.Receive? && (r.rouse == [] || op.bytes == []))
    || (op.ReceiveEof? && r.rouse == [])
  }

  /** What a step does to the buffer, the lists and the history. */
  lemma StepBuffer(r: Reader, op: Op)
    ensures var t := Step(r, op);
            && t.pending == (if op.Receive? && r.rouse == [] then Some(op.bytes)
                             else if TakesKept(r, op) then None else r.pending)
            && t.size == (if Waits(r, op) then op.len else if TakesKept(r, op) then 0 else r.size)
            && t.rouse == (if Waits(r, op) then r.rouse + [op.s]
                           else if IsCallback(op) && r.rouse != [] then r.rouse[1..] else r.rouse)
            && t.received == r.received + (if op.Receive? then op.bytes else [])
            && t.callers == r.callers + if op.Read? then [op.s] else []
  {
    assert r.received + [] == r.received && r.callers + [] == r.callers;
  }

  /** What a step does to the flags, and to what libuv does. */
  lemma StepFlags(r: Reader, op: Op)
    requires Sound(r)
    ensures var t := Step(r, op);
            && t.closed == (r.closed || op.CloseDone?)
            && t.closing == (r.closing || (op.ReceiveError? && r.rouse != [])
                             || (op.Start? && !r.started && op.refused))
            && t.started == (if Stops(r, op) then false
                             else r.started || Waits(r, op) || (op.Start? && !op.refused))
            && t.reading == (if Stops(r, op) then false
                             else if !r.started && (Waits(r, op) || op.Start?) then !op.refused
                             else r.reading && (op.ReceiveEof? ==> op.more))
  {
  }

  /** Received bytes are delivered bytes followed by the pending buffer. */
  predicate Conserved(r: Reader) { r.received == Delivered(r.log) + Pending(r) }

  /** The step replaces a pending buffer that holds bytes: a callback that finds no reader. */
  predicate Overwrites(r: Reader, op: Op)
  {
    op.Receive? && r.rouse == [] && Pending(r) != []
  }

  predicate Overwritten(r: Reader, ops: seq<Op>)
    decreases |ops|
  {
    ops != [] && (Overwrites(r, ops[0]) || Overwritten(Step(r, ops[0]), ops[1..]))
  }

  /** How many bytes were received that are neither delivered nor pending. */
  function Lost(r: Reader): int { |r.received| - |Delivered(r.log)| - |Pending(r)| }

  lemma ReadLoses(r: Reader, s: Sid, len: nat, refused: bool)
    ensures var t := DoRead(r, s, len, refused); Lost(t) == Lost(r) && (Conserved(r) ==> Conserved(t))
  {
    var t := DoRead(r, s, len, refused);
    if r.closing {
      assert t.pending == r.pending;
      NoMoreLoses(r, t, Delivery(s, Refused));
    } else if r.pending.Some? {
      DeliveredMore(r.log, Delivery(s, Chunk(r.pending.value)));
      assert Pending(t) == [] && Delivered(t.log) + [] == Delivered(t.log);
    }
  }

  /** An answer without bytes neither delivers nor loses any. */
  lemma NoMoreLoses(r: Reader, t: Reader, d: Delivery)
    requires !d.answer.Chunk? && t.log == r.log + [d] && t.received == r.received && t.pending == r.pending
    ensures Lost(t) == Lost(r) && (Conserved(r) ==> Conserved(t))
  {
    DeliveredMore(r.log, d);
    assert Delivered(r.log) + [] == Delivered(r.log);
  }

  lemma ReceiveLoses(r: Reader, bytes: seq<byte>)
    requires Sound(r)
    ensures var t := DoReceive(r, bytes);
            && Lost(t) == Lost(r) + (if r.rouse == [] then |Pending(r)| else 0)
            && (Conserved(r) && (r.rouse != [] || Pending(r) == []) ==> Conserved(t))
  {
    if r.rouse != [] {
      DeliveredMore(r.log, Delivery(r.rouse[0], Chunk(bytes)));
      assert Pending(r) == [] && Delivered(r.log) + [] == Delivered(r.log);
      assert Delivered(r.log) + bytes + [] == Delivered(r.log) + bytes;
    } else if Pending(r) == [] {
      assert Delivered(r.log) + [] == Delivered(r.log);
    }
  }

  lemma StepLoses(r: Reader, op: Op)
    requires Sound(r)
    ensures Lost(Step(r, op)) == Lost(r) + if Overwrites(r, op) then |Pending(r)| else 0
    ensures Conserved(r) && !Overwrites(r, op) ==> Conserved(Step(r, op))
  {
    match op
    case Read(s, len, refused) => ReadLoses(r, s, len, refused);
    case Receive(bytes) => ReceiveLoses(r, bytes);
    case ReceiveEof(_) => if r.rouse != [] { NoMoreLoses(r, Step(r, op), Delivery(r.rouse[0], Eof)); }
    case ReceiveError => if r.rouse != [] { NoMoreLoses(r, Step(r, op), Delivery(r.rouse[0], Failed)); }
    case CloseDone => if r.rouse != [] { NoMoreLoses(r, Step(r, op), Delivery(r.rouse[0], Woken)); }
    case _ =>
  }

  /** A run keeps every byte exactly when no callback replaces a pending buffer. */
  lemma {:induction false} ConservedExactly(r: Reader, ops: seq<Op>)
    requires Sound(r) && Lost(r) >= 0 && (Lost(r) == 0 <==> Conserved(r))
    ensures Sound(Exec(r, ops)) && Lost(Exec(r, ops)) >= Lost(r)
    ensures Conserved(Exec(r, ops)) <==> Conserved(r) && !Overwritten(r, ops)
    decreases |ops|
  {
    if ops != [] {
      StepLoses(r, ops[0]);
      StepSound(r, ops[0]);
      ConservedExactly(Step(r, ops[0]), ops[1..]);
    }
  }

  /** Without direct calls of `start`, a pending buffer means that reading is stopped. */
  predicate Held(r: Reader) { r.pending.Some? ==> !r.started }

  predicate NoStart(ops: seq<Op>) { forall i :: 0 <= i < |ops| ==> !ops[i].Start? }

  lemma {:induction false} NothingOverwritten(r: Reader, ops: seq<Op>)
    requires Held(r) && Sound(r) && Runs(r, ops) && NoStart(ops)
    ensures !Overwritten(r, ops) && Held(Exec(r, ops))
    decreases |ops|
  {
    if ops != [] {
      StepSound(r, ops[0]);
      NothingOverwritten(Step(r, ops[0]), ops[1..]);
    }
  }

  /** Byte conservation over every run in which only `read` starts the stream. */
  lemma ByteConservation(ops: seq<Op>)
    requires Runs(NewReader(), ops) && NoStart(ops)
    ensures var r := Exec(NewReader(), ops);
            r.received == Delivered(r.log) + Pending(r) && (r.pending.Some? ==> !r.started && r.rouse == [])
  {
    NothingOverwritten(NewReader(), ops);
    ConservedExactly(NewReader(), ops);
  }

  /** A direct `start` while a buffer is pending can lose it. */
  lemma DirectStartLoses(s: Sid)
    ensures var ops := [Op.Read(s, 1, false), Receive([1]), Receive([2]), Start(false), Receive([3])];
            Runs(NewReader(), ops) && !Conserved(Exec(NewReader(), ops))
  {
    var a, b, c, d, e := Op.Read(s, 1, false), Receive([1]), Receive([2]), Start(false), Receive([3]);
    var r0 := NewReader();
    var r1 := Step(r0, a);
    var r2 := Step(r1, b);
    var r3 := Step(r2, c);
    var r4 := Step(r3, d);
    assert r1.reading && r1.size == 1 && r1.rouse == [s];
    assert r2.reading && r2.size == 1 && r2.rouse == [];
    assert r4.reading && r4.size == 1 && r4.rouse == [] && r4.pending == Some([2]);
    assert [a, b, c, d, e][1..] == [b, c, d, e] && [b, c, d, e][1..] == [c, d, e];
    assert [c, d, e][1..] == [d, e] && [d, e][1..] == [e];
    assert Overwrites(r4, e) && Overwritten(r4, [e]) && Overwritten(r3, [d, e]);
    assert Overwritten(r2, [c, d, e]) && Overwritten(r1, [b, c, d, e]);
    ConservedExactly(r0, [a, b, c, d, e]);
    assert Runs(Step(r4, e), []) && Runs(r4, [e]) && Runs(r3, [d, e]) && Runs(r2, [c, d, e]) && Runs(r1, [b, c, d, e]);
  }

  // Readers

  /** Every call of `read` is answered at most once, and none is forgotten; while the stream is open,
      they are answered in the order in which they were made. */
  predicate Accounted(r: Reader)
  {
    && multiset(r.callers) == multiset(Answered(r.log)) + multiset(r.rouse)
    && (r.closing || r.callers == Answered(r.log) + r.rouse)
  }

  lemma Shift(a: seq<Sid>, l: seq<Sid>)
    requires l != []
    ensures (a + [l[0]]) + l[1..] == a + l
    ensures multiset(a + [l[0]]) + multiset(l[1..]) == multiset(a) + multiset(l)
  {
    calc {
      multiset(a) + multiset(l);
      multiset(a + l);
      { assert (a + [l[0]]) + l[1..] == a + l; }
      multiset((a + [l[0]]) + l[1..]);
    }
  }

  lemma HeadAnswered(r: Reader, t: Reader, a: Answer)
    requires Accounted(r) && r.rouse != [] && t.log == r.log + [Delivery(r.rouse[0], a)]
    requires t.rouse == r.rouse[1..] && t.callers == r.callers && (r.closing ==> t.closing)
    ensures Accounted(t)
  {
    DeliveredMore(r.log, Delivery(r.rouse[0], a));
    Shift(Answered(r.log), r.rouse);
  }

  lemma CallerAnswered(r: Reader, t: Reader, s: Sid, a: Answer)
    requires Accounted(r) && t.log == r.log + [Delivery(s, a)] && t.callers == r.callers + [s]
    requires t.rouse == r.rouse && t.closing == r.closing && (r.closing || r.rouse == [])
    ensures Accounted(t)
  {
    DeliveredMore(r.log, Delivery(s, a));
    if !r.closing { assert Answered(r.log) + [] == Answered(r.log) && Answered(t.log) + [] == Answered(t.log); }
  }

  lemma CallerParked(r: Reader, t: Reader, s: Sid)
    requires Accounted(r) && t.log == r.log && t.callers == r.callers + [s]
    requires t.rouse == r.rouse + [s] && t.closing == r.closing
    ensures Accounted(t)
  {
    assert Answered(r.log) + (r.rouse + [s]) == (Answered(r.log) + r.rouse) + [s];
  }

  lemma ReadAccounted(r: Reader, s: Sid, len: nat, refused: bool, t: Reader)
    requires Sound(r) && Accounted(r) && t == DoRead(r, s, len, refused)
    ensures Accounted(t)
  {
    if r.closing {
      CallerAnswered(r, t, s, Refused);
    } else if r.pending.Some? {
      CallerAnswered(r, t, s, Chunk(r.pending.value));
    } else {
      CallerParked(r, t, s);
    }
  }

  lemma SameAccounted(r: Reader, t: Reader)
    requires Accounted(r) && t.callers == r.callers && t.log == r.log && t.rouse == r.rouse && (r.closing ==> t.closing)
    ensures Accounted(t)
  {
  }

  /** The head of the list gets `a`, if there is one. */
  lemma ServedAccounted(r: Reader, t: Reader, a: Answer)
    requires Accounted(r) && t.callers == r.callers && (r.closing ==> t.closing)
    requires r.rouse == [] ==> t.log == r.log && t.rouse == []
    requires r.rouse != [] ==> t.log == r.log + [Delivery(r.rouse[0], a)] && t.rouse == r.rouse[1..]
    ensures Accounted(t)
  {
    if r.rouse == [] { SameAccounted(r, t); } else { HeadAnswered(r, t, a); }
  }

  lemma StepAccounted(r: Reader, op: Op)
    requires Sound(r) && Accounted(r)
    ensures Accounted(Step(r, op))
  {
    var t := Step(r, op);
    match op
    case Read(s, len, refused) => ReadAccounted(r, s, len, refused, t);
    case Receive(bytes) => ServedAccounted(r, t, Chunk(bytes));
    case ReceiveEof(_) => ServedAccounted(r, t, Eof);
    case ReceiveError => ServedAccounted(r, t, Failed);
    case CloseDone => ServedAccounted(r, t, Woken);
    case _ => SameAccounted(r, t);
  }

  lemma {:induction false} ReadersAccounted(r: Reader, ops: seq<Op>)
    requires Sound(r) && Accounted(r)
    ensures Accounted(Exec(r, ops))
    decreases |ops|
  {
    if ops != [] {
      StepSound(r, ops[0]);
      StepAccounted(r, ops[0]);
      ReadersAccounted(Step(r, ops[0]), ops[1..]);
    }
  }

  /** A reader left over when a stream has closed waits for ever. */
  lemma {:induction false} LeftWaiting(r: Reader, ops: seq<Op>)
    requires r.closing && r.closed && Runs(r, ops)
    ensures Exec(r, ops).rouse == r.rouse
    decreases |ops|
  {
    if ops != [] { LeftWaiting(Step(r, ops[0]), ops[1..]); }
  }

  /** After a read error, the first reader gets the error, the next one is roused, with no answer, when the
      handle has closed, and all others wait for ever. */
  lemma ErrorServesTwo(r: Reader, before: seq<Op>, after: seq<Op>)
    requires Enabled(r, ReceiveError) && !r.closed && r.rouse != []
    requires NoCloseDone(before) && Runs(Step(r, ReceiveError), before)
    requires var t := Exec(Step(r, ReceiveError), before); Enabled(t, CloseDone) && Runs(Step(t, CloseDone), after)
    ensures var t := Exec(Step(r, ReceiveError), before);
            var w := Exec(Step(t, CloseDone), after);
            && w.rouse == (if |r.rouse| == 1 then [] else r.rouse[2..])
            && |r.log| < |w.log| && w.log[|r.log|] == Delivery(r.rouse[0], Failed)
            && (|r.rouse| > 1 ==> |r.log| < |t.log| < |w.log| && w.log[|t.log|] == Delivery(r.rouse[1], Woken))
  {
    var u := Step(r, ReceiveError);
    var t := Exec(u, before);
    ClosingKeeps(u, before);
    LogGrows(u, before);
    LeftWaiting(Step(t, CloseDone), after);
    LogGrows(Step(t, CloseDone), after);
  }

  lemma LogStep(r: Reader, op: Op)
    ensures r.log <= Step(r, op).log
  {
  }

  lemma {:induction false} LogGrows(r: Reader, ops: seq<Op>)
    ensures r.log <= Exec(r, ops).log
    decreases |ops|
  {
    if ops != [] {
      LogStep(r, ops[0]);
      LogGrows(Step(r, ops[0]), ops[1..]);
    }
  }

  predicate NoCloseDone(ops: seq<Op>) { forall i :: 0 <= i < |ops| ==> !ops[i].CloseDone? }

  lemma {:induction false} ClosingKeeps(r: Reader, ops: seq<Op>)
    requires r.closing && Runs(r, ops) && NoCloseDone(ops)
    ensures Exec(r, ops).closing && Exec(r, ops).rouse == r.rouse
    decreases |ops|
  {
    if ops != [] {
      assert !ops[0].CloseDone?;
      ClosingKeeps(Step(r, ops[0]), ops[1..]);
    }
  }

  /** On an open stream, a reader waits only while libuv reads. */
  predicate Attended(r: Reader) { r.rouse != [] && !r.closing ==> r.reading }

  /** The step leaves a reader waiting although libuv does not read: a `stop` called from Lua, an empty
      read or a last end of file that serves one of several, a `read` whose start libuv refuses, or a
      `read` that makes no start because the flag is still set from before. */
  predicate Deserts(r: Reader, op: Op)
  {
    match op
    case Stop => r.rouse != []
    case Receive(bytes) => bytes == [] && |r.rouse| > 1
    case ReceiveEof(more) => !more && |r.rouse| > 1
    case Read(_, _, refused) => r.pending.None? && if r.started then !r.reading else refused
    case _ => false
  }

  /** These are the only ways. */
  lemma AttendedExactly(r: Reader, op: Op)
    requires Attended(r) && Sound(r) && Enabled(r, op)
    ensures Attended(Step(r, op)) <==> r.closing || !Deserts(r, op)
  {
  }

  /** Once libuv has refused, all later reads wait in vain, until the stream is stopped and started anew. */
  lemma {:induction false} RefusedForGood(r: Reader, ops: seq<Op>)
    requires r.started && !r.reading && Runs(r, ops) && forall i :: 0 <= i < |ops| ==> ops[i].Read? || ops[i].Start?
    ensures var t := Exec(r, ops); r.rouse <= t.rouse && t.started && !t.reading
    decreases |ops|
  {
    if ops != [] {
      assert ops[0].Read? || ops[0].Start?;
      RefusedForGood(Step(r, ops[0]), ops[1..]);
    }
  }
}
