/** Streams and the scheduler together: the list `rouse` of a stream is one of the scheduler's condition
    lists, a reader that waits is a parked state, and an answer is a rouse. */
module StreamThread {
  import opened Options
  import opened Scheduler
  import opened SchedulerInv
  import opened SchedulerSteps
  import opened SchedulerRuns
  import opened SchedulerQueue
  import opened SchedulerResults
  import opened SchedulerEffects
  import opened Links
  import Stream
  import Accept

  // Answering

  /** The first state on the list gets `vs` as its only values and is made ready (src/luv_stream.c:40-74). */
  function Answer(st: State, c: nat, vs: seq<Item>): State
    requires c < |st.conds| && ListKnown(st, OnCond(c)) && st.conds[c] != []
  {
    var u := SetStack(st, st.conds[c][0], vs);
    assert ListAt(u, OnCond(c)) == ListAt(st, OnCond(c));
    Rouse(u, OnCond(c))
  }

  lemma AnswerSteps(st: State, c: nat, vs: seq<Item>, u: State)
    requires c < |st.conds| && ListKnown(st, OnCond(c)) && st.conds[c] != []
    requires u == SetStack(st, st.conds[c][0], vs)
    ensures OnlyStacks(st, u) && PlaceKnown(u, OnCond(c)) && ListAt(u, OnCond(c)) == st.conds[c]
    ensures ListKnown(u, OnCond(c)) && Answer(st, c, vs) == Rouse(u, OnCond(c))
  {
    assert ListAt(u, OnCond(c)) == ListAt(st, OnCond(c));
  }

  /** What an answer needs of the scheduler: a first waiter that is not queued behind its own back. */
  predicate Servable(st: State, c: nat)
  {
    c < |st.conds| && ListKnown(st, OnCond(c)) && (st.conds[c] == [] || Rousable(st, OnCond(c)))
  }

  lemma InvServable(st: State, c: nat)
    requires Inv(st) && c < |st.conds|
    ensures Servable(st, c) && Known(st, st.curr)
  {
    assert ListOk(st, OnCond(c));
    if st.conds[c] != [] { InvRousable(st, OnCond(c)); }
  }

  lemma AnswerTakes(st: State, c: nat, vs: seq<Item>)
    requires c < |st.conds| && ListKnown(st, OnCond(c)) && st.conds[c] != []
    ensures var t := Answer(st, c, vs); c < |t.conds| && t.conds[c] == st.conds[c][1..]
  {
    AnswerSteps(st, c, vs, SetStack(st, st.conds[c][0], vs));
    RouseLists(SetStack(st, st.conds[c][0], vs), OnCond(c));
  }

  lemma SignalTakes(st: State, c: nat)
    requires c < |st.conds| && ListKnown(st, OnCond(c)) && st.conds[c] != []
    ensures var t := Signal(st, c); c < |t.conds| && t.conds[c] == st.conds[c][1..]
  {
    RouseLists(st, OnCond(c));
  }

  lemma AnswerInv(st: State, c: nat, vs: seq<Item>)
    requires Inv(st) && c < |st.conds| && ListKnown(st, OnCond(c)) && st.conds[c] != []
    ensures Inv(Answer(st, c, vs))
  {
    var u := SetStack(st, st.conds[c][0], vs);
    AnswerSteps(st, c, vs, u);
    StacksInv(st, u, None);
    RouseInv(u, OnCond(c), None);
  }

  /** Whoever is answered is queued once, behind all others, is on no list any more and finds exactly the
      values; nobody else's stack and no other list changes. */
  lemma AnswerDelivers(st: State, c: nat, vs: seq<Item>)
    requires Inv(st) && c < |st.conds| && ListKnown(st, OnCond(c)) && st.conds[c] != []
    ensures var t, s := Answer(st, c, vs), st.conds[c][0];
            && |t.fibers| == |st.fibers| && |t.conds| == |st.conds| && Known(t, s) && At(t, s).None?
            && t.queue == st.queue + OwnId(s) && (s.Main? ==> t.mainReady)
            && StackOf(t, s) == vs && (forall x :: Known(st, x) && x != s ==> StackOf(t, x) == StackOf(st, x))
            && t.conds[c] == st.conds[c][1..] && OtherLists(st, t, OnCond(c))
  {
    var u, s := SetStack(st, st.conds[c][0], vs), st.conds[c][0];
    AnswerSteps(st, c, vs, u);
    StacksInv(st, u, None);
    RouseQueue(u, OnCond(c), None);
    RouseStacks(u, OnCond(c));
    RousePlaces(u, OnCond(c), s);
    AnswerStacks(st, u, Answer(st, c, vs), s, vs);
    AnswerLists(st, u, Answer(st, c, vs), c);
  }

  lemma AnswerStacks(st: State, u: State, t: State, s: Sid, vs: seq<Item>)
    requires Known(st, s) && u == SetStack(st, s, vs) && SameStacks(u, t)
    ensures Known(t, s) && StackOf(t, s) == vs
    ensures forall x :: Known(st, x) && x != s ==> Known(t, x) && StackOf(t, x) == StackOf(st, x)
  {
  }

  lemma AnswerLists(st: State, u: State, t: State, c: nat)
    requires OnlyStacks(st, u) && |t.fibers| == |u.fibers| && |t.conds| == |u.conds|
    requires OtherLists(u, t, OnCond(c))
    ensures OtherLists(st, t, OnCond(c))
  {
    forall q | PlaceKnown(st, q) && q != OnCond(c) ensures ListAt(t, q) == ListAt(st, q) {
      assert PlaceKnown(u, q) && ListAt(u, q) == ListAt(st, q);
    }
  }

  // One thread with one stream

  /** The scheduler and a stream whose list is that of condition `c`. What an answer looks like on a Lua
      stack is left to `show`. */
  datatype Joint = Joint(st: State, r: Stream.Reader)

  type Show = Stream.Answer -> seq<Item>

  datatype JointOp = Sched(op: Op) | OnStream(sop: Stream.Op)

  /** Only readers wait on the list of the stream, and only its callbacks rouse them. */
  predicate Touches(op: Op, c: nat)
  {
    op == DoWait(c) || op == DoSignal(c) || op == DoBroadcast(c) || op == OnSignal(c) || (op.OnTimer? && op.c == c)
  }

  /** The call of `read` has to wait. */
  predicate Waits(r: Stream.Reader) { !r.closing && r.pending.None? }

  predicate Possible(j: Joint, c: nat, jop: JointOp)
  {
    match jop
    case Sched(op) => Enabled(j.st, op) && Allowed(j.st, op) && !Touches(op, c)
    case OnStream(sop) =>
      && Stream.Enabled(j.r, sop)
      && match sop
         case Read(s, _, _) => Known(j.st, s) && InLua(j.st) && s == j.st.curr && (Waits(j.r) ==> NotParked(j.st, s))
         case Start(_) => InLua(j.st)
         case Stop => InLua(j.st)
         case _ => j.st.phase.Polling?
  }

  /** The stream's list is the condition's, and both machines are sound. */
  ghost predicate Coupled(j: Joint, c: nat)
  {
    Inv(j.st) && Stream.Sound(j.r) && c < |j.st.conds| && j.r.rouse == j.st.conds[c]
  }

  /** What a callback that answers the first reader, if any, does to the scheduler. */
  function AnswerFirst(st: State, c: nat, vs: seq<Item>): State
    requires c < |st.conds| && ListKnown(st, OnCond(c))
  {
    if st.conds[c] == [] then st else Answer(st, c, vs)
  }

  /** What a step of the stream does to the scheduler. */
  function StreamStep(st: State, r: Stream.Reader, c: nat, show: Show, sop: Stream.Op): State
    requires c < |st.conds| && ListKnown(st, OnCond(c)) && Known(st, st.curr)
  {
    match sop
    case Read(s, _, _) =>
      if r.closing then Push(st, st.curr, show(Stream.Refused))
      else if r.pending.Some? then Push(st, st.curr, show(Stream.Chunk(r.pending.value)))
      else Park(st, OnCond(c))
    case Start(_) => st
    case Stop => st
    case Receive(bytes) => AnswerFirst(st, c, show(Stream.Chunk(bytes)))
    case ReceiveEof(_) => AnswerFirst(st, c, show(Stream.Eof))
    case ReceiveError => AnswerFirst(st, c, show(Stream.Failed))
    case CloseDone => Signal(st, c)
  }

  function JointStep(j: Joint, c: nat, show: Show, jop: JointOp): Joint
    requires Possible(j, c, jop) && c < |j.st.conds| && ListKnown(j.st, OnCond(c)) && Known(j.st, j.st.curr)
  {
    match jop
    case Sched(op) => j.(st := Step(j.st, op))
    case OnStream(sop) => Joint(StreamStep(j.st, j.r, c, show, sop), Stream.Step(j.r, sop))
  }

  lemma ListThere(st: State, c: nat)
    requires Inv(st) && c < |st.conds|
    ensures ListKnown(st, OnCond(c)) && Known(st, st.curr)
  {
    assert ListOk(st, OnCond(c));
  }

  // Steps of the scheduler leave the list alone

  predicate Kept(st: State, t: State, c: nat) { c < |st.conds| <= |t.conds| && t.conds[c] == st.conds[c] }

  lemma RouseKeeps(st: State, p: Place, c: nat)
    requires PlaceKnown(st, p) && ListAt(st, p) != [] && Known(st, ListAt(st, p)[0]) && c < |st.conds| && p != OnCond(c)
    ensures Kept(st, Rouse(st, p), c)
  {
    RousePlaces(st, p, ListAt(st, p)[0]);
    assert PlaceKnown(st, OnCond(c)) && ListAt(Rouse(st, p), OnCond(c)) == ListAt(st, OnCond(c));
  }

  lemma {:induction false} BroadcastKeeps(st: State, d: nat, c: nat)
    requires d < |st.conds| && ListKnown(st, OnCond(d)) && c < |st.conds| && d != c
    ensures Kept(st, Broadcast(st, d), c)
    decreases |st.conds[d]|
  {
    if st.conds[d] != [] {
      RouseLists(st, OnCond(d));
      RouseKeeps(st, OnCond(d), c);
      BroadcastKeeps(Rouse(st, OnCond(d)), d, c);
    }
  }

  lemma {:induction false} WakeKeeps(st: State, f: nat, vs: seq<Item>, c: nat)
    requires f < |st.fibers| && ListKnown(st, OnJoin(f)) && c < |st.conds|
    ensures Kept(st, WakeJoiners(st, f, vs), c)
    decreases |st.fibers[f].joiners|
  {
    if st.fibers[f].joiners != [] {
      var s := st.fibers[f].joiners[0];
      RouseLists(st, OnJoin(f));
      RouseKeeps(st, OnJoin(f), c);
      var t := Rouse(st, OnJoin(f));
      var u := if s.Fib? then Push(t, s, vs) else t;
      assert ListAt(u, OnJoin(f)) == ListAt(t, OnJoin(f)) && u.conds == t.conds;
      WakeKeeps(u, f, vs, c);
    }
  }

  lemma ExitKeeps(st: State, vs: seq<Item>, c: nat)
    requires st.curr.Fib? && Known(st, st.curr) && ListKnown(st, OnJoin(st.curr.id)) && c < |st.conds|
    ensures Kept(st, Exit(st, vs), c)
  {
    var u := SetStack(st, st.curr, vs);
    assert ListAt(u, OnJoin(st.curr.id)) == ListAt(st, OnJoin(st.curr.id)) && u.conds == st.conds;
    WakeKeeps(u, st.curr.id, vs, c);
  }

  lemma FireKeeps(st: State, d: nat, status: Item, c: nat)
    requires d < |st.conds| && ListKnown(st, OnCond(d)) && c < |st.conds| && d != c
    ensures Kept(st, Fire(st, d, status), c)
  {
    SetStacksKeeps(st, st.conds[d], [status]);
    BroadcastKeeps(SetStacks(st, st.conds[d], [status]), d, c);
  }

  lemma ParkKeeps(st: State, p: Place, c: nat)
    requires PlaceKnown(st, p) && Known(st, st.curr) && c < |st.conds| && p != OnCond(c)
    ensures Kept(st, Park(st, p), c)
  {
    ParkPlaces(st, p);
    assert PlaceKnown(st, OnCond(c)) && ListAt(Park(st, p), OnCond(c)) == ListAt(st, OnCond(c));
  }

  lemma JoinKeeps(st: State, f: nat, c: nat)
    requires f < |st.fibers| && Known(st, st.curr) && c < |st.conds|
    ensures Kept(st, Join(st, f), c)
  {
    if st.curr != Fib(f) && !st.fibers[f].dead {
      JoinIsPark(st, f);
      ParkKeeps(FiberReady(st, f), OnJoin(f), c);
    }
  }

  lemma SchedKeeps(st: State, op: Op, c: nat)
    requires Enabled(st, op) && !Touches(op, c) && c < |st.conds|
    ensures Kept(st, Step(st, op), c)
  {
    match op
    case DoJoin(f) => JoinKeeps(st, f, c);
    case DoWait(d) => ParkKeeps(st, OnCond(d), c);
    case DoSignal(d) => if st.conds[d] != [] { RouseKeeps(st, OnCond(d), c); }
    case DoBroadcast(d) => BroadcastKeeps(st, d, c);
    case DoExit(vs) => ExitKeeps(st, vs, c);
    case OnSignal(d) => if st.conds[d] != [] { RouseKeeps(st, OnCond(d), c); }
    case OnTimer(d, status) => FireKeeps(st, d, status, c);
    case _ =>
  }

  // Steps of the stream keep it the same on both sides

  lemma AnswerCoupled(j: Joint, c: nat, vs: seq<Item>, r: Stream.Reader)
    requires Coupled(j, c) && ListKnown(j.st, OnCond(c)) && Stream.Sound(r)
    requires r.rouse == if j.r.rouse == [] then [] else j.r.rouse[1..]
    ensures Coupled(Joint(AnswerFirst(j.st, c, vs), r), c)
  {
    if j.st.conds[c] != [] {
      AnswerInv(j.st, c, vs);
      AnswerDelivers(j.st, c, vs);
    }
  }

  lemma CloseCoupled(j: Joint, c: nat, r: Stream.Reader)
    requires Coupled(j, c) && ListKnown(j.st, OnCond(c)) && Stream.Sound(r)
    requires r.rouse == if j.r.rouse == [] then [] else j.r.rouse[1..]
    ensures Coupled(Joint(Signal(j.st, c), r), c)
  {
    if j.st.conds[c] != [] {
      RouseInv(j.st, OnCond(c), None);
      RouseLists(j.st, OnCond(c));
    }
  }

  lemma PushInv(st: State, s: Sid, vs: seq<Item>)
    requires Inv(st) && Known(st, s)
    ensures Inv(Push(st, s, vs)) && Push(st, s, vs).conds == st.conds
  {
    StacksInv(st, Push(st, s, vs), None);
  }

  lemma ReadCoupled(j: Joint, c: nat, show: Show, s: Sid, len: nat, refused: bool)
    requires Coupled(j, c) && ListKnown(j.st, OnCond(c)) && Known(j.st, j.st.curr)
    requires Possible(j, c, OnStream(Stream.Read(s, len, refused)))
    ensures Coupled(JointStep(j, c, show, OnStream(Stream.Read(s, len, refused))), c)
  {
    Stream.StepSound(j.r, Stream.Read(s, len, refused));
    if Waits(j.r) {
      ParkInv(j.st, OnCond(c));
      ParkPlaces(j.st, OnCond(c));
      assert ListAt(Park(j.st, OnCond(c)), OnCond(c)) == j.st.conds[c] + [s];
    } else if j.r.closing {
      PushInv(j.st, j.st.curr, show(Stream.Refused));
    } else {
      PushInv(j.st, j.st.curr, show(Stream.Chunk(j.r.pending.value)));
    }
  }

  /** Every step of either machine keeps both invariants and the two lists equal. */
  lemma StepCoupled(j: Joint, c: nat, show: Show, jop: JointOp)
    requires Coupled(j, c) && Possible(j, c, jop)
    ensures ListKnown(j.st, OnCond(c)) && Known(j.st, j.st.curr) && Coupled(JointStep(j, c, show, jop), c)
  {
    ListThere(j.st, c);
    match jop
    case Sched(op) =>
      StepKeeps(j.st, op);
      SchedKeeps(j.st, op, c);
    case OnStream(sop) =>
      Stream.StepSound(j.r, sop);
      var r := Stream.Step(j.r, sop);
      match sop
      case Read(s, len, refused) => ReadCoupled(j, c, show, s, len, refused);
      case Receive(bytes) => AnswerCoupled(j, c, show(Stream.Chunk(bytes)), r);
      case ReceiveEof(_) => AnswerCoupled(j, c, show(Stream.Eof), r);
      case ReceiveError => AnswerCoupled(j, c, show(Stream.Failed), r);
      case CloseDone => CloseCoupled(j, c, r);
      case _ =>
  }

  /** Nothing but the state of libuv stands in the way of a stream: a running state may read, start and stop whatever
      the stream does, unless it would wait while it is on a list; while the thread polls, bytes, an end or an
      error may come as long as libuv reads on an open handle, and the end of closing once. */
  lemma StreamSteps(j: Joint, c: nat, sop: Stream.Op)
    requires Coupled(j, c)
    ensures Possible(j, c, OnStream(sop)) <==>
              if sop.Read? then
                InLua(j.st) && sop.s == j.st.curr && (NotParked(j.st, j.st.curr) || j.r.closing || j.r.pending.Some?)
              else if sop.Start? || sop.Stop? then InLua(j.st)
              else if sop.CloseDone? then j.st.phase.Polling? && j.r.closing && !j.r.closed
              else j.st.phase.Polling? && j.r.reading && !j.r.closing && (sop.Receive? ==> |sop.bytes| <= j.r.size)
  {
    ListThere(j.st, c);
  }

  // What readers get

  /** What a step of the stream answers, and to whom: `read` is answered at once on a stream that is closing or has
      bytes kept, a callback answers who waits first, and nothing else answers. */
  function Due(r: Stream.Reader, sop: Stream.Op): Option<Stream.Delivery>
  {
    match sop
    case Read(s, _, _) =>
      if r.closing then Some(Stream.Delivery(s, Stream.Refused))
      else if r.pending.Some? then Some(Stream.Delivery(s, Stream.Chunk(r.pending.value)))
      else None
    case Receive(bytes) => ToFirst(r, Stream.Chunk(bytes))
    case ReceiveEof(_) => ToFirst(r, Stream.Eof)
    case ReceiveError => ToFirst(r, Stream.Failed)
    case CloseDone => ToFirst(r, Stream.Woken)
    case Start(_) => None
    case Stop => None
  }

  function ToFirst(r: Stream.Reader, a: Stream.Answer): Option<Stream.Delivery>
  {
    if r.rouse == [] then None else Some(Stream.Delivery(r.rouse[0], a))
  }

  /** Nobody's stack but that of `s` has changed. */
  ghost predicate OthersKeep(st: State, t: State, s: Sid)
  {
    |t.fibers| == |st.fibers| && forall x :: Known(st, x) && x != s ==> StackOf(t, x) == StackOf(st, x)
  }

  /** `s` was made ready, behind all that were queued, and is on no list. */
  predicate Woke(st: State, t: State, s: Sid)
  {
    Known(t, s) && At(t, s).None? && IsReady(t, s) && t.queue == st.queue + OwnId(s)
  }

  /** The step from `j` to `k` delivers what is due: the answer is on the stack of who gets it, after what was there
      if it was given at once, alone if it was waited for, and not at all if the stream was closed. */
  ghost predicate Delivers(j: Joint, k: Joint, c: nat, show: Show, sop: Stream.Op)
  {
    match Due(j.r, sop)
    case None => k.r.log == j.r.log && SameStacks(j.st, k.st) && (sop.Read? ==> Waiting(j.st, k.st, c, sop.s))
    case Some(d) =>
      && Known(j.st, d.to) && k.r.log == j.r.log + [d] && OthersKeep(j.st, k.st, d.to)
      && StackOf(k.st, d.to)
         == (if d.answer.Woken? then StackOf(j.st, d.to)
             else if sop.Read? then StackOf(j.st, d.to) + show(d.answer) else show(d.answer))
      && (!sop.Read? ==> Woke(j.st, k.st, d.to))
  }

  /** `s` is parked at the end of list `c`. */
  predicate Waiting(st: State, t: State, c: nat, s: Sid)
  {
    Known(t, s) && !IsReady(t, s) && c < |st.conds| == |t.conds| && t.conds[c] == st.conds[c] + [s]
  }

  lemma AnswerGiven(st: State, c: nat, vs: seq<Item>)
    requires Inv(st) && c < |st.conds| && ListKnown(st, OnCond(c)) && st.conds[c] != []
    ensures var t, s := Answer(st, c, vs), st.conds[c][0];
            OthersKeep(st, t, s) && Known(t, s) && StackOf(t, s) == vs && Woke(st, t, s)
  {
    var s := st.conds[c][0];
    AnswerDelivers(st, c, vs);
    var u := SetStack(st, s, vs);
    AnswerSteps(st, c, vs, u);
    RouseReadies(u, OnCond(c), s);
  }

  lemma SignalGiven(st: State, c: nat)
    requires Inv(st) && c < |st.conds| && ListKnown(st, OnCond(c)) && st.conds[c] != []
    ensures var t, s := Signal(st, c), st.conds[c][0]; SameStacks(st, t) && Woke(st, t, s)
  {
    var s := st.conds[c][0];
    RouseQueue(st, OnCond(c), None);
    RouseStacks(st, OnCond(c));
    RousePlaces(st, OnCond(c), s);
    RouseReadies(st, OnCond(c), s);
  }

  lemma WaitGiven(st: State, c: nat)
    requires Inv(st) && InLua(st) && c < |st.conds|
    ensures var t := Park(st, OnCond(c)); SameStacks(st, t) && Waiting(st, t, c, st.curr)
  {
    InvFlows(st);
    ParkStacks(st, OnCond(c));
    ParkReadies(st, OnCond(c), st.curr);
    ParkPlaces(st, OnCond(c));
    assert ListAt(Park(st, OnCond(c)), OnCond(c)) == st.conds[c] + [st.curr];
  }

  lemma PushGiven(st: State, s: Sid, vs: seq<Item>)
    requires Known(st, s)
    ensures OthersKeep(st, Push(st, s, vs), s) && StackOf(Push(st, s, vs), s) == StackOf(st, s) + vs
  {
  }

  lemma ReadDelivers(j: Joint, c: nat, show: Show, sop: Stream.Op, k: Joint)
    requires Coupled(j, c) && ListKnown(j.st, OnCond(c)) && Known(j.st, j.st.curr)
    requires Possible(j, c, OnStream(sop)) && sop.Read? && k == JointStep(j, c, show, OnStream(sop))
    ensures Delivers(j, k, c, show, sop)
  {
    if j.r.closing {
      PushGiven(j.st, j.st.curr, show(Stream.Refused));
    } else if j.r.pending.Some? {
      PushGiven(j.st, j.st.curr, show(Stream.Chunk(j.r.pending.value)));
    } else {
      WaitGiven(j.st, c);
    }
  }

  lemma CallbackDelivers(j: Joint, c: nat, show: Show, sop: Stream.Op, k: Joint)
    requires Coupled(j, c) && ListKnown(j.st, OnCond(c)) && Known(j.st, j.st.curr)
    requires Possible(j, c, OnStream(sop)) && !sop.Read? && k == JointStep(j, c, show, OnStream(sop))
    ensures Delivers(j, k, c, show, sop)
  {
    if j.r.rouse != [] {
      match sop
      case Receive(bytes) => AnswerGiven(j.st, c, show(Stream.Chunk(bytes)));
      case ReceiveEof(_) => AnswerGiven(j.st, c, show(Stream.Eof));
      case ReceiveError => AnswerGiven(j.st, c, show(Stream.Failed));
      case CloseDone => SignalGiven(j.st, c);
      case _ =>
    }
  }

  /** Every step of the stream delivers exactly what is due. */
  lemma StepDelivers(j: Joint, c: nat, show: Show, sop: Stream.Op)
    requires Coupled(j, c) && Possible(j, c, OnStream(sop))
    ensures ListKnown(j.st, OnCond(c)) && Known(j.st, j.st.curr)
    ensures Delivers(j, JointStep(j, c, show, OnStream(sop)), c, show, sop)
  {
    ListThere(j.st, c);
    var k := JointStep(j, c, show, OnStream(sop));
    if sop.Read? { ReadDelivers(j, c, show, sop, k); } else { CallbackDelivers(j, c, show, sop, k); }
  }

  // Runs

  ghost predicate Feasible(j: Joint, c: nat, show: Show, ops: seq<JointOp>)
    requires Coupled(j, c)
    decreases |ops|
  {
    ops != [] ==> Possible(j, c, ops[0]) && Feasible(Next(j, c, show, ops[0]), c, show, ops[1..])
  }

  ghost function Next(j: Joint, c: nat, show: Show, jop: JointOp): (k: Joint)
    requires Coupled(j, c) && Possible(j, c, jop)
    ensures Coupled(k, c)
  {
    StepCoupled(j, c, show, jop);
    JointStep(j, c, show, jop)
  }

  ghost function Last(j: Joint, c: nat, show: Show, ops: seq<JointOp>): (k: Joint)
    requires Coupled(j, c) && Feasible(j, c, show, ops)
    ensures Coupled(k, c)
    decreases |ops|
  {
    if ops == [] then j else Last(Next(j, c, show, ops[0]), c, show, ops[1..])
  }

  /** All along the run, every step of the stream delivers what is due, and no other step answers anyone. */
  ghost predicate AllDelivered(j: Joint, c: nat, show: Show, ops: seq<JointOp>)
    requires Coupled(j, c) && Feasible(j, c, show, ops)
    decreases |ops|
  {
    ops != [] ==>
      var k := Next(j, c, show, ops[0]);
      && (if ops[0].OnStream? then Delivers(j, k, c, show, ops[0].sop) else k.r == j.r)
      && AllDelivered(k, c, show, ops[1..])
  }

  lemma {:induction false} RunDelivers(j: Joint, c: nat, show: Show, ops: seq<JointOp>)
    requires Coupled(j, c) && Feasible(j, c, show, ops)
    ensures AllDelivered(j, c, show, ops)
    decreases |ops|
  {
    if ops != [] {
      if ops[0].OnStream? { StepDelivers(j, c, show, ops[0].sop); }
      RunDelivers(Next(j, c, show, ops[0]), c, show, ops[1..]);
    }
  }

  // From the answer to the reader's next turn

  /** Fiber `f` is ready but does not run, and `vs` is on its stack. */
  predicate Holds(st: State, f: nat, vs: seq<Item>)
  {
    f < |st.fibers| && st.fibers[f].ready && st.fibers[f].stack == vs
  }

  lemma ReadyUnlisted(st: State, f: nat, p: Place)
    requires Inv(st) && f < |st.fibers| && st.fibers[f].ready && PlaceKnown(st, p)
    ensures Fib(f) !in ListAt(st, p)
  {
    assert FiberOk(st, f) && ListOk(st, p);
  }

  /** Whatever the scheduler does meanwhile, a fiber that is ready keeps what is on its stack until its turn. */
  lemma SchedHolds(st: State, op: Op, f: nat, vs: seq<Item>)
    requires Inv(st) && Enabled(st, op) && Holds(st, f, vs) && st.curr != Fib(f)
    ensures Holds(Step(st, op), f, vs)
  {
    InvFlows(st);
    StepReadies(st, op, Fib(f));
    StepStacks(st, op, Fib(f));
    match op
    case OnTimer(c, _) => ReadyUnlisted(st, f, OnCond(c));
    case DoExit(_) => ReadyUnlisted(st, f, OnJoin(st.curr.id));
    case _ =>
  }

  lemma AnswerHolds(st: State, c: nat, ws: seq<Item>, f: nat, vs: seq<Item>)
    requires Inv(st) && c < |st.conds| && ListKnown(st, OnCond(c)) && Holds(st, f, vs)
    ensures Holds(AnswerFirst(st, c, ws), f, vs)
  {
    ReadyUnlisted(st, f, OnCond(c));
    if st.conds[c] != [] {
      AnswerGiven(st, c, ws);
      var u := SetStack(st, st.conds[c][0], ws);
      AnswerSteps(st, c, ws, u);
      RouseReadies(u, OnCond(c), Fib(f));
      assert Known(st, Fib(f)) && StackOf(Answer(st, c, ws), Fib(f)) == StackOf(st, Fib(f));
    }
  }

  lemma SignalHolds(st: State, c: nat, f: nat, vs: seq<Item>)
    requires c < |st.conds| && ListKnown(st, OnCond(c)) && Holds(st, f, vs)
    ensures Holds(Signal(st, c), f, vs)
  {
    if st.conds[c] != [] {
      RouseStacks(st, OnCond(c));
      RouseReadies(st, OnCond(c), Fib(f));
    }
  }

  lemma ParkHolds(st: State, c: nat, f: nat, vs: seq<Item>)
    requires Inv(st) && InLua(st) && c < |st.conds| && Holds(st, f, vs) && st.curr != Fib(f)
    ensures Holds(Park(st, OnCond(c)), f, vs)
  {
    InvFlows(st);
    ParkStacks(st, OnCond(c));
    ParkReadies(st, OnCond(c), Fib(f));
  }

  lemma JointHolds(j: Joint, c: nat, show: Show, jop: JointOp, f: nat, vs: seq<Item>)
    requires Coupled(j, c) && Possible(j, c, jop) && Holds(j.st, f, vs) && j.st.curr != Fib(f)
    ensures Holds(Next(j, c, show, jop).st, f, vs)
  {
    ListThere(j.st, c);
    match jop
    case Sched(op) => SchedHolds(j.st, op, f, vs);
    case OnStream(sop) => StreamHolds(j.st, j.r, c, show, sop, f, vs);
  }

  lemma StreamHolds(st: State, r: Stream.Reader, c: nat, show: Show, sop: Stream.Op, f: nat, vs: seq<Item>)
    requires Inv(st) && c < |st.conds| && ListKnown(st, OnCond(c)) && Known(st, st.curr)
    requires Holds(st, f, vs) && st.curr != Fib(f) && (sop.Read? ==> InLua(st))
    ensures Holds(StreamStep(st, r, c, show, sop), f, vs)
  {
    match sop
    case Read(_, _, _) => if Waits(r) { ParkHolds(st, c, f, vs); }
    case Receive(bytes) => AnswerHolds(st, c, show(Stream.Chunk(bytes)), f, vs);
    case ReceiveEof(_) => AnswerHolds(st, c, show(Stream.Eof), f, vs);
    case ReceiveError => AnswerHolds(st, c, show(Stream.Failed), f, vs);
    case CloseDone => SignalHolds(st, c, f, vs);
    case _ =>
  }

  /** Fiber `f` does not run before the end of the run. */
  ghost predicate NotYet(j: Joint, c: nat, show: Show, ops: seq<JointOp>, f: nat)
    requires Coupled(j, c) && Feasible(j, c, show, ops)
    decreases |ops|
  {
    ops != [] ==> j.st.curr != Fib(f) && NotYet(Next(j, c, show, ops[0]), c, show, ops[1..], f)
  }

  lemma {:induction false} StackWaits(j: Joint, c: nat, show: Show, ops: seq<JointOp>, f: nat, vs: seq<Item>)
    requires Coupled(j, c) && Feasible(j, c, show, ops) && NotYet(j, c, show, ops, f) && Holds(j.st, f, vs)
    ensures Holds(Last(j, c, show, ops).st, f, vs)
    decreases |ops|
  {
    if ops != [] {
      JointHolds(j, c, show, ops[0], f, vs);
      StackWaits(Next(j, c, show, ops[0]), c, show, ops[1..], f, vs);
    }
  }

  /** A fiber that waits in `read` and is answered finds exactly the answer when it next runs, whatever happens in
      between. */
  lemma AnswerReaches(j: Joint, c: nat, show: Show, sop: Stream.Op, f: nat, a: Stream.Answer, ops: seq<JointOp>)
    requires Coupled(j, c) && Possible(j, c, OnStream(sop)) && !sop.Read? && !a.Woken?
    requires Due(j.r, sop) == Some(Stream.Delivery(Fib(f), a))
    requires var k := Next(j, c, show, OnStream(sop)); Feasible(k, c, show, ops) && NotYet(k, c, show, ops, f)
    ensures var l := Last(Next(j, c, show, OnStream(sop)), c, show, ops);
            f < |l.st.fibers| && l.st.fibers[f].stack == show(a)
  {
    StepDelivers(j, c, show, sop);
    StackWaits(Next(j, c, show, OnStream(sop)), c, show, ops, f, show(a));
  }

  /** The part of a run that concerns the stream. */
  function StreamOps(ops: seq<JointOp>): seq<Stream.Op>
  {
    if ops == [] then []
    else (if ops[0].OnStream? then [ops[0].sop] else []) + StreamOps(ops[1..])
  }

  lemma {:induction false} Projects(j: Joint, c: nat, show: Show, ops: seq<JointOp>)
    requires Coupled(j, c) && Feasible(j, c, show, ops)
    ensures Stream.Runs(j.r, StreamOps(ops)) && Last(j, c, show, ops).r == Stream.Exec(j.r, StreamOps(ops))
    decreases |ops|
  {
    if ops != [] {
      Projects(Next(j, c, show, ops[0]), c, show, ops[1..]);
      if ops[0].OnStream? {
        var o := [ops[0].sop] + StreamOps(ops[1..]);
        assert o[0] == ops[0].sop && o[1..] == StreamOps(ops[1..]);
      } else {
        assert [] + StreamOps(ops[1..]) == StreamOps(ops[1..]);
      }
    }
  }

  predicate NoStart(ops: seq<JointOp>)
  {
    forall i :: 0 <= i < |ops| ==> !(ops[i].OnStream? && ops[i].sop.Start?)
  }

  lemma {:induction false} NoStartProjects(ops: seq<JointOp>)
    requires NoStart(ops)
    ensures Stream.NoStart(StreamOps(ops))
    decreases |ops|
  {
    if ops != [] { NoStartProjects(ops[1..]); }
  }

  /** Whatever fibers and callbacks do in between: bytes are conserved, every call of `read` is answered or
      parked, and the parked readers are exactly the states on the stream's list in the scheduler, whose
      invariant holds all along. */
  lemma StreamOnThread(st: State, c: nat, show: Show, ops: seq<JointOp>)
    requires Inv(st) && c < |st.conds| && st.conds[c] == []
    requires Feasible(Joint(st, Stream.NewReader()), c, show, ops) && NoStart(ops)
    ensures var k := Last(Joint(st, Stream.NewReader()), c, show, ops);
            && Inv(k.st) && c < |k.st.conds| && k.r.rouse == k.st.conds[c]
            && k.r.received == Stream.Delivered(k.r.log) + Stream.Pending(k.r)
            && (k.r.pending.Some? ==> !k.r.started && k.st.conds[c] == [])
            && Stream.Accounted(k.r) && AllDelivered(Joint(st, Stream.NewReader()), c, show, ops)
  {
    var j := Joint(st, Stream.NewReader());
    var sops := StreamOps(ops);
    Projects(j, c, show, ops);
    RunDelivers(j, c, show, ops);
    NoStartProjects(ops);
    Stream.ByteConservation(sops);
    Stream.ReadersAccounted(j.r, sops);
  }

  // Accepting

  /** What a step of a listening stream does to the scheduler; `error` is what a failed `uv_accept` leaves
      on the stack of the acceptor. */
  function AcceptStep(st: State, l: Accept.Listener, c: nat, error: seq<Item>, op: Accept.Op): State
    requires c < |st.conds| && ListKnown(st, OnCond(c)) && Known(st, st.curr)
  {
    match op
    case Connect(ok) => if !l.waiting then st else if ok then Signal(st, c) else AnswerFirst(st, c, error)
    case Accept(s, ok) =>
      if l.count > 0 then if ok then st else SetStack(st, st.curr, error)
      else Park(st, OnCond(c))
  }

  ghost predicate AcceptCoupled(st: State, l: Accept.Listener, c: nat)
  {
    Inv(st) && Accept.Sound(l) && c < |st.conds| && l.rouse == st.conds[c]
  }

  predicate AcceptPossible(st: State, l: Accept.Listener, op: Accept.Op)
  {
    match op
    case Connect(_) => st.phase.Polling?
    case Accept(s, _) => Known(st, s) && InLua(st) && s == st.curr && (l.count == 0 ==> NotParked(st, s))
  }

  /** Every call and callback keeps the acceptors of the stream the states on its list in the scheduler. */
  lemma AcceptStepCoupled(st: State, l: Accept.Listener, c: nat, error: seq<Item>, op: Accept.Op)
    requires AcceptCoupled(st, l, c) && AcceptPossible(st, l, op)
    ensures ListKnown(st, OnCond(c)) && Known(st, st.curr)
    ensures AcceptCoupled(AcceptStep(st, l, c, error, op), Accept.Step(l, op), c)
  {
    ListThere(st, c);
    match op
    case Connect(ok) =>
      if l.waiting {
        if ok {
          RouseInv(st, OnCond(c), None);
          SignalTakes(st, c);
        } else {
          AnswerInv(st, c, error);
          AnswerDelivers(st, c, error);
        }
      }
    case Accept(s, ok) =>
      if l.count > 0 {
        if !ok { StacksInv(st, SetStack(st, st.curr, error), None); }
      } else {
        ParkInv(st, OnCond(c));
        ParkPlaces(st, OnCond(c));
        assert ListAt(Park(st, OnCond(c)), OnCond(c)) == st.conds[c] + [s];
      }
  }

  // A thread with a listening stream

  datatype Lobby = Lobby(st: State, l: Accept.Listener)

  datatype LobbyOp = Elsewhere(op: Op) | OnListener(lop: Accept.Op)

  ghost predicate LobbyCoupled(b: Lobby, c: nat) { AcceptCoupled(b.st, b.l, c) }

  predicate LobbyPossible(b: Lobby, c: nat, bop: LobbyOp)
  {
    match bop
    case Elsewhere(op) => Enabled(b.st, op) && Allowed(b.st, op) && !Touches(op, c)
    case OnListener(lop) => AcceptPossible(b.st, b.l, lop)
  }

  /** One step of the thread or of the listener. */
  ghost function LobbyStep(b: Lobby, c: nat, error: seq<Item>, bop: LobbyOp): (r: Lobby)
    requires LobbyCoupled(b, c) && LobbyPossible(b, c, bop)
    ensures LobbyCoupled(r, c)
  {
    ListThere(b.st, c);
    match bop
    case Elsewhere(op) =>
      StepKeeps(b.st, op);
      SchedKeeps(b.st, op, c);
      b.(st := Step(b.st, op))
    case OnListener(lop) =>
      AcceptStepCoupled(b.st, b.l, c, error, lop);
      Lobby(AcceptStep(b.st, b.l, c, error, lop), Accept.Step(b.l, lop))
  }

  /** A connection may come whenever the thread polls, and the running state may accept, unless it would wait while it
      is on a list. */
  lemma ListenerSteps(b: Lobby, c: nat, lop: Accept.Op)
    requires LobbyCoupled(b, c)
    ensures LobbyPossible(b, c, OnListener(lop)) <==>
              if lop.Connect? then b.st.phase.Polling?
              else InLua(b.st) && lop.s == b.st.curr && (NotParked(b.st, b.st.curr) || b.l.count > 0)
  {
    ListThere(b.st, c);
  }

  /** What a step of the listener decides, and for whom: a connection serves who waits first, if the flag is set, and
      a call is served at once from the backlog. */
  function Decided(l: Accept.Listener, lop: Accept.Op): Option<Accept.Outcome>
  {
    match lop
    case Connect(ok) => if l.waiting && l.rouse != [] then Some(Accept.Outcome(l.rouse[0], ok)) else None
    case Accept(s, ok) => if l.count > 0 then Some(Accept.Outcome(s, ok)) else None
  }

  /** The step from `a` to `b` gives the acceptor its due: nothing on success, just the error on failure; who was
      parked is ready again. */
  ghost predicate Accepts(a: Lobby, b: Lobby, c: nat, error: seq<Item>, lop: Accept.Op)
  {
    match Decided(a.l, lop)
    case None =>
      && b.l.accepts == a.l.accepts && SameStacks(a.st, b.st)
      && (lop.Accept? ==> Waiting(a.st, b.st, c, lop.s))
      && (lop.Connect? ==> b.l.count == a.l.count + 1 && b.st == a.st)
    case Some(o) =>
      && Known(a.st, o.to) && b.l.accepts == a.l.accepts + [o] && OthersKeep(a.st, b.st, o.to)
      && StackOf(b.st, o.to) == (if o.ok then StackOf(a.st, o.to) else error)
      && (lop.Connect? ==> Woke(a.st, b.st, o.to))
      && (lop.Accept? ==> b.l.count == a.l.count - 1)
  }

  lemma SetStackGiven(st: State, s: Sid, vs: seq<Item>)
    requires Known(st, s)
    ensures OthersKeep(st, SetStack(st, s, vs), s) && StackOf(SetStack(st, s, vs), s) == vs
  {
  }

  /** Every step of the listener gives the acceptor its due. */
  lemma StepAccepts(b: Lobby, c: nat, error: seq<Item>, lop: Accept.Op)
    requires LobbyCoupled(b, c) && LobbyPossible(b, c, OnListener(lop))
    ensures Accepts(b, LobbyStep(b, c, error, OnListener(lop)), c, error, lop)
  {
    ListThere(b.st, c);
    match lop
    case Connect(ok) =>
      if b.l.waiting {
        if ok { SignalGiven(b.st, c); } else { AnswerGiven(b.st, c, error); }
      }
    case Accept(s, ok) =>
      if b.l.count > 0 {
        if !ok { SetStackGiven(b.st, s, error); }
      } else {
        WaitGiven(b.st, c);
      }
  }

  ghost predicate LobbyFeasible(b: Lobby, c: nat, error: seq<Item>, ops: seq<LobbyOp>)
    requires LobbyCoupled(b, c)
    decreases |ops|
  {
    ops != [] ==> LobbyPossible(b, c, ops[0]) && LobbyFeasible(LobbyStep(b, c, error, ops[0]), c, error, ops[1..])
  }

  ghost function LobbyLast(b: Lobby, c: nat, error: seq<Item>, ops: seq<LobbyOp>): (r: Lobby)
    requires LobbyCoupled(b, c) && LobbyFeasible(b, c, error, ops)
    ensures LobbyCoupled(r, c)
    decreases |ops|
  {
    if ops == [] then b else LobbyLast(LobbyStep(b, c, error, ops[0]), c, error, ops[1..])
  }

  /** All along the run, every step of the listener gives the acceptor its due, and no other step serves anyone. */
  ghost predicate AllAccepted(b: Lobby, c: nat, error: seq<Item>, ops: seq<LobbyOp>)
    requires LobbyCoupled(b, c) && LobbyFeasible(b, c, error, ops)
    decreases |ops|
  {
    ops != [] ==>
      var d := LobbyStep(b, c, error, ops[0]);
      && (if ops[0].OnListener? then Accepts(b, d, c, error, ops[0].lop) else d.l == b.l)
      && AllAccepted(d, c, error, ops[1..])
  }

  lemma {:induction false} RunAccepts(b: Lobby, c: nat, error: seq<Item>, ops: seq<LobbyOp>)
    requires LobbyCoupled(b, c) && LobbyFeasible(b, c, error, ops)
    ensures AllAccepted(b, c, error, ops)
    decreases |ops|
  {
    if ops != [] {
      if ops[0].OnListener? { StepAccepts(b, c, error, ops[0].lop); }
      RunAccepts(LobbyStep(b, c, error, ops[0]), c, error, ops[1..]);
    }
  }

  lemma LobbyHolds(b: Lobby, c: nat, error: seq<Item>, bop: LobbyOp, f: nat, vs: seq<Item>)
    requires LobbyCoupled(b, c) && LobbyPossible(b, c, bop) && Holds(b.st, f, vs) && b.st.curr != Fib(f)
    ensures Holds(LobbyStep(b, c, error, bop).st, f, vs)
  {
    ListThere(b.st, c);
    match bop
    case Elsewhere(op) => SchedHolds(b.st, op, f, vs);
    case OnListener(lop) =>
      match lop
      case Connect(ok) =>
        if b.l.waiting {
          if ok { SignalHolds(b.st, c, f, vs); } else { AnswerHolds(b.st, c, error, f, vs); }
        }
      case Accept(_, _) => if b.l.count == 0 { ParkHolds(b.st, c, f, vs); }
  }

  /** Fiber `f` does not run before the end of the run. */
  ghost predicate LobbyNotYet(b: Lobby, c: nat, error: seq<Item>, ops: seq<LobbyOp>, f: nat)
    requires LobbyCoupled(b, c) && LobbyFeasible(b, c, error, ops)
    decreases |ops|
  {
    ops != [] ==> b.st.curr != Fib(f) && LobbyNotYet(LobbyStep(b, c, error, ops[0]), c, error, ops[1..], f)
  }

  lemma {:induction false} LobbyStackWaits(b: Lobby, c: nat, error: seq<Item>, ops: seq<LobbyOp>, f: nat, vs: seq<Item>)
    requires LobbyCoupled(b, c) && LobbyFeasible(b, c, error, ops) && LobbyNotYet(b, c, error, ops, f)
    requires Holds(b.st, f, vs)
    ensures Holds(LobbyLast(b, c, error, ops).st, f, vs)
    decreases |ops|
  {
    if ops != [] {
      LobbyHolds(b, c, error, ops[0], f, vs);
      LobbyStackWaits(LobbyStep(b, c, error, ops[0]), c, error, ops[1..], f, vs);
    }
  }

  /** A fiber parked in `accept` and served by a connection finds, when it next runs, its stack as it was on success
      and just the error on failure, whatever happens in between. */
  lemma OutcomeReaches(b: Lobby, c: nat, error: seq<Item>, ok: bool, f: nat, ops: seq<LobbyOp>)
    requires LobbyCoupled(b, c) && b.st.phase.Polling? && b.l.waiting && b.l.rouse[0] == Fib(f) && f < |b.st.fibers|
    requires var d := LobbyStep(b, c, error, OnListener(Accept.Connect(ok)));
             LobbyFeasible(d, c, error, ops) && LobbyNotYet(d, c, error, ops, f)
    ensures var e := LobbyLast(LobbyStep(b, c, error, OnListener(Accept.Connect(ok))), c, error, ops);
            f < |e.st.fibers| && e.st.fibers[f].stack == if ok then b.st.fibers[f].stack else error
  {
    StepAccepts(b, c, error, Accept.Connect(ok));
    LobbyStackWaits(LobbyStep(b, c, error, OnListener(Accept.Connect(ok))), c, error, ops, f,
                    if ok then b.st.fibers[f].stack else error);
  }

  /** The part of a run that concerns the listener. */
  function ListenerOps(ops: seq<LobbyOp>): seq<Accept.Op>
  {
    if ops == [] then []
    else (if ops[0].OnListener? then [ops[0].lop] else []) + ListenerOps(ops[1..])
  }

  lemma {:induction false} LobbyProjects(b: Lobby, c: nat, error: seq<Item>, ops: seq<LobbyOp>)
    requires LobbyCoupled(b, c) && LobbyFeasible(b, c, error, ops)
    ensures LobbyLast(b, c, error, ops).l == Accept.Exec(b.l, ListenerOps(ops))
    decreases |ops|
  {
    if ops != [] {
      LobbyProjects(LobbyStep(b, c, error, ops[0]), c, error, ops[1..]);
      if ops[0].OnListener? {
        var o := [ops[0].lop] + ListenerOps(ops[1..]);
        assert o[0] == ops[0].lop && o[1..] == ListenerOps(ops[1..]);
      } else {
        assert [] + ListenerOps(ops[1..]) == ListenerOps(ops[1..]);
      }
    }
  }

  /** Whatever fibers and callbacks do in between: every connection is accepted or in the backlog, every call of
      `accept` is served or parked, and the parked acceptors are exactly the states on the stream's list in the
      scheduler, whose invariant holds all along. With one acceptor at a time, none is parked beside a backlog,
      and calls are served in order. */
  lemma AcceptOnThread(st: State, c: nat, error: seq<Item>, ops: seq<LobbyOp>)
    requires Inv(st) && c < |st.conds| && st.conds[c] == []
    requires LobbyFeasible(Lobby(st, Accept.NewListener()), c, error, ops)
    ensures var k, lops := LobbyLast(Lobby(st, Accept.NewListener()), c, error, ops), ListenerOps(ops);
            && Inv(k.st) && c < |k.st.conds| && k.l.rouse == k.st.conds[c]
            && Accept.Connections(lops) == |k.l.accepts| + k.l.count
            && |Accept.Callers(lops)| == |k.l.accepts| + |k.st.conds[c]|
            && (k.l.waiting ==> k.l.count == 0 && k.st.conds[c] != [])
            && AllAccepted(Lobby(st, Accept.NewListener()), c, error, ops)
            && (Accept.OneAtATime(Accept.NewListener(), lops) ==>
                  && (k.st.conds[c] != [] ==> k.l.count == 0 && k.l.waiting)
                  && Accept.Callers(lops) == Accept.Served(k.l.accepts) + k.st.conds[c])
  {
    var l, lops := Accept.NewListener(), ListenerOps(ops);
    LobbyProjects(Lobby(st, l), c, error, ops);
    RunAccepts(Lobby(st, l), c, error, ops);
    Accept.AcceptConservation(lops);
    if Accept.OneAtATime(l, lops) {
      Accept.OneAcceptor(l, lops);
      Accept.History(l, lops);
    }
  }
}
