/** Fibers with finite programs: the work left in them bounds how long the scheduler's loop runs. */
module Programs {
  import opened Options
  import opened Scheduler

  /** What a fiber still has to do: calls, new fibers with programs of their own, then a return.
      `Finished` is left once it has returned. */
  datatype Prog = Finished | Return(vs: seq<Item>) | Spawn(body: Prog, rest: Prog) | Call(op: Op, rest: Prog)

  function Size(p: Prog): nat
  {
    match p
    case Finished => 0
    case Return(_) => 1
    case Spawn(b, r) => 1 + Size(b) + Size(r)
    case Call(_, r) => 1 + Size(r)
  }

  function Work(ps: seq<Prog>): nat
  {
    if ps == [] then 0 else Size(ps[0]) + Work(ps[1..])
  }

  lemma {:induction false} WorkUpdate(ps: seq<Prog>, i: nat, p: Prog)
    requires i < |ps|
    ensures Work(ps[i := p]) + Size(ps[i]) == Work(ps) + Size(p)
  {
    if i == 0 {
      assert ps[0 := p][1..] == ps[1..];
    } else {
      WorkUpdate(ps[1..], i - 1, p);
      assert ps[i := p][1..] == ps[1..][i - 1 := p];
    }
  }

  lemma {:induction false} WorkAppend(ps: seq<Prog>, p: Prog)
    ensures Work(ps + [p]) == Work(ps) + Size(p)
  {
    if ps == [] {
      assert [] + [p] == [p] && [p][1..] == [];
    } else {
      WorkAppend(ps[1..], p);
      assert (ps + [p])[1..] == ps[1..] + [p];
    }
  }

  /** Calls Lua code can make; anything else in a program raises an error. */
  predicate LuaCall(op: Op)
  {
    || op.DoNewCond? || op.DoReady? || op.DoJoin? || op.DoWait? || op.DoSleep?
    || op.DoSignal? || op.DoBroadcast? || op.DoYield?
  }

  /** The step a running fiber takes next. */
  function NextOp(st: State, p: Prog): Op
  {
    match p
    case Finished => DoRaise
    case Return(vs) => DoExit(vs)
    case Spawn(_, _) => DoCreate
    case Call(op, _) => if LuaCall(op) && Enabled(st, op) then op else DoRaise
  }

  /** The programs after it. */
  function Rest(ps: seq<Prog>, f: nat): seq<Prog>
    requires f < |ps|
  {
    match ps[f]
    case Finished => ps
    case Return(_) => ps[f := Finished]
    case Spawn(b, r) => ps[f := r] + [b]
    case Call(_, r) => ps[f := r]
  }

  lemma RestIsLess(ps: seq<Prog>, f: nat)
    requires f < |ps| && !ps[f].Finished?
    ensures Work(Rest(ps, f)) < Work(ps)
  {
    match ps[f]
    case Return(_) => WorkUpdate(ps, f, Finished);
    case Spawn(b, r) => WorkUpdate(ps, f, r); WorkAppend(ps[f := r], b);
    case Call(_, r) => WorkUpdate(ps, f, r);
  }

  // Steps keep all indices in range

  /** `Shaped`, with the lists spelled out. */
  predicate Ranged(t: State)
  {
    && Known(t, t.curr)
    && (forall i :: 0 <= i < |t.queue| ==> t.queue[i] < |t.fibers|)
    && (forall c :: 0 <= c < |t.conds| ==> AllKnown(t, t.conds[c]))
    && (forall f :: 0 <= f < |t.fibers| ==> AllKnown(t, t.fibers[f].joiners))
  }

  lemma RangedIsShaped(t: State)
    ensures Ranged(t) <==> Shaped(t)
  {
    if Ranged(t) {
      forall c | 0 <= c < |t.conds| ensures ListKnown(t, OnCond(c)) { assert AllKnown(t, t.conds[c]); }
      forall f | 0 <= f < |t.fibers| ensures ListKnown(t, OnJoin(f)) { assert AllKnown(t, t.fibers[f].joiners); }
    }
    if Shaped(t) {
      forall c | 0 <= c < |t.conds| ensures AllKnown(t, t.conds[c]) { assert ListKnown(t, OnCond(c)); }
      forall f | 0 <= f < |t.fibers| ensures AllKnown(t, t.fibers[f].joiners) { assert ListKnown(t, OnJoin(f)); }
    }
  }

  /** The fibers there are, no fewer and no more. */
  predicate SameFibers(st: State, t: State) { Ranged(t) && |t.fibers| == |st.fibers| && |t.conds| == |st.conds| }

  lemma ReadyRanged(st: State, s: Sid)
    requires Ranged(st) && Known(st, s)
    ensures SameFibers(st, StateReady(st, s))
  {
  }

  lemma SuspendRanged(st: State)
    requires Ranged(st)
    ensures SameFibers(st, Suspend(st))
  {
  }

  lemma InsertRanged(st: State, p: Place)
    requires Ranged(st) && PlaceKnown(st, p)
    ensures SameFibers(st, Insert(st, p))
  {
    var l := ListAt(st, p) + [st.curr];
    assert AllKnown(st, l);
    SetListRanged(st, p, l, SetList(st, p, l));
    SetAtRanged(SetList(st, p, l), st.curr, Some(p), Insert(st, p));
  }

  lemma SetListRanged(st: State, p: Place, l: seq<Sid>, t: State)
    requires Ranged(st) && PlaceKnown(st, p) && AllKnown(st, l) && t == SetList(st, p, l)
    ensures SameFibers(st, t) && t.curr == st.curr
  {
  }

  lemma SetAtRanged(st: State, s: Sid, p: Option<Place>, t: State)
    requires Ranged(st) && Known(st, s) && t == SetAt(st, s, p)
    ensures SameFibers(st, t)
  {
  }

  lemma ParkRanged(st: State, p: Place)
    requires Ranged(st) && PlaceKnown(st, p)
    ensures SameFibers(st, Park(st, p))
  {
    InsertRanged(st, p);
    SuspendRanged(Insert(st, p));
  }

  lemma JoinLiveRanged(st: State, f: nat)
    requires Ranged(st) && f < |st.fibers|
    ensures SameFibers(st, Suspend(FiberReady(Insert(st, OnJoin(f)), f)))
  {
    InsertRanged(st, OnJoin(f));
    var a := Insert(st, OnJoin(f));
    ReadyRanged(a, Fib(f));
    SuspendRanged(FiberReady(a, f));
  }

  lemma JoinRanged(st: State, f: nat)
    requires Ranged(st) && f < |st.fibers|
    ensures SameFibers(st, Join(st, f))
  {
    if st.curr != Fib(f) && !st.fibers[f].dead {
      JoinLiveRanged(st, f);
    } else {
      ControlRanged(st, Join(st, f));
    }
  }

  lemma RouseRanged(st: State, p: Place)
    requires Ranged(st) && PlaceKnown(st, p) && ListAt(st, p) != [] && Known(st, ListAt(st, p)[0])
    ensures SameFibers(st, Rouse(st, p))
  {
    var l := ListAt(st, p);
    var a := SetList(st, p, l[1..]);
    SetListRanged(st, p, l[1..], a);
    SetAtRanged(a, l[0], None, SetAt(a, l[0], None));
    ReadyRanged(SetAt(a, l[0], None), l[0]);
  }

  lemma {:induction false} BroadcastRanged(st: State, c: nat)
    requires Ranged(st) && c < |st.conds| && ListKnown(st, OnCond(c))
    ensures SameFibers(st, Broadcast(st, c))
    decreases |st.conds[c]|
  {
    if st.conds[c] != [] {
      RouseLists(st, OnCond(c));
      RouseRanged(st, OnCond(c));
      BroadcastRanged(Rouse(st, OnCond(c)), c);
    }
  }

  lemma FireRanged(st: State, c: nat, status: Item)
    requires Ranged(st) && c < |st.conds| && ListKnown(st, OnCond(c))
    ensures SameFibers(st, Fire(st, c, status))
  {
    var t := SetStacks(st, st.conds[c], [status]);
    SetStacksKeeps(st, st.conds[c], [status]);
    forall f | 0 <= f < |t.fibers| ensures AllKnown(t, t.fibers[f].joiners) {
      assert AllKnown(st, st.fibers[f].joiners);
    }
    BroadcastRanged(t, c);
  }

  lemma {:induction false} WakeRanged(st: State, f: nat, vs: seq<Item>)
    requires Ranged(st) && f < |st.fibers| && ListKnown(st, OnJoin(f))
    ensures SameFibers(st, WakeJoiners(st, f, vs))
    decreases |st.fibers[f].joiners|
  {
    if st.fibers[f].joiners != [] {
      var s := st.fibers[f].joiners[0];
      RouseLists(st, OnJoin(f));
      RouseRanged(st, OnJoin(f));
      var t := Rouse(st, OnJoin(f));
      var u := if s.Fib? then Push(t, s, vs) else t;
      assert ListAt(u, OnJoin(f)) == ListAt(t, OnJoin(f));
      PushRanged(t, s, vs);
      WakeRanged(u, f, vs);
    }
  }

  lemma PushRanged(st: State, s: Sid, vs: seq<Item>)
    requires Ranged(st) && Known(st, s)
    ensures SameFibers(st, Push(st, s, vs)) && SameFibers(st, SetStack(st, s, vs))
  {
  }

  lemma ExitRanged(st: State, vs: seq<Item>)
    requires Ranged(st) && st.curr.Fib? && ListKnown(st, OnJoin(st.curr.id))
    ensures SameFibers(st, Exit(st, vs))
  {
    var f := st.curr.id;
    var u := SetStack(st, Fib(f), vs);
    PushRanged(st, Fib(f), vs);
    assert ListAt(u, OnJoin(f)) == ListAt(st, OnJoin(f));
    WakeRanged(u, f, vs);
  }

  lemma CreateRanged(st: State)
    requires Ranged(st)
    ensures Ranged(Create(st))
  {
    var t := Create(st);
    forall c | 0 <= c < |t.conds| ensures AllKnown(t, t.conds[c]) { assert AllKnown(st, st.conds[c]); }
    forall f | 0 <= f < |t.fibers| ensures AllKnown(t, t.fibers[f].joiners) {
      if f < |st.fibers| { assert AllKnown(st, st.fibers[f].joiners); }
    }
  }

  lemma NewCondRanged(st: State)
    requires Ranged(st)
    ensures Ranged(st.(conds := st.conds + [[]]))
  {
    var t := st.(conds := st.conds + [[]]);
    forall c | 0 <= c < |t.conds| ensures AllKnown(t, t.conds[c]) {
      if c < |st.conds| { assert AllKnown(st, st.conds[c]); }
    }
    forall f | 0 <= f < |t.fibers| ensures AllKnown(t, t.fibers[f].joiners) {
      assert AllKnown(st, st.fibers[f].joiners);
    }
  }

  /** Flags, queue or control change, lists do not. */
  lemma ControlRanged(st: State, t: State)
    requires Ranged(st) && |t.fibers| == |st.fibers| && t.conds == st.conds && Known(t, t.curr)
    requires forall i :: 0 <= i < |t.queue| ==> t.queue[i] < |t.fibers|
    requires forall f :: 0 <= f < |t.fibers| ==> t.fibers[f].joiners == st.fibers[f].joiners
    ensures Ranged(t)
  {
    forall c | 0 <= c < |t.conds| ensures AllKnown(t, t.conds[c]) { assert AllKnown(st, st.conds[c]); }
    forall f | 0 <= f < |t.fibers| ensures AllKnown(t, t.fibers[f].joiners) {
      assert AllKnown(st, st.fibers[f].joiners);
    }
  }

  lemma CallRanged(st: State, s: Sid)
    requires Ranged(st) && Known(st, s)
    ensures SameFibers(st, Scheduler.Call(st, s))
  {
    var u := st.(calls := st.calls - multiset{s});
    ControlRanged(st, u);
    ReadyRanged(u, s);
  }

  lemma SleepRanged(st: State)
    requires Ranged(st)
    ensures SameFibers(st, Sleep(st))
  {
    var u := st.(calls := st.calls + multiset{st.curr});
    ControlRanged(st, u);
    SuspendRanged(u);
  }

  lemma SignalRanged(st: State, c: nat)
    requires Ranged(st) && c < |st.conds| && ListKnown(st, OnCond(c))
    ensures SameFibers(st, Signal(st, c))
  {
    if st.conds[c] != [] { RouseRanged(st, OnCond(c)); }
  }

  /** A step keeps all indices in range; only creation adds a fiber. */
  lemma StepRanged(st: State, op: Op, t: State)
    requires Enabled(st, op) && t == Step(st, op)
    ensures Ranged(t) && |t.fibers| == |st.fibers| + if op.DoCreate? then 1 else 0
  {
    RangedIsShaped(st);
    if op.DoYield? || op.DoRaise? || op.DoTurn? || op.DoLeave? {
      LoopRanged(st, op, t);
    } else if LuaCall(op) || op.DoCreate? {
      LuaRanged(st, op, t);
    } else {
      CallbackRanged(st, op, t);
    }
  }

  lemma LuaRanged(st: State, op: Op, t: State)
    requires Ranged(st) && Enabled(st, op) && t == Step(st, op) && (LuaCall(op) || op.DoCreate?) && !op.DoYield?
    ensures Ranged(t) && |t.fibers| == |st.fibers| + if op.DoCreate? then 1 else 0
  {
    match op
    case DoCreate => CreateRanged(st);
    case DoNewCond => NewCondRanged(st);
    case DoReady(f) => ReadyRanged(st, Fib(f));
    case DoJoin(f) => JoinRanged(st, f);
    case DoWait(c) => ParkRanged(st, OnCond(c));
    case DoSleep => SleepRanged(st);
    case DoSignal(c) => SignalRanged(st, c);
    case DoBroadcast(c) => BroadcastRanged(st, c);
  }

  lemma CallbackRanged(st: State, op: Op, t: State)
    requires Ranged(st) && Enabled(st, op) && t == Step(st, op)
    requires op.OnSignal? || op.OnTimer? || op.DoExit? || op.Wake?
    ensures SameFibers(st, t)
  {
    match op
    case OnSignal(c) => SignalRanged(st, c);
    case OnTimer(c, status) => FireRanged(st, c, status);
    case DoExit(vs) => ExitRanged(st, vs);
    case Wake(s) => CallRanged(st, s);
  }

  lemma LoopRanged(st: State, op: Op, t: State)
    requires Ranged(st) && Enabled(st, op) && t == Step(st, op)
    requires op.DoYield? || op.DoRaise? || op.DoTurn? || op.DoLeave?
    ensures Ranged(t) && |t.fibers| == |st.fibers|
  {
    match op
    case DoYield => ControlRanged(st, t);
    case DoRaise => CloseRanged(st, st.curr.id);
    case DoTurn => TurnRanged(st);
    case DoLeave(active) => LeaveRanged(st, active);
  }

  lemma CloseRanged(st: State, f: nat)
    requires Ranged(st)
    ensures SameFibers(st, Close(st, f).(phase := Aborted))
  {
    ControlRanged(st, Close(st, f).(phase := Aborted));
  }

  lemma TurnRanged(st: State)
    requires Ranged(st)
    ensures SameFibers(st, Turn(st))
  {
    ControlRanged(st, Turn(st));
  }

  lemma LeaveRanged(st: State, active: bool)
    requires Ranged(st)
    ensures SameFibers(st, Leave(st, active))
  {
    ControlRanged(st, Leave(st, active));
  }

  // Control stays with the loop

  /** Lists and readiness change, control does not. */
  predicate SameControl(st: State, t: State) { t.phase == st.phase && t.curr == st.curr }

  lemma {:induction false} BroadcastControl(st: State, c: nat)
    requires c < |st.conds| && ListKnown(st, OnCond(c))
    ensures SameControl(st, Broadcast(st, c))
    decreases |st.conds[c]|
  {
    if st.conds[c] != [] {
      RouseLists(st, OnCond(c));
      BroadcastControl(Rouse(st, OnCond(c)), c);
    }
  }

  lemma {:induction false} WakeControl(st: State, f: nat, vs: seq<Item>)
    requires f < |st.fibers| && ListKnown(st, OnJoin(f))
    ensures SameControl(st, WakeJoiners(st, f, vs))
    decreases |st.fibers[f].joiners|
  {
    if st.fibers[f].joiners != [] {
      var s := st.fibers[f].joiners[0];
      RouseLists(st, OnJoin(f));
      var t := Rouse(st, OnJoin(f));
      var u := if s.Fib? then Push(t, s, vs) else t;
      assert ListAt(u, OnJoin(f)) == ListAt(t, OnJoin(f));
      WakeControl(u, f, vs);
    }
  }

  /** Whatever a fiber does, it goes on running or control is back with the scheduler. */
  lemma FiberControl(st: State, op: Op, t: State)
    requires Enabled(st, op) && InLua(st) && st.curr.Fib? && t == Step(st, op)
    requires LuaCall(op) || op.DoCreate? || op.DoExit? || op.DoRaise?
    ensures t.phase.Aborted? || (t.phase.Looping? && (t.curr == st.curr || t.curr.Main?))
  {
    match op
    case DoBroadcast(c) => BroadcastControl(st, c);
    case DoExit(vs) => ExitControl(st, vs);
    case DoSignal(c) => if st.conds[c] != [] { RouseControl(st, OnCond(c)); }
    case DoJoin(f) => JoinControl(st, f);
    case _ =>
  }

  lemma RouseControl(st: State, p: Place)
    requires PlaceKnown(st, p) && ListAt(st, p) != [] && Known(st, ListAt(st, p)[0])
    ensures SameControl(st, Rouse(st, p))
  {
  }

  lemma JoinControl(st: State, f: nat)
    requires f < |st.fibers| && st.curr.Fib? && Known(st, st.curr) && st.phase.Looping?
    ensures var t := Join(st, f);
            t.phase.Aborted? || (t.phase.Looping? && (t.curr == st.curr || t.curr.Main?))
  {
    if st.curr != Fib(f) && !st.fibers[f].dead {
      var a := FiberReady(Insert(st, OnJoin(f)), f);
      assert SameControl(st, a);
    }
  }

  lemma ExitControl(st: State, vs: seq<Item>)
    requires st.curr.Fib? && Known(st, st.curr) && ListKnown(st, OnJoin(st.curr.id))
    ensures Exit(st, vs).phase == st.phase && Exit(st, vs).curr.Main?
  {
    var u := SetStack(st, st.curr, vs);
    assert ListAt(u, OnJoin(st.curr.id)) == ListAt(st, OnJoin(st.curr.id));
    WakeControl(u, st.curr.id, vs);
  }

  /** Callbacks leave control where it is. */
  lemma CallbackControl(st: State, op: Op, t: State)
    requires Enabled(st, op) && (op.Wake? || op.OnSignal? || op.OnTimer?) && t == Step(st, op)
    ensures SameControl(st, t)
  {
    match op
    case Wake(_) =>
    case OnSignal(c) => assert ListKnown(st, OnCond(c)); if st.conds[c] != [] { RouseControl(st, OnCond(c)); }
    case OnTimer(c, status) =>
      assert ListAt(st, OnCond(c)) == st.conds[c];
      SetStacksKeeps(st, st.conds[c], [status]);
      BroadcastControl(SetStacks(st, st.conds[c], [status]), c);
  }
}
