/** What a woken state finds: broadcasts, the values of a fiber that has ended, timers. */
module SchedulerResults {
  import opened Options
  import opened Scheduler
  import opened SchedulerInv
  import opened SchedulerSteps
  import opened SchedulerRuns
  import opened SchedulerQueue

  // Waking all

  function OwnId(s: Sid): seq<nat> { if s.Fib? then [s.id] else [] }

  /** The fibers among some states, in order. */
  function FiberIds(l: seq<Sid>): (fs: seq<nat>)
  {
    if l == [] then [] else OwnId(l[0]) + FiberIds(l[1..])
  }

  lemma RouseQueue(st: State, p: Place, ending: Option<nat>)
    requires InvDuring(st, ending) && PlaceKnown(st, p) && ListAt(st, p) != [] && Known(st, ListAt(st, p)[0])
    ensures var t, s := Rouse(st, p), ListAt(st, p)[0];
            && t.queue == st.queue + OwnId(s)
            && (s.Fib? ==> t.fibers[s.id].ready) && (s.Main? ==> t.mainReady)
  {
    var s := ListAt(st, p)[0];
    assert ListOk(st, p) && s in ListAt(st, p);
    if s.Fib? { assert FiberOk(st, s.id); }
  }

  lemma Assoc<T>(a: seq<T>, b: seq<T>, c: seq<T>)
    ensures (a + b) + c == a + (b + c)
  {
  }

  lemma {:induction false} FiberIdsStep(l: seq<Sid>, q: seq<nat>)
    requires l != []
    ensures (q + OwnId(l[0])) + FiberIds(l[1..]) == q + FiberIds(l)
  {
    Assoc(q, OwnId(l[0]), FiberIds(l[1..]));
  }

  /** A broadcast empties the list and queues the waiting fibers in the order in which they came. */
  lemma {:induction false} BroadcastRousesAll(st: State, c: nat)
    requires Inv(st) && c < |st.conds| && ListKnown(st, OnCond(c))
    ensures var t := Broadcast(st, c);
            && c < |t.conds| && t.conds[c] == [] && t.queue == st.queue + FiberIds(st.conds[c])
            && (Main in st.conds[c] ==> t.mainReady) && |t.fibers| == |st.fibers|
    decreases |st.conds[c]|
  {
    if st.conds[c] != [] {
      var p := OnCond(c);
      RouseInv(st, p, None);
      RouseLists(st, p);
      RouseQueue(st, p, None);
      var t := Rouse(st, p);
      BroadcastRousesAll(t, c);
      FiberIdsStep(st.conds[c], st.queue);
      if st.conds[c][0].Main? { MainStaysReady(t, c); }
    }
  }

  lemma {:induction false} MainStaysReady(st: State, c: nat)
    requires c < |st.conds| && ListKnown(st, OnCond(c)) && st.mainReady
    ensures Broadcast(st, c).mainReady
    decreases |st.conds[c]|
  {
    if st.conds[c] != [] {
      RouseLists(st, OnCond(c));
      MainStaysReady(Rouse(st, OnCond(c)), c);
    }
  }

  /** Signals one after another, `n` of them. */
  function Signals(st: State, c: nat, n: nat): State
    requires c < |st.conds| && ListKnown(st, OnCond(c))
    decreases n
  {
    if n == 0 then st
    else
      (if st.conds[c] != [] then RouseLists(st, OnCond(c)); Signals(Signal(st, c), c, n - 1) else st)
  }

  /** A broadcast is as many signals as there are waiters. */
  lemma {:induction false} BroadcastIsSignals(st: State, c: nat)
    requires c < |st.conds| && ListKnown(st, OnCond(c))
    ensures Broadcast(st, c) == Signals(st, c, |st.conds[c]|)
    decreases |st.conds[c]|
  {
    if st.conds[c] != [] {
      RouseLists(st, OnCond(c));
      BroadcastIsSignals(Rouse(st, OnCond(c)), c);
    }
  }

  lemma {:induction false} WakeQueue(st: State, f: nat, vs: seq<Item>)
    requires InvDuring(st, Some(f)) && f < |st.fibers| && st.curr == Fib(f) && ListKnown(st, OnJoin(f))
    ensures WakeJoiners(st, f, vs).queue == st.queue + FiberIds(st.fibers[f].joiners)
    decreases |st.fibers[f].joiners|
  {
    if st.fibers[f].joiners != [] {
      var u := WakeOne(st, f, vs);
      WakeStep(st, f, vs, u);
      WakeOneQueue(st, f, vs, u);
      WakeQueue(u, f, vs);
      FiberIdsStep(st.fibers[f].joiners, st.queue);
    }
  }

  lemma WakeOneQueue(st: State, f: nat, vs: seq<Item>, u: State)
    requires InvDuring(st, Some(f)) && f < |st.fibers| && ListKnown(st, OnJoin(f))
    requires st.fibers[f].joiners != [] && u == WakeOne(st, f, vs)
    ensures u.queue == st.queue + OwnId(st.fibers[f].joiners[0])
  {
    RouseQueue(st, OnJoin(f), Some(f));
  }

  lemma ExitQueue(st: State, vs: seq<Item>)
    requires Inv(st) && st.curr.Fib? && ListKnown(st, OnJoin(st.curr.id))
    ensures Exit(st, vs).queue == st.queue + FiberIds(st.fibers[st.curr.id].joiners)
  {
    var f := st.curr.id;
    var u := SetStack(st, Fib(f), vs);
    StacksInv(st, u, None);
    assert InvDuring(u, Some(f)) && ListAt(u, OnJoin(f)) == ListAt(st, OnJoin(f));
    WakeQueue(u, f, vs);
  }

  // Results

  /** All stacks are as they were. */
  predicate SameStacks(st: State, t: State)
  {
    && |t.fibers| == |st.fibers| && t.mainStack == st.mainStack
    && forall g :: 0 <= g < |st.fibers| ==> t.fibers[g].stack == st.fibers[g].stack
  }

  lemma RouseStacks(st: State, p: Place)
    requires PlaceKnown(st, p) && ListAt(st, p) != [] && Known(st, ListAt(st, p)[0])
    ensures SameStacks(st, Rouse(st, p))
  {
    var s := ListAt(st, p)[0];
    var a := SetList(st, p, ListAt(st, p)[1..]);
    var b := SetAt(a, s, None);
    assert SameStacks(st, a);
    assert SameStacks(a, b);
    ReadyStacks(b, s);
  }

  lemma ReadyStacks(st: State, s: Sid)
    requires Known(st, s)
    ensures SameStacks(st, StateReady(st, s))
  {
  }

  /** The values go to the fibers on the list, each of which is there once; nobody else's stack changes. */
  lemma {:induction false} WakeDelivers(st: State, f: nat, vs: seq<Item>)
    requires InvDuring(st, Some(f)) && f < |st.fibers| && st.curr == Fib(f) && ListKnown(st, OnJoin(f))
    ensures var t := WakeJoiners(st, f, vs);
            && |t.fibers| == |st.fibers| && t.mainStack == st.mainStack
            && forall g :: 0 <= g < |st.fibers| ==>
                 t.fibers[g].stack == st.fibers[g].stack + if Fib(g) in st.fibers[f].joiners then vs else []
    decreases |st.fibers[f].joiners|
  {
    var l := st.fibers[f].joiners;
    if l != [] {
      assert ListOk(st, OnJoin(f));
      NoDupTail(l);
      var u := WakeOne(st, f, vs);
      WakeStep(st, f, vs, u);
      WakeOneStacks(st, f, vs, u);
      WakeDelivers(u, f, vs);
    }
  }

  lemma WakeOneStacks(st: State, f: nat, vs: seq<Item>, u: State)
    requires f < |st.fibers| && ListKnown(st, OnJoin(f)) && st.fibers[f].joiners != [] && u == WakeOne(st, f, vs)
    ensures |u.fibers| == |st.fibers| && u.mainStack == st.mainStack
    ensures forall g :: 0 <= g < |st.fibers| ==>
              u.fibers[g].stack == st.fibers[g].stack + if Fib(g) == st.fibers[f].joiners[0] then vs else []
  {
    RouseStacks(st, OnJoin(f));
  }

  /** When a fiber returns `vs`, every fiber that joined it gets `vs` appended to its stack, in order; the
      fiber keeps them on its own stack for the thread and for later joins, and its list is empty. */
  lemma ExitDelivers(st: State, vs: seq<Item>)
    requires Inv(st) && InLua(st) && st.curr.Fib? && ListKnown(st, OnJoin(st.curr.id))
    ensures var t, f := Exit(st, vs), st.curr.id;
            && |t.fibers| == |st.fibers| && t.mainStack == st.mainStack
            && t.fibers[f].dead && t.fibers[f].stack == vs && t.fibers[f].joiners == []
            && t.queue == st.queue + FiberIds(st.fibers[f].joiners)
            && forall g :: 0 <= g < |st.fibers| && g != f ==>
                 t.fibers[g].stack == st.fibers[g].stack + if Fib(g) in st.fibers[f].joiners then vs else []
  {
    var f := st.curr.id;
    var u := SetStack(st, Fib(f), vs);
    StacksInv(st, u, None);
    assert InvDuring(u, Some(f)) && ListAt(u, OnJoin(f)) == ListAt(st, OnJoin(f));
    WakeDelivers(u, f, vs);
    WakeJoinersInv(u, f, vs);
    ExitQueue(st, vs);
    assert FiberOk(st, f) && ListOk(st, OnJoin(f));
    assert Fib(f) !in st.fibers[f].joiners;
    assert vs + [] == vs;
  }

  // The dead

  /** Fiber `f` is as it was. */
  predicate Same(st: State, t: State, f: nat) { f < |st.fibers| <= |t.fibers| && t.fibers[f] == st.fibers[f] }

  predicate Dead(st: State, f: nat) { f < |st.fibers| && st.fibers[f].dead }

  lemma RouseSame(st: State, p: Place, ending: Option<nat>, f: nat)
    requires InvDuring(st, ending) && PlaceKnown(st, p) && ListAt(st, p) != [] && Known(st, ListAt(st, p)[0])
    requires Dead(st, f) && p != OnJoin(f)
    ensures Same(st, Rouse(st, p), f)
  {
    assert ListOk(st, p) && ListAt(st, p)[0] in ListAt(st, p) && FiberOk(st, f);
    RouseOther(st, p, f);
  }

  lemma RouseOther(st: State, p: Place, f: nat)
    requires PlaceKnown(st, p) && ListAt(st, p) != [] && Known(st, ListAt(st, p)[0]) && f < |st.fibers|
    requires ListAt(st, p)[0] != Fib(f) && p != OnJoin(f)
    ensures Same(st, Rouse(st, p), f)
  {
    var s := ListAt(st, p)[0];
    var a := SetList(st, p, ListAt(st, p)[1..]);
    assert Same(st, a, f);
    var b := SetAt(a, s, None);
    assert Same(a, b, f);
    assert Same(b, StateReady(b, s), f);
  }

  lemma {:induction false} BroadcastSame(st: State, c: nat, f: nat)
    requires Inv(st) && c < |st.conds| && ListKnown(st, OnCond(c)) && Dead(st, f)
    ensures Same(st, Broadcast(st, c), f)
    decreases |st.conds[c]|
  {
    if st.conds[c] != [] {
      RouseInv(st, OnCond(c), None);
      RouseLists(st, OnCond(c));
      RouseSame(st, OnCond(c), None, f);
      BroadcastSame(Rouse(st, OnCond(c)), c, f);
    }
  }

  lemma {:induction false} StacksSame(st: State, l: seq<Sid>, vs: seq<Item>, f: nat)
    requires AllKnown(st, l) && f < |st.fibers| && Fib(f) !in l
    ensures Same(st, SetStacks(st, l, vs), f)
    decreases |l|
  {
    if l != [] {
      assert forall i :: 0 <= i < |l[1..]| ==> l[1..][i] == l[i + 1];
      StacksSame(SetStack(st, l[0], vs), l[1..], vs, f);
    }
  }

  lemma FireSame(st: State, c: nat, status: Item, f: nat)
    requires Inv(st) && c < |st.conds| && ListKnown(st, OnCond(c)) && Dead(st, f)
    ensures Same(st, Fire(st, c, status), f)
  {
    var t := SetStacks(st, st.conds[c], [status]);
    assert FiberOk(st, f) && ListOk(st, OnCond(c));
    SetStacksKeeps(st, st.conds[c], [status]);
    StacksInv(st, t, None);
    StacksSame(st, st.conds[c], [status], f);
    BroadcastSame(t, c, f);
  }

  lemma {:induction false} WakeSame(st: State, e: nat, vs: seq<Item>, f: nat)
    requires InvDuring(st, Some(e)) && e < |st.fibers| && st.curr == Fib(e) && ListKnown(st, OnJoin(e))
    requires Dead(st, f) && f != e
    ensures Same(st, WakeJoiners(st, e, vs), f)
    decreases |st.fibers[e].joiners|
  {
    if st.fibers[e].joiners != [] {
      var u := WakeOne(st, e, vs);
      WakeStep(st, e, vs, u);
      WakeOneSame(st, e, vs, u, f);
      WakeSame(u, e, vs, f);
    }
  }

  lemma WakeOneSame(st: State, e: nat, vs: seq<Item>, u: State, f: nat)
    requires InvDuring(st, Some(e)) && e < |st.fibers| && ListKnown(st, OnJoin(e)) && st.fibers[e].joiners != []
    requires u == WakeOne(st, e, vs) && Dead(st, f) && f != e
    ensures Same(st, u, f)
  {
    assert ListOk(st, OnJoin(e)) && st.fibers[e].joiners[0] in ListAt(st, OnJoin(e)) && FiberOk(st, f);
    RouseSame(st, OnJoin(e), Some(e), f);
  }

  lemma ExitSame(st: State, vs: seq<Item>, f: nat)
    requires Inv(st) && st.curr.Fib? && ListKnown(st, OnJoin(st.curr.id)) && Dead(st, f)
    ensures Same(st, Exit(st, vs), f)
  {
    var e := st.curr.id;
    assert FiberOk(st, e);
    var u := SetStack(st, Fib(e), vs);
    StacksInv(st, u, None);
    assert InvDuring(u, Some(e)) && ListAt(u, OnJoin(e)) == ListAt(st, OnJoin(e));
    WakeSame(u, e, vs, f);
    WakeJoinersInv(u, e, vs);
  }

  lemma JoinSame(st: State, g: nat, f: nat)
    requires Inv(st) && InLua(st) && g < |st.fibers| && Dead(st, f)
    ensures Same(st, Join(st, g), f)
  {
    assert FiberOk(st, f);
    if st.curr != Fib(g) && !st.fibers[g].dead {
      var a := Insert(st, OnJoin(g));
      assert Same(st, a, f);
      var b := FiberReady(a, g);
      assert Same(st, b, f);
    }
  }

  lemma ParkSame(st: State, p: Place, f: nat)
    requires Inv(st) && InLua(st) && PlaceKnown(st, p) && !p.OnJoin? && Dead(st, f)
    ensures Same(st, Park(st, p), f)
  {
    assert FiberOk(st, f);
  }

  lemma SignalSame(st: State, c: nat, f: nat)
    requires Inv(st) && c < |st.conds| && ListKnown(st, OnCond(c)) && Dead(st, f)
    ensures Same(st, Signal(st, c), f)
  {
    if st.conds[c] != [] {
      RouseInv(st, OnCond(c), None);
      RouseSame(st, OnCond(c), None, f);
    }
  }

  lemma CallSame(st: State, s: Sid, f: nat)
    requires Inv(st) && Known(st, s) && Dead(st, f)
    ensures Same(st, Call(st, s), f)
  {
    assert FiberOk(st, f);
  }

  lemma SleepSame(st: State, f: nat)
    requires Inv(st) && InLua(st) && Dead(st, f)
    ensures Same(st, Sleep(st), f)
  {
    assert FiberOk(st, f);
  }

  lemma TurnSame(st: State, f: nat)
    requires Inv(st) && Dead(st, f)
    ensures Same(st, Turn(st), f)
  {
    if st.queue != [] { assert st.queue[0] in st.queue && FiberOk(st, st.queue[0]); }
  }

  lemma CloseSame(st: State, f: nat)
    requires Inv(st) && Dead(st, f) && st.curr.Fib?
    ensures Same(st, Close(st, st.curr.id), f)
  {
    assert FiberOk(st, f);
  }

  /** With the invariant of allowed runs, no step changes a fiber that has ended. */
  lemma DeadStays(st: State, op: Op, f: nat, t: State)
    requires Inv(st) && Enabled(st, op) && Dead(st, f) && t == Step(st, op)
    ensures Same(st, t, f)
  {
    match op
    case DoCreate =>
    case DoNewCond =>
    case DoReady(g) => assert FiberOk(st, f);
    case DoJoin(g) => JoinSame(st, g, f);
    case DoWait(c) => ParkSame(st, OnCond(c), f);
    case DoSleep => SleepSame(st, f);
    case DoSignal(c) => SignalSame(st, c, f);
    case DoBroadcast(c) => BroadcastSame(st, c, f);
    case DoYield =>
    case DoExit(vs) => ExitSame(st, vs, f);
    case DoRaise => CloseSame(st, f);
    case DoTurn => TurnSame(st, f);
    case Wake(s) => CallSame(st, s, f);
    case OnSignal(c) => SignalSame(st, c, f);
    case OnTimer(c, status) => FireSame(st, c, status, f);
    case DoLeave(_) =>
  }

  /** In an allowed run nothing changes a fiber that has ended. */
  lemma {:induction false} DeadForever(st: State, ops: seq<Op>, f: nat)
    requires Inv(st) && Legal(st, ops) && Dead(st, f)
    ensures Runs(st, ops) && Inv(Exec(st, ops)) && Same(st, Exec(st, ops), f)
    decreases |ops|
  {
    if ops != [] {
      StepKeeps(st, ops[0]);
      DeadStays(st, ops[0], f, Step(st, ops[0]));
      DeadForever(Step(st, ops[0]), ops[1..], f);
    }
  }

  // The values of the dead in any run

  /** The step writes over the values of the dead fiber `f`: a timer fires that the fiber waited for when it
      was made ready, or a fiber ends that it was joining then. */
  predicate Spoils(st: State, op: Op, f: nat)
    requires Enabled(st, op) && f < |st.fibers|
  {
    match op
    case OnTimer(c, status) => Fib(f) in st.conds[c] && st.fibers[f].stack != [status]
    case DoExit(vs) => Fib(f) in st.fibers[st.curr.id].joiners && vs != []
    case _ => false
  }

  /** The dead fiber `f` is still dead. */
  predicate StillDead(st: State, t: State, f: nat) { |st.fibers| <= |t.fibers| && Dead(t, f) }

  lemma RouseDead(st: State, p: Place, f: nat)
    requires PlaceKnown(st, p) && ListAt(st, p) != [] && Known(st, ListAt(st, p)[0]) && f < |st.fibers|
    ensures |Rouse(st, p).fibers| == |st.fibers| && Rouse(st, p).fibers[f].dead == st.fibers[f].dead
  {
    var s := ListAt(st, p)[0];
    var t := SetList(st, p, ListAt(st, p)[1..]);
    var u := SetAt(t, s, None);
    assert t.fibers[f].dead == st.fibers[f].dead;
    assert u.fibers[f].dead == st.fibers[f].dead;
    ReadyDead(u, s, f);
  }

  lemma ReadyDead(st: State, s: Sid, f: nat)
    requires Known(st, s) && f < |st.fibers|
    ensures var t := StateReady(st, s);
            && |t.fibers| == |st.fibers| && t.fibers[f].dead == st.fibers[f].dead
            && t.fibers[f].stack == st.fibers[f].stack
  {
  }

  lemma {:induction false} BroadcastDead(st: State, c: nat, f: nat)
    requires c < |st.conds| && ListKnown(st, OnCond(c)) && Dead(st, f)
    ensures StillDead(st, Broadcast(st, c), f)
    decreases |st.conds[c]|
  {
    if st.conds[c] != [] {
      RouseLists(st, OnCond(c));
      RouseDead(st, OnCond(c), f);
      BroadcastDead(Rouse(st, OnCond(c)), c, f);
    }
  }

  lemma InFirstOrRest<T>(l: seq<T>, x: T)
    requires l != []
    ensures x in l <==> x == l[0] || x in l[1..]
  {
    assert l == [l[0]] + l[1..];
  }

  lemma SetStackAt(st: State, s: Sid, vs: seq<Item>, f: nat, t: State)
    requires Known(st, s) && f < |st.fibers| && t == SetStack(st, s, vs)
    ensures |t.fibers| == |st.fibers| && t.fibers[f].stack == if s == Fib(f) then vs else st.fibers[f].stack
  {
  }

  lemma {:induction false} StackSet(st: State, l: seq<Sid>, vs: seq<Item>, f: nat)
    requires AllKnown(st, l) && f < |st.fibers|
    ensures var t := SetStacks(st, l, vs);
            |t.fibers| == |st.fibers| && t.fibers[f].stack == if Fib(f) in l then vs else st.fibers[f].stack
    decreases |l|
  {
    if l != [] {
      assert forall i :: 0 <= i < |l[1..]| ==> l[1..][i] == l[i + 1];
      InFirstOrRest(l, Fib(f));
      var t := SetStack(st, l[0], vs);
      SetStackAt(st, l[0], vs, f, t);
      StackSet(t, l[1..], vs, f);
    }
  }

  lemma FireDead(st: State, c: nat, status: Item, f: nat)
    requires c < |st.conds| && ListKnown(st, OnCond(c)) && Dead(st, f)
    ensures var t := Fire(st, c, status);
            && StillDead(st, t, f)
            && t.fibers[f].stack == if Fib(f) in st.conds[c] then [status] else st.fibers[f].stack
  {
    var u := SetStacks(st, st.conds[c], [status]);
    StackSet(st, st.conds[c], [status], f);
    SetStacksKeeps(st, st.conds[c], [status]);
    BroadcastDead(u, c, f);
    BroadcastStacks(u, c);
  }

  /** The stack `b` is `a` with something added exactly if `vs` is not empty and the fiber is `listed`. */
  predicate Extended(a: seq<Item>, b: seq<Item>, vs: seq<Item>, listed: bool)
  {
    a <= b && (a == b <==> !listed || vs == [])
  }

  lemma ExtendedTwice(a: seq<Item>, b: seq<Item>, c: seq<Item>, vs: seq<Item>, first: bool, rest: bool)
    requires b == a + (if first then vs else []) && Extended(b, c, vs, rest)
    ensures Extended(a, c, vs, first || rest)
  {
  }

  /** A fiber that is listed gets the values, as often as it is listed. */
  lemma {:induction false} WakeDead(st: State, e: nat, vs: seq<Item>, f: nat)
    requires Flows(st) && e < |st.fibers| && ListKnown(st, OnJoin(e)) && f < |st.fibers|
    ensures var t := WakeJoiners(st, e, vs);
            && |t.fibers| == |st.fibers| && t.fibers[f].dead == st.fibers[f].dead
            && Extended(st.fibers[f].stack, t.fibers[f].stack, vs, Fib(f) in st.fibers[e].joiners)
    decreases |st.fibers[e].joiners|
  {
    var l := st.fibers[e].joiners;
    if l != [] {
      var u := WakeOne(st, e, vs);
      WakeStepFlows(st, e, vs, u);
      WakeOneDead(st, e, vs, u, f);
      WakeDead(u, e, vs, f);
      InFirstOrRest(l, Fib(f));
      ExtendedTwice(st.fibers[f].stack, u.fibers[f].stack, WakeJoiners(u, e, vs).fibers[f].stack, vs,
                    Fib(f) == l[0], Fib(f) in l[1..]);
    }
  }

  lemma WakeOneDead(st: State, e: nat, vs: seq<Item>, u: State, f: nat)
    requires e < |st.fibers| && ListKnown(st, OnJoin(e)) && st.fibers[e].joiners != [] && f < |st.fibers|
    requires u == WakeOne(st, e, vs)
    ensures |u.fibers| == |st.fibers| && u.fibers[f].dead == st.fibers[f].dead
    ensures u.fibers[f].stack == st.fibers[f].stack + if Fib(f) == st.fibers[e].joiners[0] then vs else []
  {
    RouseDead(st, OnJoin(e), f);
    WakeOneStacks(st, e, vs, u);
  }

  lemma ExitDead(st: State, vs: seq<Item>, f: nat)
    requires Flows(st) && st.curr.Fib? && ListKnown(st, OnJoin(st.curr.id)) && Dead(st, f)
    ensures var t := Exit(st, vs);
            && StillDead(st, t, f)
            && (t.fibers[f].stack == st.fibers[f].stack <==> Fib(f) !in st.fibers[st.curr.id].joiners || vs == [])
  {
    var e := st.curr.id;
    assert FiberFlows(st, e);
    var u := SetStack(st, Fib(e), vs);
    StacksFlow(st, u);
    assert ListAt(u, OnJoin(e)) == ListAt(st, OnJoin(e));
    WakeDead(u, e, vs, f);
  }

  lemma JoinDead(st: State, g: nat, f: nat)
    requires Flows(st) && InLua(st) && g < |st.fibers| && Dead(st, f)
    ensures StillDead(st, Join(st, g), f) && Join(st, g).fibers[f].stack == st.fibers[f].stack
  {
    assert FiberFlows(st, f);
  }

  lemma SignalDead(st: State, c: nat, f: nat)
    requires c < |st.conds| && ListKnown(st, OnCond(c)) && Dead(st, f)
    ensures StillDead(st, Signal(st, c), f) && Signal(st, c).fibers[f].stack == st.fibers[f].stack
  {
    if st.conds[c] != [] {
      RouseDead(st, OnCond(c), f);
      RouseStacks(st, OnCond(c));
    }
  }

  lemma ParkDead(st: State, p: Place, f: nat)
    requires PlaceKnown(st, p) && Known(st, st.curr) && Dead(st, f)
    ensures StillDead(st, Park(st, p), f) && Park(st, p).fibers[f].stack == st.fibers[f].stack
  {
    var t := SetList(st, p, ListAt(st, p) + [st.curr]);
    assert t.fibers[f].dead && t.fibers[f].stack == st.fibers[f].stack;
    var u := Insert(st, p);
    assert u.fibers[f].dead && u.fibers[f].stack == st.fibers[f].stack;
  }

  lemma TurnDead(st: State, f: nat)
    requires Flows(st) && Dead(st, f)
    ensures StillDead(st, Turn(st), f) && Turn(st).fibers[f].stack == st.fibers[f].stack
  {
  }

  lemma SleepDead(st: State, f: nat)
    requires Known(st, st.curr) && Dead(st, f)
    ensures StillDead(st, Sleep(st), f) && Sleep(st).fibers[f].stack == st.fibers[f].stack
  {
  }

  /** Whatever happens, a dead fiber stays dead, and a step keeps its values exactly if it is none of the two
      that write over them. */
  lemma DeadKeepsExactly(st: State, op: Op, f: nat)
    requires Flows(st) && Enabled(st, op) && Dead(st, f)
    ensures var t := Step(st, op);
            StillDead(st, t, f) && (t.fibers[f].stack == st.fibers[f].stack <==> !Spoils(st, op, f))
  {
    match op
    case DoReady(g) => ReadyDead(st, Fib(g), f);
    case DoWait(c) => ParkDead(st, OnCond(c), f);
    case DoSleep => SleepDead(st, f);
    case DoTurn => TurnDead(st, f);
    case Wake(s) => ReadyDead(st.(calls := st.calls - multiset{s}), s, f);
    case DoJoin(g) => JoinDead(st, g, f);
    case DoSignal(c) => SignalDead(st, c, f);
    case OnSignal(c) => SignalDead(st, c, f);
    case DoBroadcast(c) => BroadcastDead(st, c, f); BroadcastStacks(st, c);
    case DoExit(vs) => ExitDead(st, vs, f);
    case OnTimer(c, status) => FireDead(st, c, status, f);
    case _ =>
  }

  /** No step of the run writes over the values of fiber `f`. */
  predicate Spared(st: State, ops: seq<Op>, f: nat)
    requires Runs(st, ops)
    decreases |ops|
  {
    ops != [] ==> f < |st.fibers| && !Spoils(st, ops[0], f) && Spared(Step(st, ops[0]), ops[1..], f)
  }

  lemma {:induction false} SparedKeeps(st: State, ops: seq<Op>, f: nat)
    requires Flows(st) && Runs(st, ops) && Dead(st, f)
    ensures Flows(Exec(st, ops)) && StillDead(st, Exec(st, ops), f)
    ensures Spared(st, ops, f) ==> Exec(st, ops).fibers[f].stack == st.fibers[f].stack
    decreases |ops|
  {
    if ops != [] {
      StepFlows(st, ops[0]);
      DeadKeepsExactly(st, ops[0], f);
      SparedKeeps(Step(st, ops[0]), ops[1..], f);
    }
  }

  /** An allowed run spares the dead. */
  lemma {:induction false} LegalSpares(st: State, ops: seq<Op>, f: nat)
    requires Inv(st) && Legal(st, ops) && Dead(st, f)
    ensures Runs(st, ops) && Spared(st, ops, f)
    decreases |ops|
  {
    if ops != [] {
      StepKeeps(st, ops[0]);
      InvFlows(st);
      DeadKeepsExactly(st, ops[0], f);
      DeadStays(st, ops[0], f, Step(st, ops[0]));
      LegalSpares(Step(st, ops[0]), ops[1..], f);
    }
  }

  /** What a fiber leaves when it ends. */
  lemma ExitLeaves(st: State, vs: seq<Item>)
    requires Flows(st) && st.curr.Fib? && ListKnown(st, OnJoin(st.curr.id))
    ensures var t, f := Exit(st, vs), st.curr.id; Flows(t) && Dead(t, f) && t.fibers[f].stack == vs
  {
    var f := st.curr.id;
    var u := SetStack(st, Fib(f), vs);
    assert FiberFlows(st, f);
    StacksFlow(st, u);
    assert ListAt(u, OnJoin(f)) == ListAt(st, OnJoin(f));
    WakeDead(u, f, vs, f);
    ExitFlows(st, vs);
  }

  /** The run after the exit of the running fiber does not write over its values: no step does, or the run
      is an allowed one. */
  ghost predicate Keeps(st: State, vs: seq<Item>, ops: seq<Op>)
    requires st.curr.Fib? && Known(st, st.curr) && ListKnown(st, OnJoin(st.curr.id)) && Runs(Exit(st, vs), ops)
  {
    Spared(Exit(st, vs), ops, st.curr.id) || (Inv(st) && InLua(st) && Legal(Exit(st, vs), ops))
  }

  lemma KeptValues(st: State, vs: seq<Item>, ops: seq<Op>)
    requires Flows(st) && st.curr.Fib? && ListKnown(st, OnJoin(st.curr.id))
    requires Runs(Exit(st, vs), ops) && Keeps(st, vs, ops)
    ensures var f, t := st.curr.id, Exec(Exit(st, vs), ops); Flows(t) && Dead(t, f) && t.fibers[f].stack == vs
  {
    ExitLeaves(st, vs);
    if Inv(st) && InLua(st) && Legal(Exit(st, vs), ops) {
      ExitInv(st, vs);
      LegalSpares(Exit(st, vs), ops, st.curr.id);
    }
    SparedKeeps(Exit(st, vs), ops, st.curr.id);
  }

  /** After a fiber has returned `vs`, every later join, however many come and whatever happens in
      between that does not write over the values, copies exactly `vs`. */
  lemma LateJoin(st: State, vs: seq<Item>, ops: seq<Op>)
    requires Flows(st) && st.curr.Fib? && ListKnown(st, OnJoin(st.curr.id))
    requires Runs(Exit(st, vs), ops) && Keeps(st, vs, ops)
    ensures var f, t := st.curr.id, Exec(Exit(st, vs), ops);
            && f < |t.fibers| && Known(t, t.curr)
            && (Enabled(t, DoJoin(f)) ==> Step(t, DoJoin(f)) == Push(t, t.curr, vs))
  {
    KeptValues(st, vs, ops);
    DeadJoin(Exec(Exit(st, vs), ops), st.curr.id);
  }

  lemma DeadJoin(t: State, f: nat)
    requires Flows(t) && Dead(t, f)
    ensures Known(t, t.curr) && (Enabled(t, DoJoin(f)) ==> Step(t, DoJoin(f)) == Push(t, t.curr, t.fibers[f].stack))
  {
    assert FiberFlows(t, f);
  }

  /** A thread that joined the fiber finds `vs` appended to its stack when it goes on, after any such
      run. */
  lemma ThreadJoin(st: State, vs: seq<Item>, ops: seq<Op>, active: bool)
    requires Flows(st) && st.curr.Fib? && ListKnown(st, OnJoin(st.curr.id))
    requires Runs(Exit(st, vs), ops) && Keeps(st, vs, ops)
    ensures var t := Exec(Exit(st, vs), ops);
            t.copyFrom == Some(st.curr.id) && Enabled(t, DoLeave(active)) && Step(t, DoLeave(active)).phase.Running?
            ==> Step(t, DoLeave(active)).mainStack == t.mainStack + vs
  {
    KeptValues(st, vs, ops);
    LeaveCopies(Exec(Exit(st, vs), ops), st.curr.id, active);
  }

  lemma LeaveCopies(t: State, f: nat, active: bool)
    requires f < |t.fibers|
    ensures t.copyFrom == Some(f) && Enabled(t, DoLeave(active)) && Step(t, DoLeave(active)).phase.Running?
            ==> Step(t, DoLeave(active)).mainStack == t.mainStack + t.fibers[f].stack
  {
  }

  /** A thread that joins a fiber goes on only after the fiber has ended. */
  lemma ThreadJoinWaits(st: State, active: bool)
    requires Inv(st) && Enabled(st, DoLeave(active)) && st.copyFrom.Some? && Step(st, DoLeave(active)).phase.Running?
    ensures st.copyFrom.value < |st.fibers| && st.fibers[st.copyFrom.value].dead
  {
  }

  // Timers

  lemma {:induction false} StacksSet(st: State, l: seq<Sid>, vs: seq<Item>)
    requires AllKnown(st, l) && NoDup(l)
    ensures var t := SetStacks(st, l, vs);
            && |t.fibers| == |st.fibers|
            && (Main in l ==> t.mainStack == vs)
            && forall g :: 0 <= g < |st.fibers| && Fib(g) in l ==> t.fibers[g].stack == vs
    decreases |l|
  {
    if l != [] {
      assert forall i :: 0 <= i < |l[1..]| ==> l[1..][i] == l[i + 1];
      NoDupTail(l);
      var t := SetStack(st, l[0], vs);
      StacksSet(t, l[1..], vs);
      if l[0].Fib? { StacksSame(t, l[1..], vs, l[0].id); } else { MainStackSame(t, l[1..], vs); }
    }
  }

  lemma {:induction false} MainStackSame(st: State, l: seq<Sid>, vs: seq<Item>)
    requires AllKnown(st, l) && Main !in l
    ensures SetStacks(st, l, vs).mainStack == st.mainStack
    decreases |l|
  {
    if l != [] {
      assert forall i :: 0 <= i < |l[1..]| ==> l[1..][i] == l[i + 1];
      MainStackSame(SetStack(st, l[0], vs), l[1..], vs);
    }
  }

  lemma {:induction false} BroadcastStacks(st: State, c: nat)
    requires c < |st.conds| && ListKnown(st, OnCond(c))
    ensures var t := Broadcast(st, c);
            SameStacks(st, t)
    decreases |st.conds[c]|
  {
    if st.conds[c] != [] {
      RouseLists(st, OnCond(c));
      RouseStacks(st, OnCond(c));
      BroadcastStacks(Rouse(st, OnCond(c)), c);
    }
  }

  /** When a timer fires, every waiter is made ready in the order of waiting and finds just the status on
      its stack. */
  lemma TimerDelivers(st: State, c: nat, status: Item)
    requires Inv(st) && c < |st.conds| && ListKnown(st, OnCond(c))
    ensures var t := Fire(st, c, status);
            && |t.fibers| == |st.fibers| && c < |t.conds| && t.conds[c] == []
            && t.queue == st.queue + FiberIds(st.conds[c])
            && (Main in st.conds[c] ==> t.mainReady && t.mainStack == [status])
            && forall g :: 0 <= g < |st.fibers| && Fib(g) in st.conds[c] ==> t.fibers[g].stack == [status]
  {
    var l := st.conds[c];
    var u := SetStacks(st, l, [status]);
    assert ListOk(st, OnCond(c));
    SetStacksKeeps(st, l, [status]);
    StacksInv(st, u, None);
    StacksSet(st, l, [status]);
    BroadcastRousesAll(u, c);
    BroadcastStacks(u, c);
  }
}
