/** What every step of the scheduler does, said of its result: who is made ready, who is suspended, which list
    changes how, what is on whose stack, and who has control. */
module SchedulerEffects {
  import opened Options
  import opened Scheduler
  import opened SchedulerInv
  import opened SchedulerSteps
  import opened SchedulerQueue
  import opened SchedulerResults
  import P = Programs

  // Readiness

  predicate IsReady(st: State, s: Sid)
    requires Known(st, s)
  {
    if s.Main? then st.mainReady else st.fibers[s.id].ready
  }

  /** The step is a join that has to wait. */
  predicate JoinsLive(st: State, op: Op)
    requires Enabled(st, op)
  {
    op.DoJoin? && st.curr != Fib(op.f) && !st.fibers[op.f].dead
  }

  /** The step makes `s` ready: by name, by a join, by a signal if it waits first, by a broadcast or a timer if it
      waits at all, by the end of a fiber it joined, by its own callback, or for lack of active handles. */
  predicate Rouses(st: State, op: Op, s: Sid)
    requires Enabled(st, op)
  {
    match op
    case DoReady(f) => s == Fib(f)
    case DoJoin(f) => s == Fib(f) && JoinsLive(st, op)
    case DoSignal(c) => st.conds[c] != [] && s == st.conds[c][0]
    case OnSignal(c) => st.conds[c] != [] && s == st.conds[c][0]
    case DoBroadcast(c) => s in st.conds[c]
    case OnTimer(c, _) => s in st.conds[c]
    case DoExit(_) => s in st.fibers[st.curr.id].joiners
    case Wake(x) => s == x
    case DoLeave(active) => s == Main && !active
    case _ => false
  }

  /** The step suspends the running state: it waits, sleeps, or joins a fiber that is alive. */
  predicate Suspends(st: State, op: Op)
    requires Enabled(st, op)
  {
    op.DoWait? || op.DoSleep? || JoinsLive(st, op)
  }

  lemma ReadyReadies(st: State, x: Sid, s: Sid)
    requires Known(st, x) && Known(st, s)
    ensures Known(StateReady(st, x), s) && (IsReady(StateReady(st, x), s) <==> IsReady(st, s) || s == x)
  {
  }

  lemma RouseReadies(st: State, p: Place, s: Sid)
    requires PlaceKnown(st, p) && ListAt(st, p) != [] && Known(st, ListAt(st, p)[0]) && Known(st, s)
    ensures var t := Rouse(st, p); Known(t, s) && (IsReady(t, s) <==> IsReady(st, s) || s == ListAt(st, p)[0])
  {
    var x := ListAt(st, p)[0];
    var a := SetList(st, p, ListAt(st, p)[1..]);
    assert Known(a, s) && IsReady(a, s) == IsReady(st, s);
    var b := SetAt(a, x, None);
    assert Known(b, s) && IsReady(b, s) == IsReady(st, s);
    ReadyReadies(b, x, s);
  }

  lemma {:induction false} BroadcastReadies(st: State, c: nat, s: Sid)
    requires c < |st.conds| && ListKnown(st, OnCond(c)) && Known(st, s)
    ensures var t := Broadcast(st, c); Known(t, s) && (IsReady(t, s) <==> IsReady(st, s) || s in st.conds[c])
    decreases |st.conds[c]|
  {
    if st.conds[c] != [] {
      RouseLists(st, OnCond(c));
      RouseReadies(st, OnCond(c), s);
      InFirstOrRest(st.conds[c], s);
      BroadcastReadies(Rouse(st, OnCond(c)), c, s);
    }
  }

  lemma FireReadies(st: State, c: nat, status: Item, s: Sid)
    requires c < |st.conds| && ListKnown(st, OnCond(c)) && Known(st, s)
    ensures var t := Fire(st, c, status); Known(t, s) && (IsReady(t, s) <==> IsReady(st, s) || s in st.conds[c])
  {
    SetStacksKeeps(st, st.conds[c], [status]);
    BroadcastReadies(SetStacks(st, st.conds[c], [status]), c, s);
  }

  lemma {:induction false} WakeReadies(st: State, f: nat, vs: seq<Item>, s: Sid)
    requires Flows(st) && f < |st.fibers| && ListKnown(st, OnJoin(f)) && Known(st, s)
    ensures var t := WakeJoiners(st, f, vs);
            && |t.fibers| == |st.fibers| && (IsReady(t, s) <==> IsReady(st, s) || s in st.fibers[f].joiners)
    decreases |st.fibers[f].joiners|
  {
    var l := st.fibers[f].joiners;
    if l != [] {
      var u := WakeOne(st, f, vs);
      RouseReadies(st, OnJoin(f), s);
      WakeStepFlows(st, f, vs, u);
      assert IsReady(u, s) == IsReady(Rouse(st, OnJoin(f)), s);
      InFirstOrRest(l, s);
      WakeReadies(u, f, vs, s);
    }
  }

  lemma ExitReadies(st: State, vs: seq<Item>, s: Sid)
    requires Flows(st) && st.curr.Fib? && ListKnown(st, OnJoin(st.curr.id)) && Known(st, s)
    ensures var t := Exit(st, vs);
            Known(t, s) && (IsReady(t, s) <==> IsReady(st, s) || s in st.fibers[st.curr.id].joiners)
  {
    var f := st.curr.id;
    var u := SetStack(st, Fib(f), vs);
    StacksFlow(st, u);
    assert ListAt(u, OnJoin(f)) == ListAt(st, OnJoin(f)) && IsReady(u, s) == IsReady(st, s);
    WakeReadies(u, f, vs, s);
  }

  lemma ParkReadies(st: State, p: Place, s: Sid)
    requires Flows(st) && InLua(st) && PlaceKnown(st, p) && Known(st, s)
    ensures var t := Park(st, p); Known(t, s) && (IsReady(t, s) <==> IsReady(st, s) && s != st.curr)
  {
    if st.curr.Fib? { assert FiberFlows(st, st.curr.id); }
    var u := Insert(st, p);
    assert Known(u, s) && IsReady(u, s) == IsReady(st, s) && u.curr == st.curr;
  }

  lemma JoinReadies(st: State, f: nat, s: Sid)
    requires Flows(st) && InLua(st) && f < |st.fibers| && Known(st, s)
    requires st.curr != Fib(f) && !st.fibers[f].dead
    ensures var t := Join(st, f); Known(t, s) && (IsReady(t, s) <==> (IsReady(st, s) || s == Fib(f)) && s != st.curr)
  {
    JoinIsPark(st, f);
    FiberReadyFlows(st, f);
    ReadyReadies(st, Fib(f), s);
    ParkReadies(FiberReady(st, f), OnJoin(f), s);
  }

  lemma SleepReadies(st: State, s: Sid)
    requires Flows(st) && InLua(st) && Known(st, s)
    ensures var t := Sleep(st); Known(t, s) && (IsReady(t, s) <==> IsReady(st, s) && s != st.curr)
  {
    if st.curr.Fib? { assert FiberFlows(st, st.curr.id); }
  }

  /** Exactly these are ready after a step: who was before or is roused by it, and is not suspended by it. */
  lemma StepReadies(st: State, op: Op, s: Sid)
    requires Flows(st) && Enabled(st, op) && Known(st, s)
    ensures var t := Step(st, op);
            && Known(t, s)
            && (IsReady(t, s) <==> (IsReady(st, s) || Rouses(st, op, s)) && !(Suspends(st, op) && s == st.curr))
  {
    match op
    case DoReady(f) => ReadyReadies(st, Fib(f), s);
    case DoJoin(f) => if JoinsLive(st, op) { JoinReadies(st, f, s); }
    case DoWait(c) => ParkReadies(st, OnCond(c), s);
    case DoSleep => SleepReadies(st, s);
    case DoSignal(c) => if st.conds[c] != [] { RouseReadies(st, OnCond(c), s); }
    case OnSignal(c) => if st.conds[c] != [] { RouseReadies(st, OnCond(c), s); }
    case DoBroadcast(c) => BroadcastReadies(st, c, s);
    case OnTimer(c, status) => FireReadies(st, c, status, s);
    case DoExit(vs) => ExitReadies(st, vs, s);
    case Wake(x) => ReadyReadies(st.(calls := st.calls - multiset{x}), x, s);
    case _ => QuietReadies(st, op, s);
  }

  /** Steps that make no call of the scheduler's functions for waking and waiting. */
  predicate Quiet(op: Op)
  {
    op.DoCreate? || op.DoNewCond? || op.DoYield? || op.DoRaise? || op.DoTurn? || op.DoLeave?
  }

  lemma QuietReadies(st: State, op: Op, s: Sid)
    requires Flows(st) && Enabled(st, op) && Known(st, s) && Quiet(op)
    ensures Known(Step(st, op), s) && (IsReady(Step(st, op), s) <==> IsReady(st, s) || Rouses(st, op, s))
  {
  }

  // Lists

  /** The list at `p` after the step. */
  function ListAfter(st: State, op: Op, p: Place): seq<Sid>
    requires Enabled(st, op) && PlaceKnown(st, p)
  {
    var l := ListAt(st, p);
    match op
    case DoWait(c) => if p == OnCond(c) then l + [st.curr] else l
    case DoJoin(f) => if p == OnJoin(f) && JoinsLive(st, op) then l + [st.curr] else l
    case DoSignal(c) => if p == OnCond(c) && l != [] then l[1..] else l
    case OnSignal(c) => if p == OnCond(c) && l != [] then l[1..] else l
    case DoBroadcast(c) => if p == OnCond(c) then [] else l
    case OnTimer(c, _) => if p == OnCond(c) then [] else l
    case DoExit(_) => if p == OnJoin(st.curr.id) then [] else l
    case _ => l
  }

  lemma RouseList(st: State, p: Place, q: Place)
    requires PlaceKnown(st, p) && ListAt(st, p) != [] && Known(st, ListAt(st, p)[0]) && PlaceKnown(st, q)
    ensures var t := Rouse(st, p);
            PlaceKnown(t, q) && ListAt(t, q) == if q == p then ListAt(st, p)[1..] else ListAt(st, q)
  {
    RousePlaces(st, p, ListAt(st, p)[0]);
  }

  lemma {:induction false} BroadcastList(st: State, c: nat, q: Place)
    requires c < |st.conds| && ListKnown(st, OnCond(c)) && PlaceKnown(st, q)
    ensures var t := Broadcast(st, c);
            PlaceKnown(t, q) && ListAt(t, q) == if q == OnCond(c) then [] else ListAt(st, q)
    decreases |st.conds[c]|
  {
    if st.conds[c] != [] {
      RouseLists(st, OnCond(c));
      RouseList(st, OnCond(c), q);
      BroadcastList(Rouse(st, OnCond(c)), c, q);
    }
  }

  lemma FireList(st: State, c: nat, status: Item, q: Place)
    requires c < |st.conds| && ListKnown(st, OnCond(c)) && PlaceKnown(st, q)
    ensures var t := Fire(st, c, status);
            PlaceKnown(t, q) && ListAt(t, q) == if q == OnCond(c) then [] else ListAt(st, q)
  {
    var u := SetStacks(st, st.conds[c], [status]);
    SetStacksKeeps(st, st.conds[c], [status]);
    assert ListAt(u, q) == ListAt(st, q);
    BroadcastList(u, c, q);
  }

  lemma {:induction false} WakeList(st: State, f: nat, vs: seq<Item>, q: Place)
    requires Flows(st) && f < |st.fibers| && ListKnown(st, OnJoin(f)) && PlaceKnown(st, q)
    ensures var t := WakeJoiners(st, f, vs);
            PlaceKnown(t, q) && ListAt(t, q) == if q == OnJoin(f) then [] else ListAt(st, q)
    decreases |st.fibers[f].joiners|
  {
    if st.fibers[f].joiners != [] {
      var u := WakeOne(st, f, vs);
      RouseList(st, OnJoin(f), q);
      WakeStepFlows(st, f, vs, u);
      assert ListAt(u, q) == ListAt(Rouse(st, OnJoin(f)), q);
      WakeList(u, f, vs, q);
    }
  }

  lemma ExitList(st: State, vs: seq<Item>, q: Place)
    requires Flows(st) && st.curr.Fib? && ListKnown(st, OnJoin(st.curr.id)) && PlaceKnown(st, q)
    ensures var t := Exit(st, vs);
            PlaceKnown(t, q) && ListAt(t, q) == if q == OnJoin(st.curr.id) then [] else ListAt(st, q)
  {
    var f := st.curr.id;
    var u := SetStack(st, Fib(f), vs);
    StacksFlow(st, u);
    assert ListAt(u, OnJoin(f)) == ListAt(st, OnJoin(f)) && ListAt(u, q) == ListAt(st, q);
    WakeList(u, f, vs, q);
  }

  lemma ParkList(st: State, p: Place, q: Place)
    requires PlaceKnown(st, p) && Known(st, st.curr) && PlaceKnown(st, q)
    ensures var t := Park(st, p);
            PlaceKnown(t, q) && ListAt(t, q) == if q == p then ListAt(st, p) + [st.curr] else ListAt(st, q)
  {
    ParkPlaces(st, p);
  }

  lemma JoinList(st: State, f: nat, q: Place)
    requires f < |st.fibers| && Known(st, st.curr) && PlaceKnown(st, q) && st.curr != Fib(f) && !st.fibers[f].dead
    ensures var t := Join(st, f);
            PlaceKnown(t, q) && ListAt(t, q) == if q == OnJoin(f) then ListAt(st, q) + [st.curr] else ListAt(st, q)
  {
    JoinIsPark(st, f);
    ReadyPlaces(st, Fib(f), FiberReady(st, f));
    ParkList(FiberReady(st, f), OnJoin(f), q);
  }

  /** Every list after a step. */
  lemma StepLists(st: State, op: Op, p: Place)
    requires Flows(st) && Enabled(st, op) && PlaceKnown(st, p)
    ensures var t := Step(st, op); PlaceKnown(t, p) && ListAt(t, p) == ListAfter(st, op, p)
  {
    match op
    case DoReady(f) => ReadyPlaces(st, Fib(f), Step(st, op));
    case DoJoin(f) => if JoinsLive(st, op) { JoinList(st, f, p); }
    case DoWait(c) => ParkList(st, OnCond(c), p);
    case DoSleep => SuspendPlaces(st.(calls := st.calls + multiset{st.curr}));
    case DoSignal(c) => if st.conds[c] != [] { RouseList(st, OnCond(c), p); }
    case OnSignal(c) => if st.conds[c] != [] { RouseList(st, OnCond(c), p); }
    case DoBroadcast(c) => BroadcastList(st, c, p);
    case OnTimer(c, status) => FireList(st, c, status, p);
    case DoExit(vs) => ExitList(st, vs, p);
    case Wake(x) => ReadyPlaces(st.(calls := st.calls - multiset{x}), x, Step(st, op));
    case _ => QuietLists(st, op, p);
  }

  lemma QuietLists(st: State, op: Op, p: Place)
    requires Flows(st) && Enabled(st, op) && PlaceKnown(st, p) && Quiet(op)
    ensures PlaceKnown(Step(st, op), p) && ListAt(Step(st, op), p) == ListAt(st, p)
  {
  }

  // Stacks

  function StackOf(st: State, s: Sid): seq<Item>
    requires Known(st, s)
  {
    if s.Main? then st.mainStack else st.fibers[s.id].stack
  }

  /** The thread goes on with its own code. */
  predicate Resumes(st: State, op: Op) { op.DoLeave? && (st.mainReady || !op.active) }

  /** The stack of `s` after the step: a join of a fiber that has ended copies its values, a fiber that ends keeps
      its values and gives them to the fibers that joined it, a timer gives its status, and a thread that joined a
      fiber gets the fiber's values when it goes on. Nothing else changes a stack. */
  function StackAfter(st: State, op: Op, s: Sid): seq<Item>
    requires Enabled(st, op) && Known(st, s)
  {
    var a := StackOf(st, s);
    match op
    case DoJoin(f) => if s == st.curr && s != Fib(f) && st.fibers[f].dead then a + st.fibers[f].stack else a
    case DoExit(vs) =>
      if s == st.curr then vs else if s.Fib? && s in st.fibers[st.curr.id].joiners then a + vs else a
    case OnTimer(c, status) => if s in st.conds[c] then [status] else a
    case DoLeave(_) =>
      if s.Main? && Resumes(st, op) && st.copyFrom.Some? && st.copyFrom.value < |st.fibers|
      then a + st.fibers[st.copyFrom.value].stack else a
    case _ => a
  }

  lemma FireStacks(st: State, c: nat, status: Item, s: Sid)
    requires c < |st.conds| && ListKnown(st, OnCond(c)) && Known(st, s)
    ensures var t := Fire(st, c, status);
            Known(t, s) && StackOf(t, s) == if s in st.conds[c] then [status] else StackOf(st, s)
  {
    var l := st.conds[c];
    var u := SetStacks(st, l, [status]);
    SetStacksKeeps(st, l, [status]);
    if s.Fib? {
      StackSet(st, l, [status], s.id);
    } else {
      MainStackSet(st, l, [status]);
    }
    BroadcastStacks(u, c);
  }

  lemma {:induction false} MainStackSet(st: State, l: seq<Sid>, vs: seq<Item>)
    requires AllKnown(st, l)
    ensures SetStacks(st, l, vs).mainStack == if Main in l then vs else st.mainStack
    decreases |l|
  {
    if l != [] {
      assert forall i :: 0 <= i < |l[1..]| ==> l[1..][i] == l[i + 1];
      InFirstOrRest(l, Main);
      MainStackSet(SetStack(st, l[0], vs), l[1..], vs);
    }
  }

  lemma SetListStacks(st: State, p: Place, l: seq<Sid>)
    requires PlaceKnown(st, p)
    ensures SameStacks(st, SetList(st, p, l))
  {
  }

  lemma SetAtStacks(st: State, s: Sid, p: Option<Place>)
    requires Known(st, s)
    ensures SameStacks(st, SetAt(st, s, p))
  {
  }

  lemma SuspendStacks(st: State)
    requires Known(st, st.curr)
    ensures SameStacks(st, Suspend(st))
  {
  }

  lemma ParkStacks(st: State, p: Place)
    requires PlaceKnown(st, p) && Known(st, st.curr)
    ensures SameStacks(st, Park(st, p))
  {
    var l := ListAt(st, p) + [st.curr];
    SetListStacks(st, p, l);
    SetAtStacks(SetList(st, p, l), st.curr, Some(p));
    SuspendStacks(Insert(st, p));
  }

  lemma JoinStacks(st: State, f: nat)
    requires f < |st.fibers| && Known(st, st.curr) && st.curr != Fib(f) && !st.fibers[f].dead
    ensures SameStacks(st, Join(st, f))
  {
    JoinIsPark(st, f);
    ReadyStacks(st, Fib(f));
    ParkStacks(FiberReady(st, f), OnJoin(f));
  }

  lemma ExitStacks(st: State, vs: seq<Item>, s: Sid)
    requires Inv(st) && Enabled(st, DoExit(vs)) && Known(st, s)
    ensures Known(Exit(st, vs), s) && StackOf(Exit(st, vs), s) == StackAfter(st, DoExit(vs), s)
  {
    ExitDelivers(st, vs);
    if s.Fib? && s != st.curr { assert StackOf(st, s) + [] == StackOf(st, s); }
  }

  /** Every stack after a step. */
  lemma StepStacks(st: State, op: Op, s: Sid)
    requires Inv(st) && Enabled(st, op) && Known(st, s)
    ensures Known(Step(st, op), s) && StackOf(Step(st, op), s) == StackAfter(st, op, s)
  {
    match op
    case DoReady(f) => ReadyStacks(st, Fib(f));
    case DoJoin(f) => if JoinsLive(st, op) { JoinStacks(st, f); } else { DeadJoinStacks(st, f, s); }
    case DoSleep => SleepStacks(st);
    case DoWait(c) => ParkStacks(st, OnCond(c));
    case DoSignal(c) => if st.conds[c] != [] { RouseStacks(st, OnCond(c)); }
    case OnSignal(c) => if st.conds[c] != [] { RouseStacks(st, OnCond(c)); }
    case DoBroadcast(c) => BroadcastStacks(st, c);
    case OnTimer(c, status) => FireStacks(st, c, status, s);
    case DoExit(vs) => ExitStacks(st, vs, s);
    case Wake(x) => ReadyStacks(st.(calls := st.calls - multiset{x}), x);
    case DoLeave(active) => LeaveStacks(st, active, s);
    case _ => QuietStacks(st, op, s);
  }

  lemma DeadJoinStacks(st: State, f: nat, s: Sid)
    requires Enabled(st, DoJoin(f)) && Known(st, s) && (st.curr == Fib(f) || st.fibers[f].dead)
    ensures Known(Join(st, f), s) && StackOf(Join(st, f), s) == StackAfter(st, DoJoin(f), s)
  {
  }

  lemma SleepStacks(st: State)
    requires Known(st, st.curr)
    ensures SameStacks(st, Sleep(st))
  {
  }

  lemma LeaveStacks(st: State, active: bool, s: Sid)
    requires Enabled(st, DoLeave(active)) && Known(st, s)
    ensures Known(Leave(st, active), s) && StackOf(Leave(st, active), s) == StackAfter(st, DoLeave(active), s)
  {
  }

  lemma QuietStacks(st: State, op: Op, s: Sid)
    requires Enabled(st, op) && Known(st, s) && Quiet(op) && !op.DoLeave?
    ensures Known(Step(st, op), s) && StackOf(Step(st, op), s) == StackOf(st, s)
  {
  }

  // The ready queue

  /** A fiber that is not ready yet, as what the queue gets. */
  function IfNew(st: State, s: Sid): seq<nat>
    requires Known(st, s)
  {
    if s.Fib? && !st.fibers[s.id].ready then [s.id] else []
  }

  /** What the step appends to the ready queue. */
  function Queued(st: State, op: Op): seq<nat>
    requires Enabled(st, op)
  {
    match op
    case DoReady(f) => IfNew(st, Fib(f))
    case DoJoin(f) => if JoinsLive(st, op) then IfNew(st, Fib(f)) else []
    case DoSignal(c) => if st.conds[c] == [] then [] else OwnId(st.conds[c][0])
    case OnSignal(c) => if st.conds[c] == [] then [] else OwnId(st.conds[c][0])
    case DoBroadcast(c) => FiberIds(st.conds[c])
    case OnTimer(c, _) => FiberIds(st.conds[c])
    case DoExit(_) => FiberIds(st.fibers[st.curr.id].joiners)
    case Wake(s) => IfNew(st, s)
    case DoYield => [st.curr.id]
    case _ => []
  }

  lemma JoinQueue(st: State, f: nat)
    requires f < |st.fibers| && Known(st, st.curr) && st.curr != Fib(f) && !st.fibers[f].dead
    ensures Join(st, f).queue == st.queue + IfNew(st, Fib(f))
  {
    JoinIsPark(st, f);
  }

  lemma FireQueue(st: State, c: nat, status: Item)
    requires Inv(st) && c < |st.conds| && ListKnown(st, OnCond(c))
    ensures Fire(st, c, status).queue == st.queue + FiberIds(st.conds[c])
  {
    var u := SetStacks(st, st.conds[c], [status]);
    SetStacksKeeps(st, st.conds[c], [status]);
    StacksInv(st, u, None);
    BroadcastRousesAll(u, c);
  }

  /** The ready queue after a step: a turn takes off its head, and everything else only appends, in this order. */
  lemma StepQueue(st: State, op: Op)
    requires Inv(st) && Enabled(st, op)
    ensures var t := Step(st, op);
            t.queue == if op.DoTurn? then (if st.queue == [] then [] else st.queue[1..]) else st.queue + Queued(st, op)
  {
    match op
    case DoTurn => InvFlows(st); QueueStep(st, DoTurn);
    case DoJoin(f) => if JoinsLive(st, op) { JoinQueue(st, f); }
    case DoSignal(c) => if st.conds[c] != [] { RouseQueue(st, OnCond(c), None); }
    case OnSignal(c) => if st.conds[c] != [] { RouseQueue(st, OnCond(c), None); }
    case DoBroadcast(c) => BroadcastRousesAll(st, c);
    case OnTimer(c, status) => FireQueue(st, c, status);
    case DoExit(vs) => ExitQueue(st, vs);
    case DoYield => assert FiberOk(st, st.curr.id);
    case _ =>
  }

  // The async handle

  /** Between `a` and `b` the fibers `ids` were appended to the queue, and the thread was made ready if `main` says so:
      an async was sent if the queue was empty or the thread was not ready before. */
  predicate Signalled(a: State, b: State, ids: seq<nat>, main: bool)
  {
    && b.queue == a.queue + ids && b.mainReady == (a.mainReady || main)
    && b.asyncRef == (a.asyncRef || (a.queue == [] && ids != []))
    && b.asyncPending == (a.asyncPending || (a.queue == [] && ids != []) || (main && !a.mainReady))
  }

  lemma SignalledTwice(a: State, b: State, c: State, x: seq<nat>, y: seq<nat>, m: bool, n: bool)
    requires Signalled(a, b, x, m) && Signalled(b, c, y, n)
    ensures Signalled(a, c, x + y, m || n)
  {
    SchedulerResults.Assoc(a.queue, x, y);
  }

  lemma ReadySignals(st: State, s: Sid)
    requires Known(st, s)
    ensures Signalled(st, StateReady(st, s), IfNew(st, s), s == Main)
  {
  }

  lemma RouseSignals(st: State, p: Place, ending: Option<nat>)
    requires InvDuring(st, ending) && PlaceKnown(st, p) && ListAt(st, p) != [] && Known(st, ListAt(st, p)[0])
    ensures Signalled(st, Rouse(st, p), OwnId(ListAt(st, p)[0]), ListAt(st, p)[0] == Main)
  {
    var s := ListAt(st, p)[0];
    RouseQueue(st, p, ending);
    assert ListOk(st, p) && s in ListAt(st, p);
    if s.Fib? { assert FiberOk(st, s.id); }
    var u := SetAt(SetList(st, p, ListAt(st, p)[1..]), s, None);
    ReadySignals(u, s);
  }

  lemma {:induction false} BroadcastSignals(st: State, c: nat)
    requires Inv(st) && c < |st.conds| && ListKnown(st, OnCond(c))
    ensures Signalled(st, Broadcast(st, c), FiberIds(st.conds[c]), Main in st.conds[c])
    decreases |st.conds[c]|
  {
    var l := st.conds[c];
    if l != [] {
      RouseInv(st, OnCond(c), None);
      RouseLists(st, OnCond(c));
      RouseSignals(st, OnCond(c), None);
      InFirstOrRest(l, Main);
      var t := Rouse(st, OnCond(c));
      BroadcastSignals(t, c);
      SignalledTwice(st, t, Broadcast(t, c), OwnId(l[0]), FiberIds(l[1..]), l[0] == Main, Main in l[1..]);
    }
  }

  lemma FireSignals(st: State, c: nat, status: Item)
    requires Inv(st) && c < |st.conds| && ListKnown(st, OnCond(c))
    ensures Signalled(st, Fire(st, c, status), FiberIds(st.conds[c]), Main in st.conds[c])
  {
    var u := SetStacks(st, st.conds[c], [status]);
    SetStacksKeeps(st, st.conds[c], [status]);
    StacksInv(st, u, None);
    BroadcastSignals(u, c);
  }

  lemma {:induction false} WakeSignals(st: State, f: nat, vs: seq<Item>)
    requires InvDuring(st, Some(f)) && f < |st.fibers| && st.curr == Fib(f) && ListKnown(st, OnJoin(f))
    ensures Signalled(st, WakeJoiners(st, f, vs), FiberIds(st.fibers[f].joiners), Main in st.fibers[f].joiners)
    decreases |st.fibers[f].joiners|
  {
    var l := st.fibers[f].joiners;
    if l != [] {
      var u := WakeOne(st, f, vs);
      RouseSignals(st, OnJoin(f), Some(f));
      WakeStep(st, f, vs, u);
      InFirstOrRest(l, Main);
      WakeSignals(u, f, vs);
      SignalledTwice(st, u, WakeJoiners(u, f, vs), OwnId(l[0]), FiberIds(l[1..]), l[0] == Main, Main in l[1..]);
    }
  }

  lemma ExitSignals(st: State, vs: seq<Item>)
    requires Inv(st) && st.curr.Fib? && ListKnown(st, OnJoin(st.curr.id))
    ensures Signalled(st, Exit(st, vs), FiberIds(st.fibers[st.curr.id].joiners), Main in st.fibers[st.curr.id].joiners)
  {
    var f := st.curr.id;
    var u := SetStack(st, Fib(f), vs);
    StacksInv(st, u, None);
    assert InvDuring(u, Some(f)) && ListAt(u, OnJoin(f)) == ListAt(st, OnJoin(f));
    WakeSignals(u, f, vs);
  }

  lemma JoinSignals(st: State, f: nat)
    requires Inv(st) && InLua(st) && f < |st.fibers| && st.curr != Fib(f) && !st.fibers[f].dead
    ensures var t := Join(st, f); Signalled(st, t.(mainReady := st.mainReady), IfNew(st, Fib(f)), false)
  {
    JoinIsPark(st, f);
    ReadySignals(st, Fib(f));
  }

  /** An async is sent, and the handle referenced, exactly when a fiber is put into an empty queue by being made
      ready; one is sent, too, when the thread is made ready. The start of a poll consumes it. */
  lemma StepAsync(st: State, op: Op)
    requires Inv(st) && Enabled(st, op)
    ensures var t, first := Step(st, op), st.queue == [] && Queued(st, op) != [] && !op.DoYield?;
            && t.asyncRef == (st.asyncRef || first)
            && t.asyncPending == if op.DoTurn? && st.queue == [] then false
                                 else st.asyncPending || first
                                      || (Rouses(st, op, Main) && !st.mainReady && !op.DoLeave?)
  {
    match op
    case DoReady(f) => ReadySignals(st, Fib(f));
    case DoJoin(f) => if JoinsLive(st, op) { JoinSignals(st, f); }
    case DoSignal(c) => if st.conds[c] != [] { RouseSignals(st, OnCond(c), None); }
    case OnSignal(c) => if st.conds[c] != [] { RouseSignals(st, OnCond(c), None); }
    case DoBroadcast(c) => BroadcastSignals(st, c);
    case OnTimer(c, status) => FireSignals(st, c, status);
    case DoExit(vs) => ExitSignals(st, vs);
    case Wake(x) => ReadySignals(st.(calls := st.calls - multiset{x}), x);
    case DoWait(c) => ParkAsync(st, OnCond(c));
    case DoSleep =>
    case _ => QuietAsync(st, op);
  }

  lemma ParkAsync(st: State, p: Place)
    requires PlaceKnown(st, p) && Known(st, st.curr)
    ensures Park(st, p).asyncRef == st.asyncRef && Park(st, p).asyncPending == st.asyncPending
  {
  }

  lemma QuietAsync(st: State, op: Op)
    requires Enabled(st, op) && Quiet(op)
    ensures Step(st, op).asyncRef == st.asyncRef
    ensures Step(st, op).asyncPending == (st.asyncPending && !(op.DoTurn? && st.queue == []))
  {
  }

  // Control

  /** Who has control after the step. */
  function CurrAfter(st: State, op: Op): Sid
    requires Enabled(st, op)
  {
    if op.DoTurn? && st.queue != [] then Fib(st.queue[0])
    else if Suspends(st, op) || op.DoYield? || op.DoExit? || op.DoRaise? then Main
    else st.curr
  }

  /** What the thread does after the step. */
  function PhaseAfter(st: State, op: Op): Phase
    requires Enabled(st, op)
  {
    if op.DoRaise? || (op.DoJoin? && st.curr == Fib(op.f)) then Aborted
    else if Suspends(st, op) then Looping
    else if op.DoTurn? && st.queue == [] then Polling
    else if op.DoLeave? then if Resumes(st, op) then Running else Looping
    else st.phase
  }

  /** Control is with `c` in phase `p`. */
  predicate Control(t: State, c: Sid, p: Phase) { t.curr == c && t.phase == p }

  lemma ParkControl(st: State, p: Place)
    requires Flows(st) && InLua(st) && PlaceKnown(st, p)
    ensures Control(Park(st, p), Main, Looping)
  {
    if st.curr.Fib? { assert FiberFlows(st, st.curr.id); }
    var u := Insert(st, p);
    assert Control(u, st.curr, st.phase) && u.mainReady == st.mainReady;
    assert st.curr.Fib? ==> u.fibers[st.curr.id].ready;
  }

  lemma JoinControl(st: State, f: nat)
    requires Flows(st) && InLua(st) && f < |st.fibers| && st.curr != Fib(f) && !st.fibers[f].dead
    ensures Control(Join(st, f), Main, Looping)
  {
    JoinIsPark(st, f);
    FiberReadyFlows(st, f);
    ParkControl(FiberReady(st, f), OnJoin(f));
  }

  lemma SleepControl(st: State)
    requires Flows(st) && InLua(st)
    ensures Control(Sleep(st), Main, Looping)
  {
    if st.curr.Fib? { assert FiberFlows(st, st.curr.id); }
  }

  lemma StepControl(st: State, op: Op)
    requires Flows(st) && Enabled(st, op)
    ensures Control(Step(st, op), CurrAfter(st, op), PhaseAfter(st, op))
  {
    match op
    case DoJoin(f) => if JoinsLive(st, op) { JoinControl(st, f); }
    case DoWait(c) => ParkControl(st, OnCond(c));
    case DoSleep => SleepControl(st);
    case DoSignal(c) => if st.conds[c] != [] { P.RouseControl(st, OnCond(c)); }
    case DoBroadcast(c) => P.BroadcastControl(st, c);
    case DoExit(vs) => P.ExitControl(st, vs);
    case DoTurn => QueueStep(st, op); TurnFlows(st);
    case Wake(_) => P.CallbackControl(st, op, Step(st, op));
    case OnSignal(_) => P.CallbackControl(st, op, Step(st, op));
    case OnTimer(_, _) => P.CallbackControl(st, op, Step(st, op));
    case _ =>
  }

  // The rest

  /** Nothing but lists, readiness, the queue and stacks has changed. */
  predicate Beside(st: State, t: State)
  {
    && t.calls == st.calls && t.copyFrom == st.copyFrom && |t.fibers| == |st.fibers| && |t.conds| == |st.conds|
    && forall f :: 0 <= f < |st.fibers| ==> SameLife(st.fibers[f], t.fibers[f])
  }

  predicate SameLife(x: Fiber, y: Fiber) { y.dead == x.dead && y.started == x.started }

  lemma BesideTwice(a: State, b: State, c: State)
    requires Beside(a, b) && Beside(b, c)
    ensures Beside(a, c)
  {
    forall f | 0 <= f < |a.fibers| ensures SameLife(a.fibers[f], c.fibers[f]) {
      assert SameLife(a.fibers[f], b.fibers[f]) && SameLife(b.fibers[f], c.fibers[f]);
    }
  }

  lemma ReadyBeside(st: State, s: Sid)
    requires Known(st, s)
    ensures Beside(st, StateReady(st, s))
  {
  }

  lemma SetListBeside(st: State, p: Place, l: seq<Sid>)
    requires PlaceKnown(st, p)
    ensures Beside(st, SetList(st, p, l))
  {
  }

  lemma SetAtBeside(st: State, s: Sid, p: Option<Place>)
    requires Known(st, s)
    ensures Beside(st, SetAt(st, s, p))
  {
  }

  lemma SuspendBeside(st: State)
    requires Known(st, st.curr)
    ensures Beside(st, Suspend(st))
  {
  }

  lemma RouseBeside(st: State, p: Place)
    requires PlaceKnown(st, p) && ListAt(st, p) != [] && Known(st, ListAt(st, p)[0])
    ensures Beside(st, Rouse(st, p))
  {
    var s := ListAt(st, p)[0];
    var a := SetList(st, p, ListAt(st, p)[1..]);
    var b := SetAt(a, s, None);
    SetListBeside(st, p, ListAt(st, p)[1..]);
    SetAtBeside(a, s, None);
    BesideTwice(st, a, b);
    ReadyBeside(b, s);
    BesideTwice(st, b, StateReady(b, s));
  }

  lemma {:induction false} BroadcastBeside(st: State, c: nat)
    requires c < |st.conds| && ListKnown(st, OnCond(c))
    ensures Beside(st, Broadcast(st, c))
    decreases |st.conds[c]|
  {
    if st.conds[c] != [] {
      RouseLists(st, OnCond(c));
      RouseBeside(st, OnCond(c));
      var t := Rouse(st, OnCond(c));
      BroadcastBeside(t, c);
      BesideTwice(st, t, Broadcast(t, c));
    }
  }

  lemma StacksBeside(st: State, t: State)
    requires OnlyStacks(st, t)
    ensures Beside(st, t)
  {
  }

  lemma FireBeside(st: State, c: nat, status: Item)
    requires c < |st.conds| && ListKnown(st, OnCond(c))
    ensures Beside(st, Fire(st, c, status))
  {
    var u := SetStacks(st, st.conds[c], [status]);
    SetStacksKeeps(st, st.conds[c], [status]);
    StacksBeside(st, u);
    BroadcastBeside(u, c);
    BesideTwice(st, u, Broadcast(u, c));
  }

  lemma {:induction false} WakeBeside(st: State, f: nat, vs: seq<Item>)
    requires Flows(st) && f < |st.fibers| && ListKnown(st, OnJoin(f))
    ensures Beside(st, WakeJoiners(st, f, vs))
    decreases |st.fibers[f].joiners|
  {
    if st.fibers[f].joiners != [] {
      var t, u := Rouse(st, OnJoin(f)), WakeOne(st, f, vs);
      WakeStepFlows(st, f, vs, u);
      RouseBeside(st, OnJoin(f));
      StacksBeside(t, u);
      BesideTwice(st, t, u);
      WakeBeside(u, f, vs);
      BesideTwice(st, u, WakeJoiners(u, f, vs));
    }
  }

  /** The returning fiber is dead, and is otherwise like the others. */
  lemma ExitBeside(st: State, vs: seq<Item>, u: State)
    requires Flows(st) && st.curr.Fib? && ListKnown(st, OnJoin(st.curr.id))
    requires u == WakeJoiners(SetStack(st, st.curr, vs), st.curr.id, vs)
    ensures Beside(st, u) && Exit(st, vs) == Close(u, st.curr.id)
  {
    var f := st.curr.id;
    var a := SetStack(st, Fib(f), vs);
    StacksFlow(st, a);
    StacksBeside(st, a);
    assert ListAt(a, OnJoin(f)) == ListAt(st, OnJoin(f));
    WakeBeside(a, f, vs);
    BesideTwice(st, a, u);
  }

  lemma ParkBeside(st: State, p: Place)
    requires PlaceKnown(st, p) && Known(st, st.curr)
    ensures Beside(st, Park(st, p))
  {
    var l := ListAt(st, p) + [st.curr];
    var a, b := SetList(st, p, l), Insert(st, p);
    SetListBeside(st, p, l);
    SetAtBeside(a, st.curr, Some(p));
    SuspendBeside(b);
    BesideTwice(st, a, b);
    BesideTwice(st, b, Suspend(b));
  }

  lemma JoinBeside(st: State, f: nat)
    requires f < |st.fibers| && Known(st, st.curr) && st.curr != Fib(f) && !st.fibers[f].dead
    ensures Beside(st, Join(st, f).(copyFrom := st.copyFrom))
    ensures Join(st, f).copyFrom == if st.curr.Main? then Some(f) else st.copyFrom
  {
    JoinIsPark(st, f);
    ReadyBeside(st, Fib(f));
    var u := FiberReady(st, f);
    ParkBeside(u, OnJoin(f));
    BesideTwice(st, u, Park(u, OnJoin(f)));
  }

  /** The rest of the state after a step: callbacks due, the fiber whose values the thread will copy, and how many
      fibers and conditions there are. */
  predicate RestAfter(st: State, op: Op, t: State)
    requires Enabled(st, op)
  {
    && t.calls == (if op.DoSleep? then st.calls + multiset{st.curr}
                   else if op.Wake? then st.calls - multiset{op.s} else st.calls)
    && t.copyFrom == (if JoinsLive(st, op) && st.curr.Main? then Some(op.f)
                      else if Resumes(st, op) then None else st.copyFrom)
    && |t.fibers| == |st.fibers| + (if op.DoCreate? then 1 else 0)
    && |t.conds| == |st.conds| + (if op.DoNewCond? then 1 else 0)
    && (op.DoCreate? ==> t.fibers[|st.fibers|] == Fiber(false, false, false, [], [], None))
    && (op.DoNewCond? ==> t.conds[|st.conds|] == [])
    && forall f :: 0 <= f < |st.fibers| ==> LifeAfter(st, op, f, t.fibers[f])
  }

  /** A fiber dies by its return or by an error, and has been started once its first turn has come. */
  predicate LifeAfter(st: State, op: Op, f: nat, x: Fiber)
    requires Enabled(st, op) && f < |st.fibers|
  {
    && (x.dead <==> st.fibers[f].dead || ((op.DoExit? || op.DoRaise?) && st.curr == Fib(f)))
    && (x.started <==> st.fibers[f].started || (op.DoTurn? && st.queue != [] && st.queue[0] == f))
  }

  lemma BesideRest(st: State, op: Op, t: State)
    requires Enabled(st, op) && Beside(st, t)
    requires !Quiet(op) && !op.DoSleep? && !op.Wake? && !op.DoExit? && !JoinsLive(st, op)
    ensures RestAfter(st, op, t)
  {
    forall f | 0 <= f < |st.fibers| ensures LifeAfter(st, op, f, t.fibers[f]) {
      assert SameLife(st.fibers[f], t.fibers[f]);
    }
  }

  lemma JoinRest(st: State, f: nat)
    requires Enabled(st, DoJoin(f)) && JoinsLive(st, DoJoin(f))
    ensures RestAfter(st, DoJoin(f), Join(st, f))
  {
    JoinBeside(st, f);
    var t := Join(st, f);
    forall g | 0 <= g < |st.fibers| ensures LifeAfter(st, DoJoin(f), g, t.fibers[g]) {
      assert SameLife(st.fibers[g], t.(copyFrom := st.copyFrom).fibers[g]);
    }
  }

  lemma ExitRest(st: State, vs: seq<Item>)
    requires Flows(st) && Enabled(st, DoExit(vs))
    ensures RestAfter(st, DoExit(vs), Exit(st, vs))
  {
    var a := SetStack(st, st.curr, vs);
    assert ListAt(a, OnJoin(st.curr.id)) == ListAt(st, OnJoin(st.curr.id));
    var u := WakeJoiners(a, st.curr.id, vs);
    ExitBeside(st, vs, u);
    var t := Close(u, st.curr.id);
    forall g | 0 <= g < |st.fibers| ensures LifeAfter(st, DoExit(vs), g, t.fibers[g]) {
      assert SameLife(st.fibers[g], u.fibers[g]);
    }
  }

  lemma CallRest(st: State, s: Sid)
    requires Enabled(st, Wake(s))
    ensures RestAfter(st, Wake(s), Call(st, s))
  {
    var u := st.(calls := st.calls - multiset{s});
    ReadyBeside(u, s);
    forall g | 0 <= g < |st.fibers| ensures LifeAfter(st, Wake(s), g, Call(st, s).fibers[g]) {
      assert SameLife(u.fibers[g], Call(st, s).fibers[g]);
    }
  }

  lemma TurnRest(st: State)
    requires Flows(st) && Enabled(st, DoTurn)
    ensures RestAfter(st, DoTurn, Turn(st))
  {
    TurnFlows(st);
    var t := Turn(st);
    forall g | 0 <= g < |st.fibers| ensures LifeAfter(st, DoTurn, g, t.fibers[g]) {
    }
  }

  lemma NewRest(st: State, op: Op)
    requires Enabled(st, op) && (op.DoCreate? || op.DoNewCond?)
    ensures RestAfter(st, op, Step(st, op))
  {
  }

  lemma QuietRest(st: State, op: Op)
    requires Enabled(st, op) && (op.DoYield? || op.DoRaise? || op.DoLeave? || op.DoSleep?)
    ensures RestAfter(st, op, Step(st, op))
  {
  }

  /** Steps that change nothing but lists, readiness, the queue and stacks. */
  lemma StepBeside(st: State, op: Op)
    requires Enabled(st, op) && !Quiet(op) && !op.DoSleep? && !op.Wake? && !op.DoExit? && !JoinsLive(st, op)
    ensures Beside(st, Step(st, op)) || (op.DoJoin? && st.curr == Fib(op.f))
  {
    match op
    case DoReady(f) => ReadyBeside(st, Fib(f));
    case DoJoin(f) => if st.curr != Fib(f) { StacksBeside(st, Join(st, f)); }
    case DoWait(c) => ParkBeside(st, OnCond(c));
    case DoSignal(c) => if st.conds[c] != [] { RouseBeside(st, OnCond(c)); }
    case OnSignal(c) => if st.conds[c] != [] { RouseBeside(st, OnCond(c)); }
    case DoBroadcast(c) => BroadcastBeside(st, c);
    case OnTimer(c, status) => FireBeside(st, c, status);
  }

  /** With `StepReadies`, `StepLists`, `StepStacks`, `StepQueue`, `StepAsync` and `StepControl`, this says all there
      is to say of a step. */
  lemma StepRest(st: State, op: Op)
    requires Flows(st) && Enabled(st, op)
    ensures RestAfter(st, op, Step(st, op))
  {
    match op
    case DoTurn => TurnRest(st);
    case DoCreate => NewRest(st, op);
    case DoNewCond => NewRest(st, op);
    case DoExit(vs) => ExitRest(st, vs);
    case Wake(s) => CallRest(st, s);
    case DoYield => QuietRest(st, op);
    case DoRaise => QuietRest(st, op);
    case DoLeave(_) => QuietRest(st, op);
    case DoSleep => QuietRest(st, op);
    case _ => CallsRest(st, op);
  }

  lemma CallsRest(st: State, op: Op)
    requires Enabled(st, op) && !Quiet(op) && !op.DoSleep? && !op.Wake? && !op.DoExit?
    ensures RestAfter(st, op, Step(st, op))
  {
    if JoinsLive(st, op) {
      JoinRest(st, op.f);
    } else if op.DoJoin? && st.curr == Fib(op.f) {
      assert Beside(st, st.(phase := Aborted));
      BesideRest(st, op, Step(st, op));
    } else {
      StepBeside(st, op);
      BesideRest(st, op, Step(st, op));
    }
  }
}
