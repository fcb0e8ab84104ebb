/** What the ready queue and the loop keep in every run, whatever callers do: also after a fiber has been made
    ready, joined or called back while it is on a list. */
module SchedulerQueue {
  import opened Options
  import opened Scheduler
  import opened SchedulerInv
  import opened SchedulerSteps
  import opened SchedulerRuns

  /** The flags of a fiber and its place in the ready queue. */
  predicate FiberFlows(st: State, f: nat)
    requires f < |st.fibers|
  {
    var x := st.fibers[f];
    && (x.dead ==> x.ready)
    && (x.ready ==> st.asyncRef)
    && (f in st.queue <==> x.ready && !x.dead && st.curr != Fib(f))
    && (st.curr == Fib(f) ==> x.ready && !x.dead)
    && Fib(f) !in x.joiners
  }

  /** The thread's flags and the async handle. */
  predicate LoopFlows(st: State)
  {
    && (st.phase.Running? ==> st.curr.Main? && st.mainReady)
    && (st.phase.Polling? ==> st.curr.Main?)
    && (st.phase.Looping? && st.mainReady ==> st.asyncPending)
    && (st.phase.Polling? && st.queue != [] ==> st.asyncPending)
  }

  predicate Flows(st: State)
  {
    Shaped(st) && NoDup(st.queue) && LoopFlows(st) && forall f :: 0 <= f < |st.fibers| ==> FiberFlows(st, f)
  }

  lemma SelfWait(st: State, f: nat)
    requires Waits(st, Fib(f), Fib(f))
    ensures !Acyclic(st)
  {
    var p := [Fib(f), Fib(f)];
    assert Link(st, p, 0);
    assert Chain(st, p) && p[0] == p[|p| - 1];
  }

  /** The invariant of allowed runs is the stronger one. */
  lemma InvFlows(st: State)
    requires Inv(st)
    ensures Flows(st)
  {
    InvShaped(st);
    forall f | 0 <= f < |st.fibers| ensures FiberFlows(st, f) {
      assert FiberOk(st, f) && ListOk(st, OnJoin(f));
      if Fib(f) in ListAt(st, OnJoin(f)) {
        SelfWait(st, f);
      }
    }
  }

  // Steps

  /** `t` differs from `st` in nothing that the queue and the loop depend on. */
  predicate Alike(st: State, t: State)
  {
    && |t.fibers| == |st.fibers| && t.queue == st.queue && t.curr == st.curr && t.phase == st.phase
    && t.mainReady == st.mainReady && t.asyncPending == st.asyncPending && t.asyncRef == st.asyncRef
    && forall f :: 0 <= f < |st.fibers| ==> AlikeFiber(st.fibers[f], t.fibers[f])
  }

  predicate AlikeFiber(x: Fiber, y: Fiber) { y.ready == x.ready && y.dead == x.dead }

  /** The lists of joiners hold only states that may be there. */
  predicate Listed(t: State)
  {
    && (forall c :: 0 <= c < |t.conds| ==> AllKnown(t, t.conds[c]))
    && (forall f :: 0 <= f < |t.fibers| ==> AllKnown(t, t.fibers[f].joiners) && Fib(f) !in t.fibers[f].joiners)
  }

  lemma FlowsListed(st: State)
    requires Flows(st)
    ensures Listed(st)
  {
    forall c | 0 <= c < |st.conds| ensures AllKnown(st, st.conds[c]) { assert ListKnown(st, OnCond(c)); }
    forall f | 0 <= f < |st.fibers|
      ensures AllKnown(st, st.fibers[f].joiners) && Fib(f) !in st.fibers[f].joiners
    {
      assert ListKnown(st, OnJoin(f)) && FiberFlows(st, f);
    }
  }

  lemma ListedShaped(t: State)
    requires Listed(t) && Known(t, t.curr) && forall i :: 0 <= i < |t.queue| ==> t.queue[i] < |t.fibers|
    ensures Shaped(t)
  {
  }

  lemma AlikeFlows(st: State, t: State)
    requires Flows(st) && Alike(st, t) && Listed(t)
    ensures Flows(t)
  {
    ListedShaped(t);
    forall f | 0 <= f < |t.fibers| ensures FiberFlows(t, f) {
      assert FiberFlows(st, f) && AlikeFiber(st.fibers[f], t.fibers[f]);
    }
  }

  lemma QueuedRef(st: State)
    requires Flows(st) && st.queue != []
    ensures st.asyncRef
  {
    assert st.queue[0] in st.queue && FiberFlows(st, st.queue[0]);
  }

  lemma FiberReadyFlows(st: State, f: nat)
    requires Flows(st) && f < |st.fibers|
    ensures Flows(FiberReady(st, f))
  {
    var t := FiberReady(st, f);
    if !st.fibers[f].ready {
      FlowsListed(st);
      ListedShaped(t);
      assert FiberFlows(st, f);
      NoDupAppend(st.queue, f);
      if st.queue != [] { QueuedRef(st); }
      forall g | 0 <= g < |t.fibers| ensures FiberFlows(t, g) { assert FiberFlows(st, g); }
    }
  }

  lemma ReadyFlows(st: State, s: Sid)
    requires Flows(st) && Known(st, s)
    ensures Flows(StateReady(st, s))
  {
    if s.Fib? {
      FiberReadyFlows(st, s.id);
    } else {
      var t := ThreadReady(st);
      FlowsListed(st);
      ListedShaped(t);
      forall g | 0 <= g < |t.fibers| ensures FiberFlows(t, g) { assert FiberFlows(st, g); }
    }
  }

  lemma SuspendFlows(st: State)
    requires Flows(st) && InLua(st)
    ensures Flows(Suspend(st))
  {
    var t := Suspend(st);
    FlowsListed(st);
    if st.curr.Fib? { assert FiberFlows(st, st.curr.id); }
    ListedShaped(t);
    forall g | 0 <= g < |t.fibers| ensures FiberFlows(t, g) { assert FiberFlows(st, g); }
  }

  lemma SetListFlows(st: State, p: Place, l: seq<Sid>)
    requires Flows(st) && PlaceKnown(st, p) && AllKnown(st, l) && (p.OnJoin? ==> Fib(p.f) !in l)
    ensures Flows(SetList(st, p, l)) && Alike(st, SetList(st, p, l))
  {
    FlowsListed(st);
    AlikeFlows(st, SetList(st, p, l));
  }

  lemma SetAtFlows(st: State, s: Sid, p: Option<Place>)
    requires Flows(st) && Known(st, s)
    ensures Flows(SetAt(st, s, p)) && Alike(st, SetAt(st, s, p))
  {
    FlowsListed(st);
    AlikeFlows(st, SetAt(st, s, p));
  }

  lemma InsertFlows(st: State, p: Place)
    requires Flows(st) && PlaceKnown(st, p) && (p.OnJoin? ==> st.curr != Fib(p.f))
    ensures Flows(Insert(st, p)) && Alike(st, Insert(st, p))
  {
    FlowsListed(st);
    var l := ListAt(st, p) + [st.curr];
    SetListFlows(st, p, l);
    SetAtFlows(SetList(st, p, l), st.curr, Some(p));
    AlikeTrans(st, SetList(st, p, l), Insert(st, p));
  }

  lemma AlikeTrans(st: State, t: State, u: State)
    requires Alike(st, t) && Alike(t, u)
    ensures Alike(st, u)
  {
    forall f | 0 <= f < |st.fibers| ensures AlikeFiber(st.fibers[f], u.fibers[f]) {
      assert AlikeFiber(st.fibers[f], t.fibers[f]) && AlikeFiber(t.fibers[f], u.fibers[f]);
    }
  }

  /** The first state goes off the list at `p`. */
  lemma UnlinkFlows(st: State, p: Place, s: Sid, t: State)
    requires Flows(st) && PlaceKnown(st, p) && ListAt(st, p) != [] && s == ListAt(st, p)[0] && Known(st, s)
    requires t == SetAt(SetList(st, p, ListAt(st, p)[1..]), s, None)
    ensures Flows(t) && Alike(st, t)
  {
    FlowsListed(st);
    var l := ListAt(st, p)[1..];
    SetListFlows(st, p, l);
    SetAtFlows(SetList(st, p, l), s, None);
    AlikeTrans(st, SetList(st, p, l), t);
  }

  lemma RouseFlows(st: State, p: Place)
    requires Flows(st) && PlaceKnown(st, p) && ListAt(st, p) != [] && Known(st, ListAt(st, p)[0])
    ensures Flows(Rouse(st, p)) && Rouse(st, p).curr == st.curr
  {
    var s := ListAt(st, p)[0];
    var t := SetAt(SetList(st, p, ListAt(st, p)[1..]), s, None);
    UnlinkFlows(st, p, s, t);
    ReadyFlows(t, s);
  }

  lemma SignalFlows(st: State, c: nat)
    requires Flows(st) && c < |st.conds| && ListKnown(st, OnCond(c))
    ensures Flows(Signal(st, c))
  {
    if st.conds[c] != [] { RouseFlows(st, OnCond(c)); }
  }

  lemma {:induction false} BroadcastFlows(st: State, c: nat)
    requires Flows(st) && c < |st.conds| && ListKnown(st, OnCond(c))
    ensures Flows(Broadcast(st, c))
    decreases |st.conds[c]|
  {
    if st.conds[c] != [] {
      RouseFlows(st, OnCond(c));
      RouseLists(st, OnCond(c));
      BroadcastFlows(Rouse(st, OnCond(c)), c);
    }
  }

  /** Stacks do not matter. */
  lemma StacksFlow(st: State, t: State)
    requires Flows(st) && OnlyStacks(st, t)
    ensures Flows(t)
  {
    FlowsListed(st);
    forall f | 0 <= f < |st.fibers|
      ensures AlikeFiber(st.fibers[f], t.fibers[f]) && t.fibers[f].joiners == st.fibers[f].joiners
    {
    }
    AlikeFlows(st, t);
  }

  lemma FireFlows(st: State, c: nat, status: Item)
    requires Flows(st) && c < |st.conds| && ListKnown(st, OnCond(c))
    ensures Flows(Fire(st, c, status))
  {
    var t := SetStacks(st, st.conds[c], [status]);
    SetStacksKeeps(st, st.conds[c], [status]);
    StacksFlow(st, t);
    BroadcastFlows(t, c);
  }

  /** One turn of the loop that wakes joiners. */
  lemma WakeStepFlows(st: State, f: nat, vs: seq<Item>, u: State)
    requires Flows(st) && f < |st.fibers| && ListKnown(st, OnJoin(f)) && st.fibers[f].joiners != []
    requires u == WakeOne(st, f, vs)
    ensures Flows(u) && u.curr == st.curr && |u.fibers| == |st.fibers|
    ensures ListKnown(u, OnJoin(f)) && u.fibers[f].joiners == st.fibers[f].joiners[1..]
    ensures WakeJoiners(st, f, vs) == WakeJoiners(u, f, vs)
  {
    var t, s := Rouse(st, OnJoin(f)), st.fibers[f].joiners[0];
    RouseFlows(st, OnJoin(f));
    RouseLists(st, OnJoin(f));
    assert ListAt(u, OnJoin(f)) == ListAt(t, OnJoin(f));
    StacksFlow(t, u);
  }

  lemma {:induction false} WakeFlows(st: State, f: nat, vs: seq<Item>)
    requires Flows(st) && f < |st.fibers| && ListKnown(st, OnJoin(f))
    ensures Flows(WakeJoiners(st, f, vs)) && WakeJoiners(st, f, vs).curr == st.curr
    decreases |st.fibers[f].joiners|
  {
    if st.fibers[f].joiners != [] {
      var u := WakeOne(st, f, vs);
      WakeStepFlows(st, f, vs, u);
      WakeFlows(u, f, vs);
    }
  }

  lemma CloseFlows(st: State)
    requires Flows(st) && st.curr.Fib?
    ensures Flows(Close(st, st.curr.id))
  {
    var t := Close(st, st.curr.id);
    FlowsListed(st);
    assert FiberFlows(st, st.curr.id);
    ListedShaped(t);
    forall g | 0 <= g < |t.fibers| ensures FiberFlows(t, g) { assert FiberFlows(st, g); }
  }

  lemma ExitFlows(st: State, vs: seq<Item>)
    requires Flows(st) && st.curr.Fib? && ListKnown(st, OnJoin(st.curr.id))
    ensures Flows(Exit(st, vs))
  {
    var u := SetStack(st, st.curr, vs);
    StacksFlow(st, u);
    assert ListAt(u, OnJoin(st.curr.id)) == ListAt(st, OnJoin(st.curr.id));
    WakeFlows(u, st.curr.id, vs);
    CloseFlows(WakeJoiners(u, st.curr.id, vs));
  }

  lemma JoinFlows(st: State, f: nat)
    requires Flows(st) && InLua(st) && f < |st.fibers|
    ensures Flows(Join(st, f))
  {
    if st.curr == Fib(f) {
      AbortFlows(st);
    } else if st.fibers[f].dead {
      StacksFlow(st, Join(st, f));
    } else {
      InsertFlows(st, OnJoin(f));
      var u := Insert(st, OnJoin(f));
      FiberReadyFlows(u, f);
      var v := FiberReady(u, f);
      SuspendFlows(v);
      CopyFlows(Suspend(v), Join(st, f));
    }
  }

  lemma CopyFlows(t: State, v: State)
    requires Flows(t) && v == t.(copyFrom := v.copyFrom)
    ensures Flows(v)
  {
    FlowsListed(t);
    AlikeFlows(t, v);
  }

  lemma AbortFlows(st: State)
    requires Flows(st)
    ensures Flows(st.(phase := Aborted))
  {
    var t := st.(phase := Aborted);
    FlowsListed(st);
    ListedShaped(t);
    forall g | 0 <= g < |t.fibers| ensures FiberFlows(t, g) { assert FiberFlows(st, g); }
  }

  lemma CallsFlow(st: State, t: State)
    requires Flows(st) && t == st.(calls := t.calls)
    ensures Flows(t)
  {
    FlowsListed(st);
    AlikeFlows(st, t);
  }

  lemma CreateFlows(st: State)
    requires Flows(st)
    ensures Flows(Create(st))
  {
    var t, n := Create(st), |st.fibers|;
    FlowsListed(st);
    forall f | 0 <= f < |t.fibers|
      ensures AllKnown(t, t.fibers[f].joiners) && Fib(f) !in t.fibers[f].joiners
    {
      if f < n { assert AllKnown(st, st.fibers[f].joiners); }
    }
    ListedShaped(t);
    forall f | 0 <= f < |t.fibers| ensures FiberFlows(t, f) {
      if f < n { assert FiberFlows(st, f); }
    }
  }

  lemma NewCondFlows(st: State)
    requires Flows(st)
    ensures Flows(st.(conds := st.conds + [[]]))
  {
    var t := st.(conds := st.conds + [[]]);
    FlowsListed(st);
    forall c | 0 <= c < |t.conds| ensures AllKnown(t, t.conds[c]) {
      if c < |st.conds| { assert AllKnown(st, st.conds[c]); }
    }
    AlikeFlows(st, t);
  }

  lemma YieldFlows(st: State)
    requires Flows(st) && InLua(st) && st.curr.Fib?
    ensures Flows(Yield(st))
  {
    var t, f := Yield(st), st.curr.id;
    assert FiberFlows(st, f);
    FlowsListed(st);
    NoDupAppend(st.queue, f);
    ListedShaped(t);
    forall g | 0 <= g < |t.fibers| ensures FiberFlows(t, g) { assert FiberFlows(st, g); }
  }

  lemma TurnFlows(st: State)
    requires Flows(st) && st.phase.Looping? && st.curr.Main?
    ensures Flows(Turn(st)) && !Turn(st).phase.Aborted?
  {
    var t := Turn(st);
    FlowsListed(st);
    if st.queue != [] {
      assert st.queue[0] in st.queue && FiberFlows(st, st.queue[0]);
      NoDupTail(st.queue);
    }
    ListedShaped(t);
    forall g | 0 <= g < |t.fibers| ensures FiberFlows(t, g) { assert FiberFlows(st, g); }
  }

  lemma LeaveFlows(st: State, active: bool)
    requires Flows(st) && st.phase.Polling? && (st.asyncRef ==> active)
    ensures Flows(Leave(st, active))
  {
    var t := Leave(st, active);
    assert t == st.(phase := t.phase, mainReady := t.mainReady, copyFrom := t.copyFrom, mainStack := t.mainStack);
    FlowsListed(st);
    assert Listed(t);
    ListedShaped(t);
    forall g | 0 <= g < |t.fibers| ensures FiberFlows(t, g) { assert FiberFlows(st, g); }
  }

  /** Every step there is keeps the queue and the loop in order. */
  lemma StepFlows(st: State, op: Op)
    requires Flows(st) && Enabled(st, op)
    ensures Flows(Step(st, op))
  {
    match op
    case DoCreate => CreateFlows(st);
    case DoNewCond => NewCondFlows(st);
    case DoReady(f) => FiberReadyFlows(st, f);
    case DoJoin(f) => JoinFlows(st, f);
    case DoWait(c) => InsertFlows(st, OnCond(c)); SuspendFlows(Insert(st, OnCond(c)));
    case DoSleep => 
      var u := st.(calls := st.calls + multiset{st.curr});
      CallsFlow(st, u); SuspendFlows(u);
    case DoSignal(c) => SignalFlows(st, c);
    case DoBroadcast(c) => BroadcastFlows(st, c);
    case DoYield => YieldFlows(st);
    case DoExit(vs) => ExitFlows(st, vs);
    case DoRaise => CloseFlows(st); AbortFlows(Close(st, st.curr.id));
    case DoTurn => TurnFlows(st);
    case Wake(s) =>
      var u := st.(calls := st.calls - multiset{s});
      CallsFlow(st, u); ReadyFlows(u, s);
    case OnSignal(c) => SignalFlows(st, c);
    case OnTimer(c, status) => FireFlows(st, c, status);
    case DoLeave(active) => LeaveFlows(st, active);
  }

  // Runs

  lemma {:induction false} RunFlows(st: State, ops: seq<Op>)
    requires Flows(st) && Runs(st, ops)
    ensures Flows(Exec(st, ops))
    decreases |ops|
  {
    if ops != [] {
      StepFlows(st, ops[0]);
      RunFlows(Step(st, ops[0]), ops[1..]);
    }
  }

  /** The queue and the loop are in order in every state of every run. */
  lemma EveryRun(ops: seq<Op>)
    requires Runs(Init(), ops)
    ensures Flows(Exec(Init(), ops))
  {
    RunFlows(Init(), ops);
  }

  /** What can be done in a state of any run: Lua code may make any call that names things there are; who runs may
      end, yield or fail; the loop may go on; libuv may make the callbacks that are due, and return. */
  predicate Possible(st: State, op: Op)
  {
    match op
    case DoReady(f) => InLua(st) && f < |st.fibers|
    case DoJoin(f) => InLua(st) && f < |st.fibers|
    case DoWait(c) => InLua(st) && c < |st.conds|
    case DoSignal(c) => InLua(st) && c < |st.conds|
    case DoBroadcast(c) => InLua(st) && c < |st.conds|
    case DoTurn => st.phase.Looping? && st.curr.Main?
    case Wake(s) => st.phase.Polling? && Known(st, s) && st.calls[s] > 0
    case OnSignal(c) => st.phase.Polling? && c < |st.conds|
    case OnTimer(c, _) => st.phase.Polling? && c < |st.conds|
    case DoLeave(active) => st.phase.Polling? && (active || !st.asyncRef)
    case _ => InLua(st) && (st.curr.Fib? || op.DoCreate? || op.DoNewCond? || op.DoSleep?)
  }

  /** No run ever gets into a state in which something else stands in the way; and a run that has not ended in an
      error can go on. */
  lemma NothingElseInTheWay(ops: seq<Op>, op: Op)
    requires Runs(Init(), ops)
    ensures var t := Exec(Init(), ops);
            && (Enabled(t, op) <==> Possible(t, op))
            && (t.phase.Aborted? || Enabled(t, DoCreate) || Enabled(t, DoTurn) || Enabled(t, DoLeave(true)))
  {
    EveryRun(ops);
  }

  /** The queue holds, each once, exactly the fibers that are ready, alive and not running; a fiber that
      suspends itself gives up control; and the next fiber to be resumed is alive. */
  lemma ReadyQueue(st: State, f: nat)
    requires Flows(st) && f < |st.fibers|
    ensures f in st.queue <==> st.fibers[f].ready && !st.fibers[f].dead && st.curr != Fib(f)
    ensures multiset(st.queue)[f] <= 1
    ensures InLua(st) && st.curr == Fib(f) ==> Suspend(st).curr == Main && !Suspend(st).fibers[f].ready
    ensures st.queue != [] && st.queue[0] == f ==> !st.fibers[f].dead
  {
    assert FiberFlows(st, f);
    CountOnce(st.queue, f);
    if st.queue != [] && st.queue[0] == f { assert f in st.queue; }
  }

  lemma {:induction false} CountOnce(s: seq<nat>, x: nat)
    requires NoDup(s)
    ensures multiset(s)[x] <= 1
  {
    if s != [] {
      NoDupTail(s);
      CountOnce(s[1..], x);
      assert s == [s[0]] + s[1..];
    }
  }

  // The queue over time

  /** The queue has at most grown at its end, and the async handle is still referenced. */
  predicate Later(st: State, t: State) { st.queue <= t.queue && (st.asyncRef ==> t.asyncRef) }

  lemma RouseLater(st: State, p: Place)
    requires PlaceKnown(st, p) && ListAt(st, p) != [] && Known(st, ListAt(st, p)[0])
    ensures Later(st, Rouse(st, p)) && Rouse(st, p).phase == st.phase
  {
  }

  lemma ParkLater(st: State, p: Place)
    requires PlaceKnown(st, p) && Known(st, st.curr)
    ensures Later(st, Park(st, p)) && (Park(st, p).phase == st.phase || Park(st, p).phase.Looping?)
  {
  }

  lemma JoinLater(st: State, f: nat)
    requires f < |st.fibers| && Known(st, st.curr)
    ensures Later(st, Join(st, f))
    ensures st.curr != Fib(f) ==> Join(st, f).phase == st.phase || Join(st, f).phase.Looping?
  {
    if st.curr != Fib(f) && !st.fibers[f].dead {
      JoinIsPark(st, f);
      ParkLater(FiberReady(st, f), OnJoin(f));
    }
  }

  lemma {:induction false} BroadcastLater(st: State, c: nat)
    requires c < |st.conds| && ListKnown(st, OnCond(c))
    ensures Later(st, Broadcast(st, c)) && Broadcast(st, c).phase == st.phase
    decreases |st.conds[c]|
  {
    if st.conds[c] != [] {
      RouseLists(st, OnCond(c));
      RouseLater(st, OnCond(c));
      BroadcastLater(Rouse(st, OnCond(c)), c);
    }
  }

  lemma FireLater(st: State, c: nat, status: Item)
    requires c < |st.conds| && ListKnown(st, OnCond(c))
    ensures Later(st, Fire(st, c, status)) && Fire(st, c, status).phase == st.phase
  {
    SetStacksKeeps(st, st.conds[c], [status]);
    BroadcastLater(SetStacks(st, st.conds[c], [status]), c);
  }

  lemma {:induction false} WakeLater(st: State, f: nat, vs: seq<Item>)
    requires Flows(st) && f < |st.fibers| && ListKnown(st, OnJoin(f))
    ensures Later(st, WakeJoiners(st, f, vs)) && WakeJoiners(st, f, vs).phase == st.phase
    decreases |st.fibers[f].joiners|
  {
    if st.fibers[f].joiners != [] {
      var u := WakeOne(st, f, vs);
      RouseLater(st, OnJoin(f));
      WakeStepFlows(st, f, vs, u);
      WakeLater(u, f, vs);
    }
  }

  lemma ExitLater(st: State, vs: seq<Item>)
    requires Flows(st) && st.curr.Fib? && ListKnown(st, OnJoin(st.curr.id))
    ensures Later(st, Exit(st, vs)) && Exit(st, vs).phase == st.phase
  {
    var u := SetStack(st, st.curr, vs);
    StacksFlow(st, u);
    assert ListAt(u, OnJoin(st.curr.id)) == ListAt(st, OnJoin(st.curr.id));
    WakeLater(u, st.curr.id, vs);
  }

  predicate TurnTakes(st: State, t: State)
  {
    && (st.queue != [] ==> t.queue == st.queue[1..] && t.curr == Fib(st.queue[0]))
    && (st.queue == [] ==> t.queue == [] && t.phase.Polling?)
    && t.asyncRef == st.asyncRef
  }

  /** The queue only grows at its end, except that a turn of the scheduler takes off its first
      fiber; and a referenced async handle stays referenced. Only an error in a fiber, or a fiber that joins
      itself, ends the run: the loop never meets a dead fiber. */
  lemma QueueStep(st: State, op: Op)
    requires Flows(st) && Enabled(st, op)
    ensures !op.DoTurn? ==> Later(st, Step(st, op))
    ensures op.DoTurn? ==> TurnTakes(st, Step(st, op))
    ensures Step(st, op).phase.Aborted? <==> op.DoRaise? || (op.DoJoin? && st.curr == Fib(op.f))
  {
    match op
    case DoTurn => if st.queue != [] { assert st.queue[0] in st.queue && FiberFlows(st, st.queue[0]); }
    case DoJoin(f) => JoinLater(st, f);
    case DoWait(c) => ParkLater(st, OnCond(c));
    case DoSignal(c) => if st.conds[c] != [] { RouseLater(st, OnCond(c)); }
    case OnSignal(c) => if st.conds[c] != [] { RouseLater(st, OnCond(c)); }
    case DoBroadcast(c) => BroadcastLater(st, c);
    case OnTimer(c, status) => FireLater(st, c, status);
    case DoExit(vs) => ExitLater(st, vs);
    case _ =>
  }

  /** Turns of the scheduler in a run. */
  function Turns(ops: seq<Op>): nat
  {
    if ops == [] then 0 else (if ops[0].DoTurn? then 1 else 0) + Turns(ops[1..])
  }

  /** What a step does to the queue: it grows at its end, or a turn takes off its head. */
  predicate QueueMoves(q: seq<nat>, op: Op, r: seq<nat>)
  {
    if op.DoTurn? then q != [] ==> r == q[1..] else q <= r
  }

  /** The queue along a run. */
  lemma {:induction false} QueueTrace(st: State, ops: seq<Op>) returns (qs: seq<seq<nat>>)
    requires Flows(st) && Runs(st, ops)
    ensures |qs| == |ops| + 1 && qs[0] == st.queue && qs[|ops|] == Exec(st, ops).queue
    ensures forall j :: 0 <= j < |ops| ==> QueueMoves(qs[j], ops[j], qs[j + 1])
    decreases |ops|
  {
    if ops == [] {
      qs := [st.queue];
    } else {
      StepFlows(st, ops[0]);
      QueueStep(st, ops[0]);
      var u := Step(st, ops[0]);
      var rest := QueueTrace(u, ops[1..]);
      ExecCons(st, ops, u);
      qs := [st.queue] + rest;
      forall k | 0 <= k < |ops| ensures QueueMoves(qs[k], ops[k], qs[k + 1]) {
        if k > 0 { assert ops[k] == ops[1..][k - 1] && QueueMoves(rest[k - 1], ops[1..][k - 1], rest[k]); }
      }
    }
  }

  /** After k turns, what was at position i of the queue is at position i - k. */
  lemma {:induction false} MovesUp(qs: seq<seq<nat>>, ops: seq<Op>, i: nat)
    requires |qs| == |ops| + 1 && forall j :: 0 <= j < |ops| ==> QueueMoves(qs[j], ops[j], qs[j + 1])
    requires i < |qs[0]| && Turns(ops) <= i
    ensures i - Turns(ops) < |qs[|ops|]| && qs[|ops|][i - Turns(ops)] == qs[0][i]
    decreases |ops|
  {
    if ops != [] {
      assert QueueMoves(qs[0], ops[0], qs[1]);
      forall j | 0 <= j < |ops[1..]| ensures QueueMoves(qs[1..][j], ops[1..][j], qs[1..][j + 1]) {
        assert QueueMoves(qs[j + 1], ops[j + 1], qs[j + 2]);
      }
      MovesUp(qs[1..], ops[1..], if ops[0].DoTurn? then i - 1 else i);
    }
  }

  /** Bounded waiting: whatever the others create, ready, join, signal or yield, in whatever order callbacks
      come, the fiber at position i of the queue is resumed by turn i + 1. */
  lemma BoundedWaiting(st: State, ops: seq<Op>, i: nat)
    requires Flows(st) && Runs(st, ops) && i < |st.queue| && Turns(ops) == i
    ensures Flows(Exec(st, ops))
    ensures var t := Exec(st, ops);
            Enabled(t, DoTurn) ==> Step(t, DoTurn).curr == Fib(st.queue[i])
  {
    var qs := QueueTrace(st, ops);
    MovesUp(qs, ops, i);
    RunFlows(st, ops);
    NextIsHead(Exec(st, ops));
  }

  lemma NextIsHead(t: State)
    requires Flows(t) && t.queue != []
    ensures Enabled(t, DoTurn) ==> Step(t, DoTurn).curr == Fib(t.queue[0])
  {
    if Enabled(t, DoTurn) { QueueStep(t, DoTurn); }
  }

  /** `n` times: resume the next fiber, which yields. */
  function YieldRounds(n: nat): seq<Op>
  {
    if n == 0 then [] else [DoTurn, DoYield] + YieldRounds(n - 1)
  }

  /** Fibers that only ever yield run round robin. */
  lemma {:induction false} RoundRobin(st: State, n: nat)
    requires Flows(st) && st.phase.Looping? && st.curr.Main? && n <= |st.queue|
    ensures Runs(st, YieldRounds(n))
    ensures Exec(st, YieldRounds(n)).queue == st.queue[n..] + st.queue[..n]
    decreases n
  {
    if n == 0 {
      assert st.queue[0..] + st.queue[..0] == st.queue;
    } else {
      var t := OneRound(st);
      RoundRobin(t, n - 1);
      ExecTwo(st, DoTurn, DoYield, YieldRounds(n - 1));
      Rotate(st.queue, n);
    }
  }

  lemma Rotate(q: seq<nat>, n: nat)
    requires 1 <= n <= |q|
    ensures var r := q[1..] + [q[0]]; r[n - 1..] + r[..n - 1] == q[n..] + q[..n]
  {
    var r := q[1..] + [q[0]];
    assert r[n - 1..] == q[n..] + [q[0]];
    assert r[..n - 1] == q[1..n];
    assert [q[0]] + q[1..n] == q[..n];
  }

  lemma ExecTwo(st: State, a: Op, b: Op, rest: seq<Op>)
    requires Enabled(st, a) && Enabled(Step(st, a), b) && Runs(Step(Step(st, a), b), rest)
    ensures Runs(st, [a, b] + rest) && Exec(st, [a, b] + rest) == Exec(Step(Step(st, a), b), rest)
  {
    assert ([a, b] + rest)[1..] == [b] + rest && ([b] + rest)[1..] == rest;
    assert Runs(Step(st, a), [b] + rest);
  }

  lemma OneRound(st: State) returns (t: State)
    requires Flows(st) && st.phase.Looping? && st.curr.Main? && st.queue != []
    ensures Enabled(st, DoTurn) && Enabled(Step(st, DoTurn), DoYield) && t == Step(Step(st, DoTurn), DoYield)
    ensures Flows(t) && t.phase.Looping? && t.curr.Main? && t.queue == st.queue[1..] + [st.queue[0]]
  {
    QueueStep(st, DoTurn);
    TurnFlows(st);
    var u := Step(st, DoTurn);
    assert FiberFlows(u, st.queue[0]);
    YieldFlows(u);
    t := Step(u, DoYield);
  }

  // The event loop

  /** When the scheduler enters `uv_run_once`, no fiber is queued, and if the thread has been made
      ready meanwhile an async is pending, so the call does not block. */
  lemma PollEntry(st: State)
    requires Flows(st) && Enabled(st, DoTurn) && Step(st, DoTurn).phase.Polling?
    ensures st.queue == [] && (st.mainReady ==> st.asyncPending)
  {
    if st.queue != [] { QueueStep(st, DoTurn); }
  }

  /** Inside `uv_run_once`, a fiber is never queued without an async pending, so the call comes back to
      the scheduler. */
  lemma PollReturns(ops: seq<Op>)
    requires Runs(Init(), ops)
    ensures var t := Exec(Init(), ops);
            t.phase.Polling? && t.queue != [] ==> t.asyncPending && t.asyncRef && !Enabled(t, DoLeave(false))
  {
    EveryRun(ops);
    var t := Exec(Init(), ops);
    if t.queue != [] { QueuedRef(t); }
  }

  lemma {:induction false} RefStays(st: State, ops: seq<Op>)
    requires Flows(st) && Runs(st, ops) && st.asyncRef
    ensures Exec(st, ops).asyncRef
    decreases |ops|
  {
    if ops != [] {
      StepFlows(st, ops[0]);
      QueueStep(st, ops[0]);
      RefStays(Step(st, ops[0]), ops[1..]);
    }
  }

  /** Once a fiber has been made ready, the thread's suspension ends only because the thread was
      readied; in an allowed run it is then on no list. */
  lemma SuspendReturns(st: State, ops: seq<Op>, active: bool)
    requires Flows(st) && Runs(st, ops)
    requires st.asyncRef || exists f :: 0 <= f < |st.fibers| && st.fibers[f].ready
    ensures Flows(Exec(st, ops))
    ensures var t := Exec(st, ops);
            Enabled(t, DoLeave(active)) && Step(t, DoLeave(active)).phase.Running? ==>
              t.mainReady && (Inv(st) && Legal(st, ops) ==> t.mainAt.None?)
  {
    if f :| 0 <= f < |st.fibers| && st.fibers[f].ready { assert FiberFlows(st, f); }
    RunFlows(st, ops);
    RefStays(st, ops);
    LeavesReady(Exec(st, ops), active);
    if Inv(st) && Legal(st, ops) {
      RunKeeps(st, ops);
      LeavesLoose(Exec(st, ops), active);
    }
  }

  lemma LeavesReady(t: State, active: bool)
    requires t.asyncRef
    ensures Enabled(t, DoLeave(active)) && Step(t, DoLeave(active)).phase.Running? ==> t.mainReady
  {
  }

  lemma LeavesLoose(t: State, active: bool)
    requires MainOk(t, None) && t.asyncRef
    ensures Enabled(t, DoLeave(active)) && Step(t, DoLeave(active)).phase.Running? ==> t.mainAt.None?
  {
  }

  /** When it ends for lack of active handles, no fiber is queued or ready. */
  lemma InactiveMeansIdle(st: State)
    requires Flows(st) && Enabled(st, DoLeave(false))
    ensures st.queue == [] && forall f :: 0 <= f < |st.fibers| ==> !st.fibers[f].ready
  {
    if st.queue != [] { QueuedRef(st); }
    forall f | 0 <= f < |st.fibers| ensures !st.fibers[f].ready { assert FiberFlows(st, f); }
  }
}
