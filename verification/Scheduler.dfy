/** The scheduler of one thread: src/luv_thread.c, src/luv_fiber.c, src/luv_cond.c,
    src/luv_state.c and src/luv_timer.c as functions on a state. */
module Scheduler {

  import opened Options

  /** A Lua value on some stack. */
  type Item = int

  /** A state in the sense of `luv_state_t`: the thread or one of its fibers. */
  datatype Sid = Main | Fib(id: nat)

  /** The lists a state can be parked on: that of a condition, or the joiners of a fiber. */
  datatype Place = OnCond(c: nat) | OnJoin(f: nat)

  /** `ready`, `dead` and `started` are the flags `LUV_FREADY`, `LUV_FDEAD` and `LUV_FSTART`;
      `joiners` is the list `rouse`. The field `at` is not in the C structure: it names the list that the
      fiber is on, and the lists determine it (see `SchedulerInv.ListOk`). */
  datatype Fiber = Fiber(ready: bool, dead: bool, started: bool, joiners: seq<Sid>, stack: seq<Item>,
                         at: Option<Place>)

  /** What the thread is doing: running Lua code, in `luvL_thread_loop`, in `uv_run_once`, or
      unwinding an error. */
  datatype Phase = Running | Looping | Polling | Aborted

  datatype State = State(
    fibers: seq<Fiber>,
    queue: seq<nat>,            // the thread's list `rouse`
    curr: Sid,
    phase: Phase,
    mainReady: bool,            // LUV_FREADY of the thread
    mainStack: seq<Item>,
    mainAt: Option<Place>,
    copyFrom: Option<nat>,      // the fiber whose results the thread copies when it resumes
    asyncPending: bool,         // uv_async_send since the last uv_run_once
    asyncRef: bool,             // uv_ref on the async handle
    conds: seq<seq<Sid>>,
    calls: multiset<Sid>)       // callbacks registered by a state for itself and not yet made

  function Init(): State
  {
    State([], [], Main, Running, true, [], None, None, false, false, [], multiset{})
  }

  predicate Known(st: State, s: Sid) { s.Fib? ==> s.id < |st.fibers| }

  function At(st: State, s: Sid): Option<Place>
    requires Known(st, s)
  {
    if s.Main? then st.mainAt else st.fibers[s.id].at
  }

  function SetAt(st: State, s: Sid, p: Option<Place>): State
    requires Known(st, s)
  {
    if s.Main? then st.(mainAt := p) else st.(fibers := st.fibers[s.id := st.fibers[s.id].(at := p)])
  }

  function Push(st: State, s: Sid, vs: seq<Item>): State
    requires Known(st, s)
  {
    if s.Main? then st.(mainStack := st.mainStack + vs)
    else st.(fibers := st.fibers[s.id := st.fibers[s.id].(stack := st.fibers[s.id].stack + vs)])
  }

  // Ready and suspend

  /** `luvL_thread_enqueue`. */
  function Enqueue(st: State, f: nat): State
  {
    var first := st.queue == [];
    st.(queue := st.queue + [f], asyncPending := st.asyncPending || first, asyncRef := st.asyncRef || first)
  }

  /** `luvL_fiber_ready`. */
  function FiberReady(st: State, f: nat): State
    requires f < |st.fibers|
  {
    if st.fibers[f].ready then st
    else Enqueue(st.(fibers := st.fibers[f := st.fibers[f].(ready := true)]), f)
  }

  /** `luvL_thread_ready`. */
  function ThreadReady(st: State): State
  {
    if st.mainReady then st else st.(mainReady := true, asyncPending := true)
  }

  /** `luvL_state_ready`. */
  function StateReady(st: State, s: Sid): State
    requires Known(st, s)
  {
    if s.Main? then ThreadReady(st) else FiberReady(st, s.id)
  }

  /** `luvL_state_suspend` on the running state: the thread starts to run its loop, a fiber gives
      control back to it. */
  function Suspend(st: State): State
    requires Known(st, st.curr)
  {
    if st.curr.Main? then
      if st.mainReady then st.(mainReady := false, phase := Looping) else st
    else
      var f := st.curr.id;
      if st.fibers[f].ready
      then st.(fibers := st.fibers[f := st.fibers[f].(ready := false)], curr := Main)
      else st
  }

  // Lists of suspended states

  predicate PlaceKnown(st: State, p: Place)
  {
    match p
    case OnCond(c) => c < |st.conds|
    case OnJoin(f) => f < |st.fibers|
  }

  /** The list kept at a place. */
  function ListAt(st: State, p: Place): seq<Sid>
    requires PlaceKnown(st, p)
  {
    match p
    case OnCond(c) => st.conds[c]
    case OnJoin(f) => st.fibers[f].joiners
  }

  function SetList(st: State, p: Place, l: seq<Sid>): State
    requires PlaceKnown(st, p)
  {
    match p
    case OnCond(c) => st.(conds := st.conds[c := l])
    case OnJoin(f) => st.(fibers := st.fibers[f := st.fibers[f].(joiners := l)])
  }

  /** Put the running state at the end of the list at `p`. */
  function Insert(st: State, p: Place): State
    requires PlaceKnown(st, p) && Known(st, st.curr)
  {
    SetAt(SetList(st, p, ListAt(st, p) + [st.curr]), st.curr, Some(p))
  }

  /** Suspend the running state until a callback of its own: `luv_sleep`, a write, a file operation. The
      callback stays due whatever else makes the state ready meanwhile. */
  function Sleep(st: State): State
    requires Known(st, st.curr)
  {
    Suspend(st.(calls := st.calls + multiset{st.curr}))
  }

  /** The callback that `s` registered is made. */
  function Call(st: State, s: Sid): State
    requires Known(st, s)
  {
    StateReady(st.(calls := st.calls - multiset{s}), s)
  }

  /** Park the running state at `p`: `luvL_cond_wait`. */
  function Park(st: State, p: Place): State
    requires PlaceKnown(st, p) && Known(st, st.curr)
  {
    Suspend(Insert(st, p))
  }

  /** Take the first state off the list at `p` and make it ready. */
  function Rouse(st: State, p: Place): State
    requires PlaceKnown(st, p) && ListAt(st, p) != [] && Known(st, ListAt(st, p)[0])
  {
    var l := ListAt(st, p);
    StateReady(SetAt(SetList(st, p, l[1..]), l[0], None), l[0])
  }

  /** All members of the list at `p` are states there are. */
  predicate ListKnown(st: State, p: Place)
    requires PlaceKnown(st, p)
  {
    AllKnown(st, ListAt(st, p))
  }

  lemma RouseLists(st: State, p: Place)
    requires PlaceKnown(st, p) && ListKnown(st, p) && ListAt(st, p) != []
    ensures var t := Rouse(st, p);
            && PlaceKnown(t, p) && ListAt(t, p) == ListAt(st, p)[1..] && ListKnown(t, p)
            && |t.fibers| == |st.fibers| && |t.conds| == |st.conds|
  {
  }

  /** `luvL_cond_signal`: a state is roused, if one waits. */
  function Signal(st: State, c: nat): State
    requires c < |st.conds| && ListKnown(st, OnCond(c))
  {
    if st.conds[c] == [] then st else Rouse(st, OnCond(c))
  }

  /** `luvL_cond_broadcast`. */
  function Broadcast(st: State, c: nat): State
    requires c < |st.conds| && ListKnown(st, OnCond(c))
    decreases if c < |st.conds| then |st.conds[c]| else 0
  {
    if st.conds[c] == [] then st
    else
      RouseLists(st, OnCond(c));
      Broadcast(Rouse(st, OnCond(c)), c)
  }

  function SetStack(st: State, s: Sid, vs: seq<Item>): State
    requires Known(st, s)
  {
    if s.Main? then st.(mainStack := vs)
    else st.(fibers := st.fibers[s.id := st.fibers[s.id].(stack := vs)])
  }

  predicate AllKnown(st: State, l: seq<Sid>) { forall i :: 0 <= i < |l| ==> Known(st, l[i]) }

  /** The loop in `_timer_cb` that replaces the stacks of all waiters. */
  function SetStacks(st: State, l: seq<Sid>, vs: seq<Item>): State
    requires AllKnown(st, l)
    decreases |l|
  {
    if l == [] then st
    else
      var t := SetStack(st, l[0], vs);
      assert forall i :: 0 <= i < |l[1..]| ==> l[1..][i] == l[i + 1];
      SetStacks(t, l[1..], vs)
  }

  lemma {:induction false} SetStacksKeeps(st: State, l: seq<Sid>, vs: seq<Item>)
    requires AllKnown(st, l)
    ensures var t := SetStacks(st, l, vs);
            && |t.fibers| == |st.fibers|
            && t == st.(fibers := t.fibers, mainStack := t.mainStack)
            && forall f :: 0 <= f < |st.fibers| ==> t.fibers[f] == st.fibers[f].(stack := t.fibers[f].stack)
    decreases |l|
  {
    if l != [] {
      var t := SetStack(st, l[0], vs);
      assert forall i :: 0 <= i < |l[1..]| ==> l[1..][i] == l[i + 1];
      SetStacksKeeps(t, l[1..], vs);
    }
  }

  /** `_timer_cb`: every waiter gets the status as its only value, then all are roused. */
  function Fire(st: State, c: nat, status: Item): State
    requires c < |st.conds| && ListKnown(st, OnCond(c))
  {
    assert ListAt(st, OnCond(c)) == st.conds[c];
    SetStacksKeeps(st, st.conds[c], [status]);
    Broadcast(SetStacks(st, st.conds[c], [status]), c)
  }

  // Fibers

  /** `luvL_fiber_create`. */
  function Create(st: State): State
  {
    st.(fibers := st.fibers + [Fiber(false, false, false, [], [], None)])
  }

  /** `luv_fiber_join`. Joining a fiber that has ended copies its values at once. */
  function Join(st: State, f: nat): State
    requires f < |st.fibers| && Known(st, st.curr)
  {
    if st.curr == Fib(f) then st.(phase := Aborted)
    else if st.fibers[f].dead then Push(st, st.curr, st.fibers[f].stack)
    else
      var t := Suspend(FiberReady(Insert(st, OnJoin(f)), f));
      if st.curr.Main? then t.(copyFrom := Some(f)) else t
  }

  /** The loop that wakes the joiners of `f` and hands each fiber among them the values. */
  function WakeJoiners(st: State, f: nat, vs: seq<Item>): State
    requires f < |st.fibers| && ListKnown(st, OnJoin(f))
    decreases if f < |st.fibers| then |st.fibers[f].joiners| else 0
  {
    if st.fibers[f].joiners == [] then st
    else
      var s := st.fibers[f].joiners[0];
      RouseLists(st, OnJoin(f));
      var t := Rouse(st, OnJoin(f));
      WakeJoiners(if s.Fib? then Push(t, s, vs) else t, f, vs)
  }

  /** A fiber returns `vs` (src/luv_thread.c:124-148). */
  function Exit(st: State, vs: seq<Item>): State
    requires st.curr.Fib? && Known(st, st.curr) && ListKnown(st, OnJoin(st.curr.id))
  {
    var f := st.curr.id;
    var t := SetStack(st, Fib(f), vs);
    assert ListAt(t, OnJoin(f)) == ListAt(st, OnJoin(f));
    Close(WakeJoiners(t, f, vs), f)
  }

  /** `luvL_fiber_close`, and control goes back to the scheduler. */
  function Close(st: State, f: nat): State
  {
    if f < |st.fibers| then st.(fibers := st.fibers[f := st.fibers[f].(dead := true)], curr := Main)
    else st.(curr := Main)
  }

  /** Plain `coroutine.yield`: a fiber still ready goes to the end of the queue. */
  function Yield(st: State): State
    requires st.curr.Fib? && Known(st, st.curr)
  {
    var t := st.(curr := Main);
    if st.fibers[st.curr.id].ready then t.(queue := t.queue + [st.curr.id]) else t
  }

  // The loop

  /** One turn of the scheduler: `luvL_thread_once` up to `lua_resume` when a fiber is queued,
      entry into `uv_run_once` when none is. */
  function Turn(st: State): State
    requires forall i :: 0 <= i < |st.queue| ==> st.queue[i] < |st.fibers|
  {
    if st.queue != [] then
      var f := st.queue[0];
      var t := st.(queue := st.queue[1..]);
      if st.fibers[f].dead then t.(phase := Aborted)
      else t.(fibers := t.fibers[f := t.fibers[f].(started := true)], curr := Fib(f))
    else st.(phase := Polling, asyncPending := false)
  }

  /** The thread goes on with its Lua code; after a join it copies the fiber's values. */
  function Resume(st: State): State
  {
    var t := st.(phase := Running, copyFrom := None);
    if st.copyFrom.Some? && st.copyFrom.value < |st.fibers|
    then t.(mainStack := t.mainStack + st.fibers[st.copyFrom.value].stack) else t
  }

  /** `uv_run_once` returns (src/luv_thread.c:28-38). */
  function Leave(st: State, active: bool): State
  {
    if st.mainReady then Resume(st)
    else if active then st.(phase := Looping)
    else Resume(st.(mainReady := true))
  }

  // Steps

  /** Calls made by Lua code, steps of the loop, and callbacks. */
  datatype Op =
    | DoCreate
    | DoNewCond
    | DoReady(f: nat)
    | DoJoin(f: nat)
    | DoWait(c: nat)
    | DoSleep
    | DoSignal(c: nat)
    | DoBroadcast(c: nat)
    | DoYield
    | DoExit(vs: seq<Item>)
    | DoRaise
    | DoTurn
    | Wake(s: Sid)
    | OnSignal(c: nat)
    | OnTimer(c: nat, status: Item)
    | DoLeave(active: bool)

  /** Some Lua code is running: the thread's or a fiber's. */
  predicate InLua(st: State) { (st.phase.Running? && st.curr.Main?) || (st.phase.Looping? && st.curr.Fib?) }

  /** All indices in the state are in range. */
  predicate Shaped(st: State)
  {
    && Known(st, st.curr)
    && (forall i :: 0 <= i < |st.queue| ==> st.queue[i] < |st.fibers|)
    && (forall c :: 0 <= c < |st.conds| ==> ListKnown(st, OnCond(c)))
    && (forall f :: 0 <= f < |st.fibers| ==> ListKnown(st, OnJoin(f)))
  }

  /** The step can be taken at this point. libuv promises that `uv_run_once` reports an active
      handle while the async handle is referenced. */
  predicate Enabled(st: State, op: Op)
  {
    && Shaped(st)
    && match op
       case DoCreate => InLua(st)
       case DoNewCond => InLua(st)
       case DoReady(f) => InLua(st) && f < |st.fibers|
       case DoJoin(f) => InLua(st) && f < |st.fibers|
       case DoWait(c) => InLua(st) && c < |st.conds|
       case DoSleep => InLua(st)
       case DoSignal(c) => InLua(st) && c < |st.conds|
       case DoBroadcast(c) => InLua(st) && c < |st.conds|
       case DoYield => InLua(st) && st.curr.Fib?
       case DoExit(_) => InLua(st) && st.curr.Fib?
       case DoRaise => InLua(st) && st.curr.Fib?
       case DoTurn => st.phase.Looping? && st.curr.Main?
       case Wake(s) => st.phase.Polling? && Known(st, s) && s in st.calls
       case OnSignal(c) => st.phase.Polling? && c < |st.conds|
       case OnTimer(c, _) => st.phase.Polling? && c < |st.conds|
       case DoLeave(active) => st.phase.Polling? && (st.asyncRef ==> active)
  }

  function Step(st: State, op: Op): State
    requires Enabled(st, op)
  {
    match op
    case DoCreate => Create(st)
    case DoNewCond => st.(conds := st.conds + [[]])
    case DoReady(f) => FiberReady(st, f)
    case DoJoin(f) => Join(st, f)
    case DoWait(c) => Park(st, OnCond(c))
    case DoSleep => Sleep(st)
    case DoSignal(c) => Signal(st, c)
    case DoBroadcast(c) => Broadcast(st, c)
    case DoYield => Yield(st)
    case DoExit(vs) => Exit(st, vs)
    case DoRaise => Close(st, st.curr.id).(phase := Aborted)
    case DoTurn => Turn(st)
    case Wake(s) => Call(st, s)
    case OnSignal(c) => Signal(st, c)
    case OnTimer(c, status) => Fire(st, c, status)
    case DoLeave(active) => Leave(st, active)
  }
}
