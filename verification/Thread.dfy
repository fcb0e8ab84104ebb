/** The scheduler as the C code runs it: an object whose fields the calls change, with the loops
    of `luvL_cond_broadcast`, `_timer_cb`, `luvL_state_xcopy`, `luvL_thread_once`,
    `luvL_thread_loop` and `luvL_thread_suspend`. Every method has the effect `Scheduler` gives it. */
module Thread {
  import opened Options
  import opened Scheduler
  import opened SchedulerRuns
  import opened Programs
  import opened ProgramRuns

  class Thread {
    var fibers: seq<Fiber>
    var queue: seq<nat>
    var curr: Sid
    var phase: Phase
    var mainReady: bool
    var mainStack: seq<Item>
    var mainAt: Option<Place>
    var copyFrom: Option<nat>
    var asyncPending: bool
    var asyncRef: bool
    var conds: seq<seq<Sid>>
    var calls: multiset<Sid>

    function Model(): State
      reads this
    {
      State(fibers, queue, curr, phase, mainReady, mainStack, mainAt, copyFrom, asyncPending, asyncRef, conds,
            calls)
    }

    /** `luvL_thread_init_main`. */
    constructor ()
      ensures Model() == Init()
    {
      fibers, queue, curr, phase := [], [], Main, Running;
      mainReady, mainStack, mainAt, copyFrom := true, [], None, None;
      asyncPending, asyncRef, conds, calls := false, false, [], multiset{};
    }

    method Enqueue(f: nat)
      modifies this
      ensures Model() == Scheduler.Enqueue(old(Model()), f)
    {
      var needAsync := queue == [];
      queue := queue + [f];
      if needAsync {
        asyncPending := true;
        asyncRef := true;
      }
    }

    method FiberReady(f: nat)
      requires f < |fibers|
      modifies this
      ensures Model() == Scheduler.FiberReady(old(Model()), f)
    {
      if !fibers[f].ready {
        fibers := fibers[f := fibers[f].(ready := true)];
        Enqueue(f);
      }
    }

    method StateReady(s: Sid)
      requires Known(Model(), s)
      modifies this
      ensures Model() == Scheduler.StateReady(old(Model()), s)
    {
      if s.Main? {
        if !mainReady {
          mainReady := true;
          asyncPending := true;
        }
      } else {
        FiberReady(s.id);
      }
    }

    method Suspend()
      requires Known(Model(), curr)
      modifies this
      ensures Model() == Scheduler.Suspend(old(Model()))
    {
      if curr.Main? {
        if mainReady {
          mainReady := false;
          phase := Looping;
        }
      } else {
        var f := curr.id;
        if fibers[f].ready {
          fibers := fibers[f := fibers[f].(ready := false)];
          curr := Main;
        }
      }
    }

    method SetPlace(s: Sid, p: Option<Place>)
      requires Known(Model(), s)
      modifies this
      ensures Model() == SetAt(old(Model()), s, p)
    {
      if s.Main? { mainAt := p; } else { fibers := fibers[s.id := fibers[s.id].(at := p)]; }
    }

    /** Insert the running state at the tail of a list. */
    method InsertTail(p: Place)
      requires PlaceKnown(Model(), p) && Known(Model(), curr)
      modifies this
      ensures Model() == Insert(old(Model()), p)
    {
      match p {
        case OnCond(c) => conds := conds[c := conds[c] + [curr]];
        case OnJoin(f) => fibers := fibers[f := fibers[f].(joiners := fibers[f].joiners + [curr])];
      }
      SetPlace(curr, Some(p));
    }

    /** `luvL_cond_wait`. */
    method CondWait(c: nat)
      requires c < |conds| && Known(Model(), curr)
      modifies this
      ensures Model() == Park(old(Model()), OnCond(c))
    {
      InsertTail(OnCond(c));
      Suspend();
    }

    /** `luv_sleep` and other calls that wait for a callback of their own. */
    method Sleep()
      requires Known(Model(), curr)
      modifies this
      ensures Model() == Scheduler.Sleep(old(Model()))
    {
      calls := calls + multiset{curr};
      Suspend();
    }

    /** Remove the head of a list and make it ready. */
    method RouseHead(p: Place) returns (s: Sid)
      requires PlaceKnown(Model(), p) && ListAt(Model(), p) != [] && Known(Model(), ListAt(Model(), p)[0])
      modifies this
      ensures Model() == Rouse(old(Model()), p) && s == old(ListAt(Model(), p)[0])
    {
      match p {
        case OnCond(c) =>
          s := conds[c][0];
          conds := conds[c := conds[c][1..]];
        case OnJoin(f) =>
          s := fibers[f].joiners[0];
          fibers := fibers[f := fibers[f].(joiners := fibers[f].joiners[1..])];
      }
      SetPlace(s, None);
      StateReady(s);
    }

    /** `luvL_cond_signal`: whether a state was roused. */
    method CondSignal(c: nat) returns (n: nat)
      requires c < |conds| && ListKnown(Model(), OnCond(c))
      modifies this
      ensures Model() == Signal(old(Model()), c) && n == if old(conds[c]) == [] then 0 else 1
    {
      if conds[c] != [] {
        var _ := RouseHead(OnCond(c));
        n := 1;
      } else {
        n := 0;
      }
    }

    /** `luvL_cond_broadcast`: how many states were roused. */
    method CondBroadcast(c: nat) returns (roused: nat)
      requires c < |conds| && ListKnown(Model(), OnCond(c))
      modifies this
      ensures Model() == Broadcast(old(Model()), c) && roused == |old(conds[c])|
    {
      roused := 0;
      while conds[c] != []
        invariant c < |conds| && ListKnown(Model(), OnCond(c))
        invariant Broadcast(Model(), c) == Broadcast(old(Model()), c)
        invariant roused + |conds[c]| == |old(conds[c])|
        decreases |conds[c]|
      {
        RouseLists(Model(), OnCond(c));
        var _ := RouseHead(OnCond(c));
        roused := roused + 1;
      }
    }

    method ReplaceStack(s: Sid, vs: seq<Item>)
      requires Known(Model(), s)
      modifies this
      ensures Model() == SetStack(old(Model()), s, vs)
    {
      if s.Main? { mainStack := vs; } else { fibers := fibers[s.id := fibers[s.id].(stack := vs)]; }
    }

    /** `_timer_cb`. */
    method TimerCallback(c: nat, status: Item)
      requires c < |conds| && ListKnown(Model(), OnCond(c))
      modifies this
      ensures Model() == Fire(old(Model()), c, status)
    {
      ghost var st := Model();
      var l := conds[c];
      var i := 0;
      assert l[0..] == l && ListAt(st, OnCond(c)) == l;
      while i < |l|
        invariant i <= |l| && AllKnown(Model(), l[i..])
        invariant SetStacks(Model(), l[i..], [status]) == SetStacks(st, l, [status])
      {
        assert l[i..][0] == l[i] && l[i..][1..] == l[i + 1..];
        ReplaceStack(l[i], [status]);
        i := i + 1;
      }
      SetStacksKeeps(st, l, [status]);
      assert l[i..] == [];
      var _ := CondBroadcast(c);
    }

    /** `luvL_fiber_create`. */
    method FiberCreate() returns (f: nat)
      modifies this
      ensures Model() == Create(old(Model())) && f == |old(fibers)|
    {
      f := |fibers|;
      fibers := fibers + [Fiber(false, false, false, [], [], None)];
    }

    method PushValue(s: Sid, v: Item)
      requires Known(Model(), s)
      modifies this
      ensures Model() == Push(old(Model()), s, [v])
    {
      if s.Main? {
        mainStack := mainStack + [v];
      } else {
        fibers := fibers[s.id := fibers[s.id].(stack := fibers[s.id].stack + [v])];
      }
    }

    /** `luvL_state_xcopy`: copy the values `vs` of one state onto the stack of another, one by one. */
    method XCopy(vs: seq<Item>, s: Sid)
      requires Known(Model(), s)
      modifies this
      ensures Model() == Push(old(Model()), s, vs)
    {
      var i := 0;
      PushNothing(Model(), s);
      while i < |vs|
        invariant i <= |vs| && Known(Model(), s)
        invariant Model() == Push(old(Model()), s, vs[..i])
      {
        PushOneMore(old(Model()), s, vs, i);
        PushValue(s, vs[i]);
        i := i + 1;
      }
      assert vs[..i] == vs;
    }

    /** `luv_fiber_join`, up to the point where the running state is suspended. */
    method FiberJoin(f: nat)
      requires f < |fibers| && Known(Model(), curr)
      modifies this
      ensures Model() == Join(old(Model()), f)
    {
      if curr == Fib(f) {
        phase := Aborted;
      } else if fibers[f].dead {
        XCopy(fibers[f].stack, curr);
      } else {
        var wasMain := curr.Main?;
        InsertTail(OnJoin(f));
        FiberReady(f);
        Suspend();
        if wasMain { copyFrom := Some(f); }
      }
    }

    /** A fiber returns `vs`: wake the joiners one after another, then close it. */
    method FiberExit(vs: seq<Item>)
      requires curr.Fib? && Known(Model(), curr) && ListKnown(Model(), OnJoin(curr.id))
      modifies this
      ensures Model() == Exit(old(Model()), vs)
    {
      var f := curr.id;
      ReplaceStack(curr, vs);
      ghost var st := Model();
      assert ListAt(st, OnJoin(f)) == old(ListAt(Model(), OnJoin(f)));
      while fibers[f].joiners != []
        invariant f < |fibers| && ListKnown(Model(), OnJoin(f)) && curr == Fib(f)
        invariant WakeJoiners(Model(), f, vs) == WakeJoiners(st, f, vs)
        decreases |fibers[f].joiners|
      {
        RouseLists(Model(), OnJoin(f));
        var s := RouseHead(OnJoin(f));
        ghost var t := Model();
        if s.Fib? { XCopy(vs, s); }
        assert ListAt(Model(), OnJoin(f)) == ListAt(t, OnJoin(f));
      }
      fibers := fibers[f := fibers[f].(dead := true)];
      curr := Main;
    }

    method FiberYield()
      requires curr.Fib? && Known(Model(), curr)
      modifies this
      ensures Model() == Yield(old(Model()))
    {
      var f := curr.id;
      curr := Main;
      if fibers[f].ready { queue := queue + [f]; }
    }

    /** One call made by Lua code. */
    method Do(op: Op)
      requires Enabled(Model(), op) && (LuaCall(op) || op.DoCreate? || op.DoExit? || op.DoRaise?)
      modifies this
      ensures Model() == Step(old(Model()), op)
    {
      match op
      case DoCreate => var _ := FiberCreate();
      case DoNewCond => conds := conds + [[]];
      case DoReady(f) => FiberReady(f);
      case DoJoin(f) => FiberJoin(f);
      case DoWait(c) => CondWait(c);
      case DoSleep => Sleep();
      case DoSignal(c) => var _ := CondSignal(c);
      case DoBroadcast(c) => var _ := CondBroadcast(c);
      case DoYield => FiberYield();
      case DoExit(vs) => FiberExit(vs);
      case DoRaise =>
        fibers := fibers[curr.id := fibers[curr.id].(dead := true)];
        curr := Main;
        phase := Aborted;
    }

    /** The first half of `luvL_thread_once`, up to `lua_resume`. */
    method Dispatch()
      requires Enabled(Model(), DoTurn) && queue != []
      modifies this
      ensures Model() == Turn(old(Model()))
    {
      var f := queue[0];
      queue := queue[1..];
      if fibers[f].dead {
        phase := Aborted;
      } else {
        fibers := fibers[f := fibers[f].(started := true)];
        curr := Fib(f);
      }
    }

    /** The scheduler is in its loop, no fiber is running. */
    predicate AtRest(progs: seq<Prog>)
      reads this
    {
      |progs| == |fibers| && Ranged(Model()) && phase.Looping? && curr.Main?
    }

    predicate Stopped(progs: seq<Prog>)
      reads this
    {
      |progs| == |fibers| && Ranged(Model()) && phase.Aborted?
    }

    /** A running fiber takes one step of its program; `rest` is what all fibers have then still to do. */
    method Advance(progs: seq<Prog>) returns (rest: seq<Prog>, ghost op: Op, ghost born: seq<Prog>)
      requires |progs| == |fibers| && Ranged(Model()) && phase.Looping? && curr.Fib?
      modifies this
      ensures |rest| == |fibers| && Ranged(Model()) && InLoop([op])
      ensures Runs(old(Model()), [op]) && Model() == Exec(old(Model()), [op])
      ensures progs <= born && Behaves(old(Model()), [op], born, rest)
      ensures phase.Aborted? || (phase.Looping? && Work(rest) < Work(progs) && Normal(old(Model()), [op], born, rest))
    {
      RangedIsShaped(Model());
      var f := curr.id;
      var next := NextOp(Model(), progs[f]);
      op, born := next, progs;
      StepRanged(Model(), op, Step(Model(), op));
      FiberControl(Model(), op, Step(Model(), op));
      OneStep(Model(), op, f);
      if op.DoRaise? {
        StuckStep(Model(), progs, f);
      } else {
        born := Started(progs, f);
        NormalStep(Model(), op, progs, f);
      }
      if !progs[f].Finished? { RestIsLess(progs, f); }
      rest := Rest(progs, f);
      Do(next);
    }

    /** `luvL_thread_once`: resume the first fiber of the queue, if any, until it yields, suspends,
        returns or fails. */
    method ThreadOnce(progs: seq<Prog>)
      returns (more: bool, rest: seq<Prog>, ghost ops: seq<Op>, ghost born: seq<Prog>)
      requires AtRest(progs)
      modifies this
      ensures AtRest(rest) || Stopped(rest)
      ensures Runs(old(Model()), ops) && Model() == Exec(old(Model()), ops) && InLoop(ops)
      ensures progs <= born && Behaves(old(Model()), ops, born, rest)
      ensures AtRest(rest) ==> Normal(old(Model()), ops, born, rest)
      ensures old(queue) != [] && AtRest(rest) ==> Work(rest) < Work(progs)
      ensures more == (AtRest(rest) && queue != [])
      ensures old(queue) == [] ==> ops == [] && rest == progs
      ensures old(queue) != [] ==> ops != [] && ops[0] == DoTurn
    {
      ops, rest, born := [], progs, progs;
      NormalNone(Model(), progs);
      if queue != [] {
        RangedIsShaped(Model());
        StepRanged(Model(), DoTurn, Step(Model(), DoTurn));
        ghost var st := Model();
        NormalLoop(st, DoTurn, progs);
        OneStep(st, DoTurn, 0);
        Dispatch();
        ops := [DoTurn];
        while phase.Looping? && curr.Fib?
          invariant |rest| == |fibers| && Ranged(Model()) && (phase.Looping? || phase.Aborted?)
          invariant Runs(st, ops) && Model() == Exec(st, ops) && InLoop(ops) && ops != [] && ops[0] == DoTurn
          invariant progs <= born && Behaves(st, ops, born, rest) && (phase.Looping? ==> Normal(st, ops, born, rest))
          invariant phase.Aborted? || Work(rest) < Work(progs) || (curr.Fib? && rest == progs)
          decreases if phase.Aborted? then 0 else 1, Work(rest)
        {
          ghost var sofar, mid, op, new_ := ops, rest, DoTurn, [];
          rest, op, new_ := Advance(rest);
          ExecConcat(st, sofar, [op]);
          BehavesConcat(st, sofar, born, mid, [op], new_, rest);
          ops, born := sofar + [op], AllBorn(born, new_);
        }
      }
      more := phase.Looping? && queue != [];
    }

    /** `luvL_thread_loop`: with finite programs it comes to an end, with no fiber left to run. */
    method ThreadLoop(progs: seq<Prog>) returns (rest: seq<Prog>, ghost ops: seq<Op>, ghost born: seq<Prog>)
      requires AtRest(progs)
      modifies this
      ensures (AtRest(rest) && queue == []) || Stopped(rest)
      ensures Runs(old(Model()), ops) && Model() == Exec(old(Model()), ops) && InLoop(ops)
      ensures progs <= born && Behaves(old(Model()), ops, born, rest)
      ensures AtRest(rest) ==> Normal(old(Model()), ops, born, rest)
    {
      ops, rest, born := [], progs, progs;
      NormalNone(Model(), progs);
      var more := true;
      while more
        invariant AtRest(rest) || Stopped(rest)
        invariant Runs(old(Model()), ops) && Model() == Exec(old(Model()), ops) && InLoop(ops)
        invariant progs <= born && Behaves(old(Model()), ops, born, rest)
        invariant AtRest(rest) ==> Normal(old(Model()), ops, born, rest)
        invariant !more ==> (AtRest(rest) && queue == []) || Stopped(rest)
        invariant more ==> AtRest(rest)
        decreases more, Work(rest)
      {
        ghost var sofar, mid, turn, new_ := ops, rest, [], [];
        more, rest, turn, new_ := ThreadOnce(rest);
        ExecConcat(old(Model()), sofar, turn);
        BehavesConcat(old(Model()), sofar, born, mid, turn, new_, rest);
        ops, born := sofar + turn, AllBorn(born, new_);
      }
    }

    /** A callback made by `uv_run_once`. */
    method Callback(op: Op)
      requires Enabled(Model(), op) && (op.Wake? || op.OnSignal? || op.OnTimer?)
      modifies this
      ensures Model() == Step(old(Model()), op)
    {
      match op {
        case Wake(s) =>
          calls := calls - multiset{s};
          StateReady(s);
        case OnSignal(c) => var _ := CondSignal(c);
        case OnTimer(c, status) => TimerCallback(c, status);
      }
    }

    /** `uv_run_once`: it clears the async, makes the callbacks it can, and says whether a handle is
        still active; the async handle is, once it is referenced. */
    method RunOnce(poll: Poll) returns (active: bool)
      requires Ranged(Model()) && phase.Looping? && curr.Main? && queue == []
      modifies this
      ensures |fibers| == |old(fibers)| && Ranged(Model()) && phase.Polling? && curr.Main?
      ensures Enabled(old(Model()), DoTurn)
      ensures var u := Step(old(Model()), DoTurn); Model() == Exec(u, Made(u, poll.callbacks))
      ensures active == (poll.active || asyncRef)
    {
      ghost var st := Model();
      RangedIsShaped(st);
      StepRanged(st, DoTurn, Step(st, DoTurn));
      phase, asyncPending := Polling, false;
      ghost var u := Model();
      var i := 0;
      assert poll.callbacks[0..] == poll.callbacks;
      while i < |poll.callbacks|
        invariant i <= |poll.callbacks| && |fibers| == |old(fibers)| && Ranged(Model()) && phase.Polling? && curr.Main?
        invariant Exec(Model(), Made(Model(), poll.callbacks[i..])) == Exec(u, Made(u, poll.callbacks))
      {
        var op := poll.callbacks[i];
        MadeStep(Model(), poll.callbacks, i);
        RangedIsShaped(Model());
        if IsCallback(op) && Enabled(Model(), op) {
          StepRanged(Model(), op, Step(Model(), op));
          CallbackControl(Model(), op, Step(Model(), op));
          Callback(op);
        }
        i := i + 1;
      }
      active := poll.active || asyncRef;
    }

    /** The end of `luvL_thread_suspend`, and of a join made by the thread. */
    method Return()
      requires phase.Polling?
      modifies this
      ensures Model() == Resume(old(Model()).(mainReady := true))
    {
      mainReady := true;
      phase := Running;
      var from := copyFrom;
      copyFrom := None;
      if from.Some? && from.value < |fibers| { XCopy(fibers[from.value].stack, Main); }
    }

    /** What follows `uv_run_once`: back to the thread's code, or once more round the loop. */
    method Leave(active: bool)
      requires Ranged(Model()) && phase.Polling? && curr.Main? && (asyncRef ==> active)
      modifies this
      ensures Enabled(old(Model()), DoLeave(active)) && Model() == Step(old(Model()), DoLeave(active))
      ensures |fibers| == |old(fibers)| && Ranged(Model()) && curr.Main?
      ensures phase.Looping? || (phase.Running? && mainReady)
    {
      RangedIsShaped(Model());
      LeaveRanged(Model(), active);
      if mainReady || !active {
        Return();
      } else {
        phase := Looping;
      }
    }

    /** One turn of the loop in `luvL_thread_suspend`: run the fibers, then `uv_run_once`. */
    method OneRound(poll: Poll, progs: seq<Prog>) returns (rest: seq<Prog>, ghost r: Round, ghost born: seq<Prog>)
      requires AtRest(progs)
      modifies this
      ensures RoundOf(old(Model()), poll, r)
      ensures Runs(old(Model()), OpsOf(r)) && Model() == Exec(old(Model()), OpsOf(r))
      ensures progs <= born && Behaves(old(Model()), OpsOf(r), born, rest)
      ensures AtRest(rest) || Stopped(rest) || (phase.Running? && mainReady)
      ensures AtRest(rest) ==> Normal(old(Model()), OpsOf(r), born, rest)
    {
      ghost var ops;
      rest, ops, born := ThreadLoop(progs);
      if phase.Aborted? {
        r := Round(ops, [], []);
        assert OpsOf(r) == ops;
        return;
      }
      ghost var u := Model();
      var active := RunOnce(poll);
      Leave(active);
      r := PolledRound(old(Model()), ops, u, poll, born, rest);
    }

    /** `luvL_thread_suspend` once the flag is cleared, for as many calls of `uv_run_once` as `polls`
        describes. At the end the thread goes on with its own Lua code, unless a fiber failed or
        there was no reason yet to stop. */
    method ThreadSuspend(polls: seq<Poll>, progs: seq<Prog>)
      returns (rest: seq<Prog>, ghost rounds: seq<Round>, ghost born: seq<Prog>)
      requires AtRest(progs)
      modifies this
      ensures RoundsOf(old(Model()), polls, rounds) && (|rounds| == |polls| || !phase.Looping?)
      ensures Runs(old(Model()), AllOps(rounds)) && Model() == Exec(old(Model()), AllOps(rounds))
      ensures progs <= born && Behaves(old(Model()), AllOps(rounds), born, rest)
      ensures AtRest(rest) || Stopped(rest) || (phase.Running? && mainReady)
    {
      rounds, rest, born := [], progs, progs;
      NormalNone(Model(), progs);
      var i := 0;
      while i < |polls| && phase.Looping?
        invariant i == |rounds| <= |polls| && (AtRest(rest) || Stopped(rest) || (phase.Running? && mainReady))
        invariant RoundsOf(old(Model()), polls, rounds)
        invariant Runs(old(Model()), AllOps(rounds)) && Model() == Exec(old(Model()), AllOps(rounds))
        invariant progs <= born && Behaves(old(Model()), AllOps(rounds), born, rest)
        invariant phase.Looping? ==> AtRest(rest) && Normal(old(Model()), AllOps(rounds), born, rest)
      {
        ghost var sofar, mid, r, new_ := rounds, rest, Round([], [], []), [];
        rest, r, new_ := OneRound(polls[i], rest);
        RoundsAppend(old(Model()), polls, sofar, r);
        ExecConcat(old(Model()), AllOps(sofar), OpsOf(r));
        BehavesConcat(old(Model()), AllOps(sofar), born, mid, OpsOf(r), new_, rest);
        rounds, born := sofar + [r], AllBorn(born, new_);
        i := i + 1;
      }
    }
  }

  lemma PushNothing(st: State, s: Sid)
    requires Known(st, s)
    ensures Push(st, s, []) == st
  {
    assert st.mainStack + [] == st.mainStack;
    if s.Fib? { assert st.fibers[s.id].stack + [] == st.fibers[s.id].stack; }
  }

  lemma PushOneMore(st: State, s: Sid, vs: seq<Item>, i: nat)
    requires Known(st, s) && i < |vs|
    ensures Push(Push(st, s, vs[..i]), s, [vs[i]]) == Push(st, s, vs[..i + 1])
  {
    assert vs[..i + 1] == vs[..i] + [vs[i]];
    if s.Main? {
      assert (st.mainStack + vs[..i]) + [vs[i]] == st.mainStack + vs[..i + 1];
    } else {
      assert (st.fibers[s.id].stack + vs[..i]) + [vs[i]] == st.fibers[s.id].stack + vs[..i + 1];
    }
  }
}
