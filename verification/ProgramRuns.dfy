/** What a run of the scheduler has to do with the programs of its fibers and with the callbacks that libuv
    makes. */
module ProgramRuns {
  import opened Scheduler
  import opened SchedulerRuns
  import opened Programs

  // What fibers do

  /** What a program cannot ask for as a call: to be the loop or libuv, or what it has other means for. */
  predicate NotACall(op: Op)
  {
    || op.DoCreate? || op.DoExit? || op.DoRaise? || op.DoTurn? || op.DoLeave? || IsCallback(op)
  }

  /** The steps a program asks for. A call that Lua code cannot make is an error. */
  function Script(p: Prog): seq<Op>
  {
    match p
    case Finished => []
    case Return(vs) => [DoExit(vs)]
    case Spawn(_, r) => [DoCreate] + Script(r)
    case Call(op, r) => if NotACall(op) then [DoRaise] else [op] + Script(r)
  }

  /** The programs of the fibers it creates. */
  function Bodies(p: Prog): seq<Prog>
  {
    match p
    case Finished => []
    case Return(_) => []
    case Spawn(b, r) => [b] + Bodies(r)
    case Call(op, r) => if NotACall(op) then [] else Bodies(r)
  }

  /** The steps that fiber `f` takes in a run: those taken while it is the running state. */
  function StepsOf(st: State, ops: seq<Op>, f: nat): seq<Op>
    requires Runs(st, ops)
    decreases |ops|
  {
    if ops == [] then [] else Own(st, ops[0], f) + StepsOf(Step(st, ops[0]), ops[1..], f)
  }

  function Own(st: State, op: Op, f: nat): seq<Op> { if st.curr == Fib(f) then [op] else [] }

  /** The fibers that fiber `f` creates in a run. */
  function ChildrenOf(st: State, ops: seq<Op>, f: nat): seq<nat>
    requires Runs(st, ops)
    decreases |ops|
  {
    if ops == [] then [] else OwnChild(st, ops[0], f) + ChildrenOf(Step(st, ops[0]), ops[1..], f)
  }

  function OwnChild(st: State, op: Op, f: nat): seq<nat>
  {
    if st.curr == Fib(f) && op.DoCreate? then [|st.fibers|] else []
  }

  predicate AllBelow(ids: seq<nat>, n: nat) { forall i :: 0 <= i < |ids| ==> ids[i] < n }

  function Pick(ps: seq<Prog>, ids: seq<nat>): (r: seq<Prog>)
    requires AllBelow(ids, |ps|)
    ensures |r| == |ids|
  {
    seq(|ids|, i requires 0 <= i < |ids| => ps[ids[i]])
  }

  /** Fiber `f`, whose program was `born[f]`, has taken its steps in order, `rest[f]` is what it has still to do,
      and the fibers it has created have their programs from it. */
  predicate Kept(st: State, ops: seq<Op>, born: seq<Prog>, rest: seq<Prog>, f: nat)
    requires Runs(st, ops) && f < |born| == |rest|
  {
    && StepsOf(st, ops, f) + Script(rest[f]) == Script(born[f])
    && AllBelow(ChildrenOf(st, ops, f), |born|)
    && Pick(born, ChildrenOf(st, ops, f)) + Bodies(rest[f]) == Bodies(born[f])
  }

  predicate Normal(st: State, ops: seq<Op>, born: seq<Prog>, rest: seq<Prog>)
    requires Runs(st, ops)
  {
    |born| == |rest| == |Exec(st, ops).fibers| && forall f :: 0 <= f < |born| ==> Kept(st, ops, born, rest, f)
  }

  /** The running fiber has nothing left to do, or cannot do what comes next. */
  predicate Stuck(st: State, rest: seq<Prog>)
  {
    && st.curr.Fib? && st.curr.id < |rest|
    && var s := Script(rest[st.curr.id]); s == [] || s[0].DoRaise? || !Enabled(st, s[0])
  }

  /** The run ends in an error that a fiber could not avoid, and went as it should up to then. */
  ghost predicate Broken(st: State, ops: seq<Op>, born: seq<Prog>)
    requires Runs(st, ops)
  {
    ops != [] && ops[|ops| - 1].DoRaise? && StuckAfter(st, ops[..|ops| - 1], born)
  }

  ghost predicate StuckAfter(st: State, ops: seq<Op>, born: seq<Prog>)
  {
    Runs(st, ops) && exists rest :: NormalUntil(st, ops, born, rest)
  }

  predicate NormalUntil(st: State, ops: seq<Op>, born: seq<Prog>, rest: seq<Prog>)
    requires Runs(st, ops)
  {
    Normal(st, ops, born, rest) && Stuck(Exec(st, ops), rest)
  }

  /** All fibers keep to their programs. */
  ghost predicate Behaves(st: State, ops: seq<Op>, born: seq<Prog>, rest: seq<Prog>)
    requires Runs(st, ops)
  {
    Normal(st, ops, born, rest) || Broken(st, ops, born)
  }

  // One run after another

  lemma {:induction false} StepsConcat(st: State, a: seq<Op>, b: seq<Op>, f: nat)
    requires Runs(st, a) && Runs(Exec(st, a), b)
    ensures Runs(st, a + b) && StepsOf(st, a + b, f) == StepsOf(st, a, f) + StepsOf(Exec(st, a), b, f)
    ensures ChildrenOf(st, a + b, f) == ChildrenOf(st, a, f) + ChildrenOf(Exec(st, a), b, f)
    decreases |a|
  {
    if a == [] {
      assert [] + b == b;
    } else {
      var t := Step(st, a[0]);
      assert (a + b)[0] == a[0] && (a + b)[1..] == a[1..] + b;
      StepsConcat(t, a[1..], b, f);
      StepsCons(st, a, f);
      StepsCons(st, a + b, f);
      assert Exec(st, a) == Exec(t, a[1..]);
      Assoc(Own(st, a[0], f), StepsOf(t, a[1..], f), StepsOf(Exec(st, a), b, f));
      Assoc(OwnChild(st, a[0], f), ChildrenOf(t, a[1..], f), ChildrenOf(Exec(st, a), b, f));
    }
  }

  lemma StepsCons(st: State, ops: seq<Op>, f: nat)
    requires Runs(st, ops) && ops != []
    ensures StepsOf(st, ops, f) == Own(st, ops[0], f) + StepsOf(Step(st, ops[0]), ops[1..], f)
    ensures ChildrenOf(st, ops, f) == OwnChild(st, ops[0], f) + ChildrenOf(Step(st, ops[0]), ops[1..], f)
  {
  }

  lemma Assoc<T>(a: seq<T>, b: seq<T>, c: seq<T>)
    ensures (a + b) + c == a + (b + c)
  {
  }

  /** A run of one step. */
  lemma OneStep(st: State, op: Op, f: nat)
    requires Enabled(st, op)
    ensures Runs(st, [op]) && Exec(st, [op]) == Step(st, op)
    ensures StepsOf(st, [op], f) == Own(st, op, f) && ChildrenOf(st, [op], f) == OwnChild(st, op, f)
  {
    var ops, t := [op], Step(st, op);
    assert ops[1..] == [] && Runs(t, []) && Exec(t, []) == t;
    StepsCons(st, ops, f);
    assert StepsOf(t, [], f) == [] && ChildrenOf(t, [], f) == [];
    assert Own(st, op, f) + [] == Own(st, op, f) && OwnChild(st, op, f) + [] == OwnChild(st, op, f);
  }

  lemma {:induction false} FibersGrow(st: State, ops: seq<Op>)
    requires Runs(st, ops)
    ensures |st.fibers| <= |Exec(st, ops).fibers|
    decreases |ops|
  {
    if ops != [] {
      StepRanged(st, ops[0], Step(st, ops[0]));
      FibersGrow(Step(st, ops[0]), ops[1..]);
    }
  }

  /** Who is not there yet does nothing. */
  lemma {:induction false} Unborn(st: State, ops: seq<Op>, f: nat)
    requires Runs(st, ops) && |Exec(st, ops).fibers| <= f
    ensures StepsOf(st, ops, f) == [] && ChildrenOf(st, ops, f) == []
    decreases |ops|
  {
    FibersGrow(st, ops);
    if ops != [] { Unborn(Step(st, ops[0]), ops[1..], f); }
  }

  /** What the fibers of a run create was not there before. */
  lemma {:induction false} ChildrenNew(st: State, ops: seq<Op>, f: nat)
    requires Runs(st, ops)
    ensures forall i :: 0 <= i < |ChildrenOf(st, ops, f)| ==> |st.fibers| <= ChildrenOf(st, ops, f)[i]
    decreases |ops|
  {
    if ops != [] {
      StepRanged(st, ops[0], Step(st, ops[0]));
      ChildrenNew(Step(st, ops[0]), ops[1..], f);
    }
  }

  lemma PickConcat(ps: seq<Prog>, a: seq<nat>, b: seq<nat>)
    requires AllBelow(a, |ps|) && AllBelow(b, |ps|)
    ensures AllBelow(a + b, |ps|) && Pick(ps, a + b) == Pick(ps, a) + Pick(ps, b)
  {
  }

  lemma PickEarlier(all: seq<Prog>, born: seq<Prog>, ids: seq<nat>)
    requires born <= all && AllBelow(ids, |born|)
    ensures AllBelow(ids, |all|) && Pick(all, ids) == Pick(born, ids)
  {
  }

  lemma PickLater(all: seq<Prog>, more: seq<Prog>, ids: seq<nat>, n: nat)
    requires |all| == |more| && n <= |all| && all[n..] == more[n..] && AllBelow(ids, |all|)
    requires forall i :: 0 <= i < |ids| ==> n <= ids[i]
    ensures Pick(all, ids) == Pick(more, ids)
  {
    forall i | 0 <= i < |ids| ensures all[ids[i]] == more[ids[i]] {
      assert all[n..][ids[i] - n] == more[n..][ids[i] - n];
    }
  }

  /** The programs of all fibers, if those of the first run were `born` and `more` come in the second. */
  function AllBorn(born: seq<Prog>, more: seq<Prog>): seq<Prog>
    requires |born| <= |more|
  {
    born + more[|born|..]
  }

  lemma {:induction false} KeptConcat(st: State, a: seq<Op>, born: seq<Prog>, mid: seq<Prog>, b: seq<Op>,
                                      more: seq<Prog>, rest: seq<Prog>, f: nat)
    requires Runs(st, a) && Runs(Exec(st, a), b) && Normal(st, a, born, mid)
    requires |mid| <= |more| == |rest| && mid <= more && f < |rest| && Kept(Exec(st, a), b, more, rest, f)
    ensures Runs(st, a + b) && Kept(st, a + b, AllBorn(born, more), rest, f)
  {
    var u, all := Exec(st, a), AllBorn(born, more);
    StepsConcat(st, a, b, f);
    ChildrenNew(u, b, f);
    var x, y := ChildrenOf(st, a, f), ChildrenOf(u, b, f);
    PickLater(all, more, y, |born|);
    if f < |mid| {
      assert Kept(st, a, born, mid, f);
      PickEarlier(all, born, x);
      PickConcat(all, x, y);
      Joined(StepsOf(st, a, f), StepsOf(u, b, f), Script(rest[f]), Script(mid[f]), Script(born[f]));
      Joined(Pick(all, x), Pick(all, y), Bodies(rest[f]), Bodies(mid[f]), Bodies(born[f]));
    } else {
      Unborn(st, a, f);
      assert [] + StepsOf(u, b, f) == StepsOf(u, b, f) && [] + y == y;
    }
  }

  lemma Joined<T>(a: seq<T>, b: seq<T>, c: seq<T>, m: seq<T>, all: seq<T>)
    requires b + c == m && a + m == all
    ensures (a + b) + c == all
  {
  }

  lemma NormalConcat(st: State, a: seq<Op>, born: seq<Prog>, mid: seq<Prog>, b: seq<Op>, more: seq<Prog>,
                     rest: seq<Prog>)
    requires Runs(st, a) && Runs(Exec(st, a), b) && Normal(st, a, born, mid) && mid <= more
    requires Normal(Exec(st, a), b, more, rest)
    ensures Runs(st, a + b) && Normal(st, a + b, AllBorn(born, more), rest)
  {
    ExecConcat(st, a, b);
    forall f | 0 <= f < |rest| ensures Kept(st, a + b, AllBorn(born, more), rest, f) {
      KeptConcat(st, a, born, mid, b, more, rest, f);
    }
  }

  /** A run in which fibers keep to their programs, and then another. */
  lemma BehavesConcat(st: State, a: seq<Op>, born: seq<Prog>, mid: seq<Prog>, b: seq<Op>, more: seq<Prog>,
                      rest: seq<Prog>)
    requires Runs(st, a) && Runs(Exec(st, a), b) && Normal(st, a, born, mid) && mid <= more
    requires Behaves(Exec(st, a), b, more, rest)
    ensures Runs(st, a + b) && Behaves(st, a + b, AllBorn(born, more), rest)
    ensures Normal(Exec(st, a), b, more, rest) ==> Normal(st, a + b, AllBorn(born, more), rest)
  {
    ExecConcat(st, a, b);
    if Normal(Exec(st, a), b, more, rest) {
      NormalConcat(st, a, born, mid, b, more, rest);
    } else {
      var u, c := Exec(st, a), b[..|b| - 1];
      var last :| NormalUntil(u, c, more, last);
      NormalConcat(st, a, born, mid, c, more, last);
      ExecConcat(st, a, c);
      assert NormalUntil(st, a + c, AllBorn(born, more), last);
      assert (a + b)[..|a + b| - 1] == a + c && (a + b)[|a + b| - 1] == b[|b| - 1];
    }
  }

  lemma NormalNone(st: State, ps: seq<Prog>)
    requires |ps| == |st.fibers|
    ensures Runs(st, []) && Normal(st, [], ps, ps)
  {
    forall f | 0 <= f < |ps| ensures Kept(st, [], ps, ps, f) {
      assert [] + Script(ps[f]) == Script(ps[f]) && [] + Bodies(ps[f]) == Bodies(ps[f]);
      assert Pick(ps, []) == [];
    }
  }

  /** A step that no fiber takes. */
  lemma NormalLoop(st: State, op: Op, ps: seq<Prog>)
    requires |ps| == |st.fibers| && Enabled(st, op) && st.curr.Main? && |Step(st, op).fibers| == |st.fibers|
    ensures Runs(st, [op]) && Normal(st, [op], ps, ps)
  {
    NormalNone(st, ps);
    OneStep(st, op, 0);
    forall f | 0 <= f < |ps| ensures Kept(st, [op], ps, ps, f) {
      assert Kept(st, [], ps, ps, f);
      OneStep(st, op, f);
    }
  }

  /** One step of the running fiber's program. */
  lemma NormalStep(st: State, op: Op, ps: seq<Prog>, f: nat)
    requires |ps| == |st.fibers| && f < |ps| && st.curr == Fib(f) && Enabled(st, op)
    requires op == NextOp(st, ps[f]) && !op.DoRaise?
    ensures Runs(st, [op]) && ps <= Started(ps, f) && Normal(st, [op], Started(ps, f), Rest(ps, f))
  {
    var born, rest := Started(ps, f), Rest(ps, f);
    OneStep(st, op, f);
    StepRanged(st, op, Step(st, op));
    forall g | 0 <= g < |born| ensures Kept(st, [op], born, rest, g) {
      OneStep(st, op, g);
      if g == f {
        StepKept(st, op, ps, f);
      } else {
        NothingKept(st, op, born, rest, g);
      }
    }
  }

  /** The running fiber has done what its program asks for next. */
  lemma StepKept(st: State, op: Op, ps: seq<Prog>, f: nat)
    requires |ps| == |st.fibers| && f < |ps| && st.curr == Fib(f) && Enabled(st, op) && Runs(st, [op])
    requires op == NextOp(st, ps[f]) && !op.DoRaise?
    requires StepsOf(st, [op], f) == Own(st, op, f) && ChildrenOf(st, [op], f) == OwnChild(st, op, f)
    ensures Kept(st, [op], Started(ps, f), Rest(ps, f), f)
  {
    var p, q := ps[f], Rest(ps, f)[f];
    assert Script(p) == [op] + Script(q);
    if p.Spawn? {
      assert Pick(Started(ps, f), [|ps|]) == [p.body];
      assert Bodies(p) == [p.body] + Bodies(q);
    } else {
      assert Pick(Started(ps, f), []) == [];
      assert Bodies(p) == Bodies(q) == [] + Bodies(q);
    }
  }

  /** A fiber that is not running has done nothing. */
  lemma NothingKept(st: State, op: Op, born: seq<Prog>, rest: seq<Prog>, g: nat)
    requires g < |born| == |rest| && born[g] == rest[g] && Runs(st, [op])
    requires StepsOf(st, [op], g) == [] && ChildrenOf(st, [op], g) == []
    ensures Kept(st, [op], born, rest, g)
  {
    assert Pick(born, []) == [];
  }

  /** The programs there are after a step of fiber `f`, as they were when each fiber was created. */
  function Started(ps: seq<Prog>, f: nat): seq<Prog>
    requires f < |ps|
  {
    if ps[f].Spawn? then ps + [ps[f].body] else ps
  }

  lemma StuckStep(st: State, ps: seq<Prog>, f: nat)
    requires |ps| == |st.fibers| && f < |ps| && st.curr == Fib(f) && Enabled(st, DoRaise)
    requires NextOp(st, ps[f]).DoRaise?
    ensures Runs(st, [DoRaise]) && Broken(st, [DoRaise], ps)
  {
    NormalNone(st, ps);
    OneStep(st, DoRaise, f);
    assert [DoRaise][..0] == [];
    assert NormalUntil(st, [], ps, ps);
  }

  // What libuv does

  /** What one call of `uv_run_once` does: the callbacks it makes, and whether a handle other than the
      async one stays active. */
  datatype Poll = Poll(callbacks: seq<Op>, active: bool)

  /** Callbacks that libuv makes while it polls. */
  predicate IsCallback(op: Op) { op.Wake? || op.OnSignal? || op.OnTimer? }

  /** Of the callbacks that are due to come, in order, those that can be made when their turn comes. */
  function Made(st: State, callbacks: seq<Op>): (ops: seq<Op>)
    ensures Runs(st, ops)
    decreases |callbacks|
  {
    if callbacks == [] then []
    else if IsCallback(callbacks[0]) && Enabled(st, callbacks[0])
    then [callbacks[0]] + Made(Step(st, callbacks[0]), callbacks[1..])
    else Made(st, callbacks[1..])
  }

  lemma {:induction false} MadeNormal(st: State, callbacks: seq<Op>, ps: seq<Prog>)
    requires |ps| == |st.fibers| && st.phase.Polling? && st.curr.Main?
    ensures var ops := Made(st, callbacks);
            && Normal(st, ops, ps, ps) && Exec(st, ops).phase.Polling? && Exec(st, ops).curr.Main?
    decreases |callbacks|
  {
    if callbacks == [] {
      NormalNone(st, ps);
    } else if IsCallback(callbacks[0]) && Enabled(st, callbacks[0]) {
      var op := callbacks[0];
      StepRanged(st, op, Step(st, op));
      CallbackControl(st, op, Step(st, op));
      NormalLoop(st, op, ps);
      OneStep(st, op, 0);
      MadeNormal(Step(st, op), callbacks[1..], ps);
      ConsNormal(st, [op], Made(Step(st, op), callbacks[1..]), ps);
    } else {
      MadeNormal(st, callbacks[1..], ps);
    }
  }

  /** Steps that no fiber takes, one after another. */
  lemma ConsNormal(st: State, a: seq<Op>, b: seq<Op>, ps: seq<Prog>)
    requires Runs(st, a) && Normal(st, a, ps, ps) && Runs(Exec(st, a), b) && Normal(Exec(st, a), b, ps, ps)
    ensures Runs(st, a + b) && Exec(st, a + b) == Exec(Exec(st, a), b) && Normal(st, a + b, ps, ps)
  {
    ExecConcat(st, a, b);
    NormalConcat(st, a, ps, ps, b, ps, ps);
    assert AllBorn(ps, ps) == ps;
  }

  /** One turn of the loop in `luvL_thread_suspend`: the fibers run, then `uv_run_once`, then what follows it. */
  datatype Round = Round(loop: seq<Op>, calls: seq<Op>, leave: seq<Op>)

  function OpsOf(r: Round): seq<Op> { r.loop + r.calls + r.leave }

  predicate InLoop(ops: seq<Op>) { forall i :: 0 <= i < |ops| ==> !IsCallback(ops[i]) && !ops[i].DoLeave? }

  /** The round is that of `poll`: when no fiber is left to run, exactly the callbacks of the poll are made that can be,
      in order, and then the thread goes on or not, as the handles say. */
  predicate RoundOf(st: State, poll: Poll, r: Round)
  {
    && Runs(st, r.loop) && InLoop(r.loop)
    && var u := Exec(st, r.loop);
       if u.phase.Aborted? then r.calls == [] && r.leave == []
       else
         && u.queue == [] && Enabled(u, DoTurn)
         && var v := Step(u, DoTurn);
            && r.calls == [DoTurn] + Made(v, poll.callbacks)
            && r.leave == [DoLeave(poll.active || Exec(v, Made(v, poll.callbacks)).asyncRef)]
  }

  function AllOps(rs: seq<Round>): seq<Op>
  {
    if rs == [] then [] else AllOps(rs[..|rs| - 1]) + OpsOf(rs[|rs| - 1])
  }

  /** The rounds are those of the polls, in order. */
  predicate RoundsOf(st: State, polls: seq<Poll>, rs: seq<Round>)
    decreases |rs|
  {
    rs != [] ==>
      && |rs| <= |polls| && RoundsOf(st, polls, rs[..|rs| - 1]) && Runs(st, AllOps(rs[..|rs| - 1]))
      && RoundOf(Exec(st, AllOps(rs[..|rs| - 1])), polls[|rs| - 1], rs[|rs| - 1])
  }

  lemma RoundsAppend(st: State, polls: seq<Poll>, rs: seq<Round>, r: Round)
    requires |rs| < |polls| && RoundsOf(st, polls, rs) && Runs(st, AllOps(rs))
    requires RoundOf(Exec(st, AllOps(rs)), polls[|rs|], r)
    ensures RoundsOf(st, polls, rs + [r]) && AllOps(rs + [r]) == AllOps(rs) + OpsOf(r)
  {
    var all := rs + [r];
    assert all[..|all| - 1] == rs && all[|all| - 1] == r;
    RoundsLast(st, polls, all, rs, r, polls[|rs|], AllOps(rs), Exec(st, AllOps(rs)));
  }

  lemma RoundsLast(st: State, polls: seq<Poll>, all: seq<Round>, rs: seq<Round>, r: Round, poll: Poll, ops: seq<Op>,
                   u: State)
    requires 0 < |all| <= |polls| && all[..|all| - 1] == rs && all[|all| - 1] == r && polls[|all| - 1] == poll
    requires RoundsOf(st, polls, rs) && ops == AllOps(rs) && Runs(st, ops) && u == Exec(st, ops) && RoundOf(u, poll, r)
    ensures RoundsOf(st, polls, all) && AllOps(all) == ops + OpsOf(r)
  {
  }

  lemma MadeStep(st: State, callbacks: seq<Op>, i: nat)
    requires i < |callbacks|
    ensures var op := callbacks[i];
            Made(st, callbacks[i..])
            == if IsCallback(op) && Enabled(st, op) then [op] + Made(Step(st, op), callbacks[i + 1..])
               else Made(st, callbacks[i + 1..])
    ensures var op, rest := callbacks[i], callbacks[i + 1..];
            Exec(st, Made(st, callbacks[i..]))
            == if IsCallback(op) && Enabled(st, op) then Exec(Step(st, op), Made(Step(st, op), rest))
               else Exec(st, Made(st, rest))
  {
    var op, rest := callbacks[i], callbacks[i + 1..];
    assert callbacks[i..][0] == op && callbacks[i..][1..] == rest;
    if IsCallback(op) && Enabled(st, op) {
      var ops := [op] + Made(Step(st, op), rest);
      assert ops[0] == op && ops[1..] == Made(Step(st, op), rest);
    }
  }

  /** A round in which no fiber failed. */
  lemma PolledRound(st: State, loop: seq<Op>, u: State, poll: Poll, born: seq<Prog>, ps: seq<Prog>) returns (r: Round)
    requires Runs(st, loop) && InLoop(loop) && u == Exec(st, loop) && Normal(st, loop, born, ps)
    requires u.phase.Looping? && u.queue == [] && Enabled(u, DoTurn)
    requires var v := Step(u, DoTurn);
             var w := Exec(v, Made(v, poll.callbacks)); Enabled(w, DoLeave(poll.active || w.asyncRef))
    ensures RoundOf(st, poll, r) && r.loop == loop && Runs(st, OpsOf(r)) && Normal(st, OpsOf(r), born, ps)
    ensures var v := Step(u, DoTurn);
            var w := Exec(v, Made(v, poll.callbacks));
            Exec(st, OpsOf(r)) == Step(w, DoLeave(poll.active || w.asyncRef))
  {
    var v := Step(u, DoTurn);
    var cs := Made(v, poll.callbacks);
    var w := Exec(v, cs);
    var leave := DoLeave(poll.active || w.asyncRef);
    NormalLoop(u, DoTurn, ps);
    OneStep(u, DoTurn, 0);
    MadeNormal(v, poll.callbacks, ps);
    ConsNormal(u, [DoTurn], cs, ps);
    StepRanged(w, leave, Step(w, leave));
    NormalLoop(w, leave, ps);
    OneStep(w, leave, 0);
    ConsNormal(u, [DoTurn] + cs, [leave], ps);
    r := Round(loop, [DoTurn] + cs, [leave]);
    Assoc(loop, [DoTurn] + cs, [leave]);
    ExecConcat(st, loop, [DoTurn] + cs + [leave]);
    NormalConcat(st, loop, born, ps, [DoTurn] + cs + [leave], ps, ps);
    assert AllBorn(born, ps) == born;
  }
}
