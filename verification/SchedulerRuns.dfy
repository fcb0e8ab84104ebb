/** Safety over whole runs of the scheduler. */
module SchedulerRuns {
  import opened Options
  import opened Scheduler
  import opened SchedulerInv
  import opened SchedulerSteps

  /** What callers must see to: a fiber that is made ready or joined is on no list, a state that parks
      itself is not on a list already, no callback that a state registered earlier comes while it is
      on a list, no fiber joins itself, and no fiber ends in an error. A fiber that waits for a callback
      of its own may be made ready or joined. */
  predicate Allowed(st: State, op: Op)
    requires Enabled(st, op)
  {
    match op
    case DoReady(f) => NotParked(st, Fib(f))
    case DoJoin(f) => st.curr != Fib(f) && (st.fibers[f].dead || (NotParked(st, Fib(f)) && NotParked(st, st.curr)))
    case DoWait(_) => NotParked(st, st.curr)
    case Wake(s) => NotParked(st, s)
    case DoRaise => false
    case _ => true
  }

  lemma StepKeeps(st: State, op: Op)
    requires Inv(st) && Enabled(st, op) && Allowed(st, op)
    ensures Inv(Step(st, op))
  {
    match op
    case DoCreate => CreateInv(st);
    case DoNewCond => NewCondInv(st);
    case DoReady(f) => FiberReadyInv(st, f);
    case DoJoin(f) =>
      if st.fibers[f].dead { StacksInv(st, Join(st, f), None); } else { JoinInv(st, f); }
    case DoWait(c) => ParkInv(st, OnCond(c));
    case DoSleep => SleepInv(st);
    case DoSignal(c) => if st.conds[c] != [] { RouseInv(st, OnCond(c), None); }
    case DoBroadcast(c) => BroadcastInv(st, c);
    case DoYield => YieldInv(st);
    case DoExit(vs) => ExitInv(st, vs);
    case DoRaise =>
    case DoTurn => TurnInv(st);
    case Wake(s) => CallInv(st, s);
    case OnSignal(c) => if st.conds[c] != [] { RouseInv(st, OnCond(c), None); }
    case OnTimer(c, status) => FireInv(st, c, status);
    case DoLeave(active) => LeaveInv(st, active);
  }

  /** The condition is exact. A state on a list that is made ready, by a call, a join or a callback due
      from earlier, is both ready and on the list; a state parked again is on two lists, or twice on
      one. */
  lemma StepKeepsExactly(st: State, op: Op)
    requires Inv(st) && Enabled(st, op)
    ensures Inv(Step(st, op)) <==> Allowed(st, op)
  {
    if Allowed(st, op) {
      StepKeeps(st, op);
    } else {
      match op
      case DoReady(f) => ReadyParkedBreaks(st, f);
      case DoJoin(f) => JoinParkedBreaks(st, f);
      case DoWait(c) => ParkAgainBreaks(st, OnCond(c));
      case Wake(s) => CallParkedBreaks(st, s);
      case _ =>
    }
  }

  /** The failing family of late callbacks: the state goes on while it is still on a list. */
  lemma CallParkedBreaks(st: State, s: Sid)
    requires Inv(st) && st.phase.Polling? && Known(st, s) && !NotParked(st, s)
    ensures var t := Call(st, s);
            && !Inv(t) && PlaceKnown(t, At(st, s).value) && s in ListAt(t, At(st, s).value)
            && (s.Fib? ==> s.id < |t.fibers| && t.fibers[s.id].ready && s.id in t.queue)
            && (s.Main? ==> t.mainReady)
  {
    var t, p := Call(st, s), At(st, s).value;
    if s.Fib? {
      assert FiberOk(st, s.id);
      assert !FiberOk(t, s.id);
    }
    assert ListOk(st, p) && ListAt(t, p) == ListAt(st, p);
  }

  lemma ReadyParkedBreaks(st: State, f: nat)
    requires Inv(st) && f < |st.fibers| && !NotParked(st, Fib(f))
    ensures !Inv(FiberReady(st, f))
  {
    assert FiberOk(st, f);
    assert !FiberOk(FiberReady(st, f), f);
  }

  lemma RunningFiber(st: State)
    requires Inv(st) && st.curr.Fib?
    ensures NotParked(st, st.curr)
  {
    assert FiberOk(st, st.curr.id);
  }

  /** Only the thread can be running while still on a list. */
  lemma ParkAgainBreaks(st: State, p: Place)
    requires Inv(st) && InLua(st) && PlaceKnown(st, p) && !NotParked(st, st.curr)
    ensures !Inv(Park(st, p))
  {
    if st.curr.Fib? {
      RunningFiber(st);
    } else {
      var q := st.mainAt.value;
      assert ListOk(st, q) && Main in ListAt(st, q);
      ParkPlaces(st, p);
      StaleList(st, Park(st, p), p, q);
    }
  }

  /** The thread cannot be on the list at `q` and be parked at `p` a second time. */
  lemma StaleList(st: State, t: State, p: Place, q: Place)
    requires PlaceKnown(st, p) && PlaceKnown(st, q) && Main in ListAt(st, q)
    requires |t.fibers| == |st.fibers| && |t.conds| == |st.conds| && OtherLists(st, t, p) && t.mainAt == Some(p)
    requires ListAt(t, p) == ListAt(st, p) + [Main]
    ensures !Inv(t)
  {
    if p == q {
      var i :| 0 <= i < |ListAt(st, q)| && ListAt(st, q)[i] == Main;
      assert ListAt(t, q)[i] == ListAt(t, q)[|ListAt(st, q)|];
      assert !NoDup(ListAt(t, q));
    } else {
      assert Main in ListAt(t, q) && At(t, Main) != Some(q);
    }
    assert !ListOk(t, q);
  }

  lemma JoinParkedBreaks(st: State, f: nat)
    requires Inv(st) && InLua(st) && f < |st.fibers|
    requires st.curr == Fib(f) || (!st.fibers[f].dead && (!NotParked(st, Fib(f)) || !NotParked(st, st.curr)))
    ensures !Inv(Join(st, f))
  {
    if st.curr != Fib(f) {
      JoinIsPark(st, f);
      if !NotParked(st, Fib(f)) {
        JoinListedBreaks(st, f);
      } else if st.curr.Fib? {
        RunningFiber(st);
      } else {
        JoinAgainBreaks(st, f);
      }
    }
  }

  /** What a join does to its target. */
  lemma JoinTarget(st: State, f: nat, t: State)
    requires f < |st.fibers| && Known(st, st.curr) && st.curr != Fib(f) && !st.fibers[f].dead && t == Join(st, f)
    ensures f < |t.fibers| && t.fibers[f].ready && t.fibers[f].at == st.fibers[f].at
  {
    var u := Insert(st, OnJoin(f));
    assert u.fibers[f].at == st.fibers[f].at;
    var v := FiberReady(u, f);
    assert v.fibers[f].ready && v.fibers[f].at == st.fibers[f].at;
  }

  /** The joined fiber is ready and still on the list it was on. */
  lemma JoinListedBreaks(st: State, f: nat)
    requires Inv(st) && InLua(st) && f < |st.fibers| && st.curr != Fib(f) && !st.fibers[f].dead
    requires !NotParked(st, Fib(f))
    ensures !Inv(Join(st, f))
  {
    JoinTarget(st, f, Join(st, f));
    assert !FiberOk(Join(st, f), f);
  }

  lemma JoinAgainBreaks(st: State, f: nat)
    requires ListsOk(st) && f < |st.fibers| && st.curr.Main? && !st.fibers[f].dead
    requires st.mainAt.Some? && PlaceKnown(st, st.mainAt.value)
    ensures !Inv(Join(st, f))
  {
    var u, q := FiberReady(st, f), st.mainAt.value;
    JoinIsPark(st, f);
    ReadyPlaces(st, Fib(f), u);
    assert ListOk(st, q) && Main in ListAt(st, q);
    ParkPlaces(u, OnJoin(f));
    StaleList(u, Join(st, f), OnJoin(f), q);
  }

  // Runs

  /** Every step of `ops` can be taken, one after another. */
  predicate Runs(st: State, ops: seq<Op>)
    decreases |ops|
  {
    ops != [] ==> Enabled(st, ops[0]) && Runs(Step(st, ops[0]), ops[1..])
  }

  function Exec(st: State, ops: seq<Op>): State
    requires Runs(st, ops)
    decreases |ops|
  {
    if ops == [] then st else Exec(Step(st, ops[0]), ops[1..])
  }

  /** A run is its first step and the run from there on. */
  lemma ExecCons(st: State, ops: seq<Op>, u: State)
    requires ops != [] && Enabled(st, ops[0]) && u == Step(st, ops[0]) && Runs(u, ops[1..])
    ensures Runs(st, ops) && Exec(st, ops) == Exec(u, ops[1..])
  {
  }

  lemma {:induction false} ExecAppend(st: State, ops: seq<Op>, op: Op)
    requires Runs(st, ops) && Enabled(Exec(st, ops), op)
    ensures Runs(st, ops + [op]) && Exec(st, ops + [op]) == Step(Exec(st, ops), op)
    decreases |ops|
  {
    if ops == [] {
      assert [] + [op] == [op] && [op][1..] == [];
    } else {
      assert (ops + [op])[0] == ops[0] && (ops + [op])[1..] == ops[1..] + [op];
      ExecAppend(Step(st, ops[0]), ops[1..], op);
    }
  }

  lemma {:induction false} ExecConcat(st: State, a: seq<Op>, b: seq<Op>)
    requires Runs(st, a) && Runs(Exec(st, a), b)
    ensures Runs(st, a + b) && Exec(st, a + b) == Exec(Exec(st, a), b)
    decreases |a|
  {
    if a == [] {
      assert [] + b == b;
    } else {
      assert (a + b)[0] == a[0] && (a + b)[1..] == a[1..] + b;
      ExecConcat(Step(st, a[0]), a[1..], b);
    }
  }

  /** Every step is allowed, too. */
  predicate Legal(st: State, ops: seq<Op>)
    decreases |ops|
  {
    ops != [] ==> Enabled(st, ops[0]) && Allowed(st, ops[0]) && Legal(Step(st, ops[0]), ops[1..])
  }

  lemma {:induction false} RunKeeps(st: State, ops: seq<Op>)
    requires Inv(st) && Legal(st, ops)
    ensures Runs(st, ops) && Inv(Exec(st, ops))
    decreases |ops|
  {
    if ops != [] {
      StepKeeps(st, ops[0]);
      RunKeeps(Step(st, ops[0]), ops[1..]);
    }
  }

  /** The invariant holds in every state that any allowed run reaches. */
  lemma Reachable(ops: seq<Op>)
    requires Legal(Init(), ops)
    ensures Runs(Init(), ops) && Inv(Exec(Init(), ops))
  {
    InitInv();
    RunKeeps(Init(), ops);
  }

  // Join safety

  /** Follow the joins from the last state of a chain to one that waits for no fiber; `left` are the
      states not yet in the chain. */
  lemma ChainEnds(st: State, p: seq<Sid>, left: set<Sid>) returns (q: seq<Sid>)
    requires Inv(st) && Chain(st, p)
    requires forall s :: Known(st, s) && s !in p ==> s in left
    ensures Chain(st, q) && p <= q
    ensures Known(st, q[|q| - 1]) && (At(st, q[|q| - 1]).None? || !At(st, q[|q| - 1]).value.OnJoin?)
    decreases left
  {
    var e := p[|p| - 1];
    LastKnown(st, p);
    if At(st, e).Some? && At(st, e).value.OnJoin? {
      var n := Fib(At(st, e).value.f);
      JoinedKnown(st, e);
      LongerChain(st, p, n);
      NewInChain(st, p, n);
      q := ChainEnds(st, p + [n], left - {n});
    } else {
      q := p;
    }
  }

  lemma LastKnown(st: State, p: seq<Sid>)
    requires Chain(st, p)
    ensures Known(st, p[|p| - 1])
  {
    if |p| > 1 { LinkAt(st, p, |p| - 2); }
  }

  lemma JoinedKnown(st: State, e: Sid)
    requires Inv(st) && Known(st, e) && At(st, e).Some? && At(st, e).value.OnJoin?
    ensures Waits(st, e, Fib(At(st, e).value.f))
  {
    if e.Fib? { assert FiberOk(st, e.id); }
  }

  lemma LongerChain(st: State, p: seq<Sid>, n: Sid)
    requires Chain(st, p) && Waits(st, p[|p| - 1], n)
    ensures Chain(st, p + [n])
  {
    forall i | 0 <= i < |p + [n]| - 1 ensures Link(st, p + [n], i) {
      if i < |p| - 1 { LinkAt(st, p, i); }
    }
  }

  lemma NewInChain(st: State, p: seq<Sid>, n: Sid)
    requires Acyclic(st) && Chain(st, p + [n]) && |p| > 0
    ensures n !in p
  {
    if n in p {
      var i :| 0 <= i < |p| && p[i] == n;
      var c := (p + [n])[i..];
      assert c[0] == n && c[|c| - 1] == n && |c| > 1;
      SubChain(st, p + [n], i);
    }
  }

  lemma {:induction false} SubChain(st: State, p: seq<Sid>, i: nat)
    requires Chain(st, p) && i < |p|
    ensures Chain(st, p[i..])
    decreases i
  {
    if i > 0 {
      ChainTail(st, p);
      SubChain(st, p[1..], i - 1);
      assert p[1..][i - 1..] == p[i..];
    }
  }

  /** Every state that waits for a fiber to end waits, through a finite chain of joins, for a fiber
      that is alive and queued, running, on the list of a condition, or due a callback of its own. */
  lemma JoinSafety(st: State, s: Sid) returns (q: seq<Sid>)
    requires Inv(st) && Known(st, s) && At(st, s).Some? && At(st, s).value.OnJoin?
    ensures Chain(st, q) && |q| > 1 && q[0] == s && q[|q| - 1].Fib?
    ensures var e := q[|q| - 1].id;
            && e < |st.fibers| && !st.fibers[e].dead
            && (e in st.queue || st.curr == Fib(e) || Fib(e) in st.calls
                || (st.fibers[e].at.Some? && !st.fibers[e].at.value.OnJoin?))
  {
    var all := {Main} + set i | 0 <= i < |st.fibers| :: Fib(i);
    forall x | Known(st, x) ensures x in all {
      if x.Fib? { assert x == Fib(x.id); }
    }
    q := ChainEnds(st, [s], all);
    assert q[0] == s;
    LinkAt(st, q, |q| - 2);
    JoinedAlive(st, q[|q| - 2], q[|q| - 1].id);
  }

  /** A fiber that is waited for, and itself waits for none, is alive and not forgotten. */
  lemma JoinedAlive(st: State, a: Sid, e: nat)
    requires Inv(st) && Waits(st, a, Fib(e)) && (st.fibers[e].at.None? || !st.fibers[e].at.value.OnJoin?)
    ensures !st.fibers[e].dead
    ensures e in st.queue || st.curr == Fib(e) || Fib(e) in st.calls
            || (st.fibers[e].at.Some? && !st.fibers[e].at.value.OnJoin?)
  {
    assert FiberOk(st, e) && ListOk(st, OnJoin(e));
    assert a in ListAt(st, OnJoin(e));
  }

  /** Each parked joiner sits on exactly one list, once, and the fiber it waits for is alive. */
  lemma JoinerOnOneList(st: State, s: Sid, p: Place, q: Place)
    requires Inv(st) && PlaceKnown(st, p) && PlaceKnown(st, q) && s in ListAt(st, p) && s in ListAt(st, q)
    ensures p == q && NoDup(ListAt(st, p)) && (p.OnJoin? ==> !st.fibers[p.f].dead)
  {
    assert ListOk(st, p) && ListOk(st, q);
    if p.OnJoin? { assert FiberOk(st, p.f); }
  }
}
