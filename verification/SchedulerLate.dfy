/** Two runs that callers must avoid, shown to be within reach: a fiber's own timer comes while the fiber
    waits for something else, and a timer writes over the values of a fiber that has ended. */
module SchedulerLate {
  import opened Options
  import opened Scheduler
  import opened SchedulerInv
  import opened SchedulerRuns

  function Worker(ready: bool, started: bool, at: Option<Place>): Fiber { Fiber(ready, false, started, [], [], at) }

  /** The states of the runs, by what changes in them: one fiber, one condition. */
  function Moment(f: Fiber, queue: seq<nat>, curr: Sid, phase: Phase, mainReady: bool, pending: bool, waiters: seq<Sid>,
                  calls: multiset<Sid>): State
  {
    State([f], queue, curr, phase, mainReady, [], None, None, pending, true, [waiters], calls)
  }

  /** `op` can be taken in `st`, is allowed if `legal`, and leads to `u`. */
  predicate Leads(st: State, op: Op, u: State, legal: bool)
  {
    Enabled(st, op) && (legal ==> Allowed(st, op)) && Step(st, op) == u
  }

  /** The run `ops` can be taken in `st`, is allowed if `legal`, and leads to `u`. */
  predicate RunLeads(st: State, ops: seq<Op>, u: State, legal: bool)
  {
    (legal ==> Legal(st, ops)) && Runs(st, ops) && Exec(st, ops) == u
  }

  lemma Nothing(st: State, ops: seq<Op>, legal: bool)
    requires |ops| == 0
    ensures RunLeads(st, ops, st, legal)
  {
  }

  lemma First(st: State, op: Op, u: State, rest: seq<Op>, ops: seq<Op>, v: State, legal: bool)
    requires Leads(st, op, u, legal) && RunLeads(u, rest, v, legal) && ops == [op] + rest
    ensures RunLeads(st, ops, v, legal)
  {
    assert ops[0] == op && ops[1..] == rest;
  }

  /** Steps one after another are a run. */
  lemma {:induction false} Along(s: seq<State>, o: seq<Op>, k: nat, legal: bool)
    requires |s| == |o| + 1 && k <= |o| && forall i :: 0 <= i < |o| ==> Leads(s[i], o[i], s[i + 1], legal)
    ensures RunLeads(s[k], o[k..], s[|o|], legal)
    decreases |o| - k
  {
    if k == |o| {
      Nothing(s[k], o[k..], legal);
    } else {
      Along(s, o, k + 1, legal);
      First(s[k], o[k], s[k + 1], o[k + 1..], o[k..], s[|o|], legal);
    }
  }

  lemma {:induction false} Chained(st: State, a: seq<Op>, u: State, b: seq<Op>, v: State, legal: bool)
    requires RunLeads(st, a, u, legal) && RunLeads(u, b, v, legal)
    ensures RunLeads(st, a + b, v, legal)
    decreases |a|
  {
    if a == [] {
      assert [] + b == b;
    } else {
      var t := Step(st, a[0]);
      assert RunLeads(t, a[1..], u, legal);
      Chained(t, a[1..], u, b, v, legal);
      assert a + b == [a[0]] + (a[1..] + b);
      First(st, a[0], t, a[1..] + b, a + b, v, legal);
    }
  }

  /** The waiters of the condition: nobody, or the fiber. */
  predicate Waiters(w: seq<Sid>) { w == [] || w == [Fib(0)] }

  // Steps, with any callbacks due

  lemma MainSleeps(f: Fiber, q: seq<nat>, w: seq<Sid>, calls: multiset<Sid>)
    requires f.joiners == [] && (q == [] || q == [0]) && Waiters(w)
    ensures Leads(Moment(f, q, Main, Running, true, true, w, calls), DoSleep,
                  Moment(f, q, Main, Looping, false, true, w, calls + multiset{Main}), true)
  {
  }

  lemma WorkerReadied(started: bool, at: Option<Place>, w: seq<Sid>, calls: multiset<Sid>)
    requires Waiters(w)
    ensures Leads(Moment(Worker(false, started, at), [], Main, Running, true, true, w, calls), DoReady(0),
                  Moment(Worker(true, started, at), [0], Main, Running, true, true, w, calls), at.None?)
  {
  }

  lemma WorkerRuns(started: bool, at: Option<Place>, w: seq<Sid>, calls: multiset<Sid>)
    requires Waiters(w)
    ensures Leads(Moment(Worker(true, started, at), [0], Main, Looping, false, true, w, calls), DoTurn,
                  Moment(Worker(true, true, at), [], Fib(0), Looping, false, true, w, calls), true)
  {
  }

  lemma WorkerSleeps(calls: multiset<Sid>)
    ensures Leads(Moment(Worker(true, true, None), [], Fib(0), Looping, false, true, [], calls), DoSleep,
                  Moment(Worker(false, true, None), [], Main, Looping, false, true, [], calls + multiset{Fib(0)}), true)
  {
  }

  lemma WorkerWaits(calls: multiset<Sid>)
    ensures Leads(Moment(Worker(true, true, None), [], Fib(0), Looping, false, true, [], calls), DoWait(0),
                  Moment(Worker(false, true, Some(OnCond(0))), [], Main, Looping, false, true, [Fib(0)], calls), true)
  {
    var st := Moment(Worker(true, true, None), [], Fib(0), Looping, false, true, [], calls);
    assert ListAt(st, OnCond(0)) + [Fib(0)] == [Fib(0)];
    var t := Insert(st, OnCond(0));
    assert t == Moment(Worker(true, true, Some(OnCond(0))), [], Fib(0), Looping, false, true, [Fib(0)], calls);
  }

  lemma Polls(f: Fiber, w: seq<Sid>, calls: multiset<Sid>)
    requires f.joiners == [] && Waiters(w)
    ensures Leads(Moment(f, [], Main, Looping, false, true, w, calls), DoTurn,
                  Moment(f, [], Main, Polling, false, false, w, calls), true)
  {
  }

  lemma MainCalled(f: Fiber, w: seq<Sid>, calls: multiset<Sid>)
    requires f.joiners == [] && Main in calls && Waiters(w)
    ensures Leads(Moment(f, [], Main, Polling, false, false, w, calls), Wake(Main),
                  Moment(f, [], Main, Polling, true, true, w, calls - multiset{Main}), true)
  {
  }

  lemma MainLeaves(f: Fiber, w: seq<Sid>, calls: multiset<Sid>)
    requires f.joiners == [] && Waiters(w)
    ensures Leads(Moment(f, [], Main, Polling, true, true, w, calls), DoLeave(true),
                  Moment(f, [], Main, Running, true, true, w, calls), true)
  {
  }

  lemma Begins()
    ensures var s1 := Init().(fibers := [Worker(false, false, None)]);
            var s2 := s1.(conds := [[]]);
            && Leads(Init(), DoCreate, s1, true) && Leads(s1, DoNewCond, s2, true)
            && Leads(s2, DoReady(0), Moment(Worker(true, false, None), [0], Main, Running, true, true, [], multiset{}),
                     true)
  {
  }

  /** The thread makes a fiber and a condition; then the fiber runs. */
  const START: seq<Op> := [DoCreate, DoNewCond, DoReady(0), DoSleep, DoTurn]

  function Started(calls: multiset<Sid>): State
  {
    Moment(Worker(true, true, None), [], Fib(0), Looping, false, true, [], calls)
  }

  lemma GetsStarted()
    ensures RunLeads(Init(), START, Started(multiset{Main}), true)
  {
    var s1 := Init().(fibers := [Worker(false, false, None)]);
    var s2 := s1.(conds := [[]]);
    var s3 := Moment(Worker(true, false, None), [0], Main, Running, true, true, [], multiset{});
    var s4 := Moment(Worker(true, false, None), [0], Main, Looping, false, true, [], multiset{Main});
    Begins();
    MainSleeps(Worker(true, false, None), [0], [], multiset{});
    WorkerRuns(false, None, [], multiset{Main});
    Along([Init(), s1, s2, s3, s4, Started(multiset{Main})], START, 0, true);
    assert START[0..] == START;
  }

  // A late timer

  /** A fiber that sleeps, is made ready early by the thread, and then waits for a condition while its
      timer is still due. */
  const EARLY: seq<Op> := [DoSleep, DoTurn]
  const LATE: seq<Op> := [Wake(Main), DoLeave(true), DoReady(0), DoSleep, DoTurn, DoWait(0), DoTurn]

  /** The fiber sleeps; the thread, too. */
  function Asleep(): State
  {
    Moment(Worker(false, true, None), [], Main, Polling, false, false, [], multiset{Main, Fib(0)})
  }

  /** The fiber waits for the condition, and its timer is still due. */
  function Waiting(): State
  {
    Moment(Worker(false, true, Some(OnCond(0))), [], Main, Polling, false, false, [Fib(0)], multiset{Main, Fib(0)})
  }

  lemma FallsAsleep(main: multiset<Sid>, both: multiset<Sid>)
    requires main == multiset{Main} && both == multiset{Main, Fib(0)}
    ensures RunLeads(Started(main), EARLY, Asleep(), true)
  {
    var s1 := Moment(Worker(false, true, None), [], Main, Looping, false, true, [], both);
    assert main + multiset{Fib(0)} == both;
    WorkerSleeps(main);
    Polls(Worker(false, true, None), [], both);
    Along([Started(main), s1, Asleep()], EARLY, 0, true);
    assert EARLY[0..] == EARLY;
  }

  lemma WakesEarly(mine: multiset<Sid>, both: multiset<Sid>)
    requires mine == multiset{Fib(0)} && both == multiset{Main, Fib(0)}
    ensures RunLeads(Moment(Worker(false, true, None), [], Main, Polling, false, false, [], both), LATE[..3],
                     Moment(Worker(true, true, None), [0], Main, Running, true, true, [], mine), true)
  {
    var s0 := Moment(Worker(false, true, None), [], Main, Polling, false, false, [], both);
    var s1 := Moment(Worker(false, true, None), [], Main, Polling, true, true, [], mine);
    var s2 := Moment(Worker(false, true, None), [], Main, Running, true, true, [], mine);
    var s3 := Moment(Worker(true, true, None), [0], Main, Running, true, true, [], mine);
    assert both - multiset{Main} == mine;
    MainCalled(Worker(false, true, None), [], both);
    MainLeaves(Worker(false, true, None), [], mine);
    WorkerReadied(true, None, [], mine);
    Along([s0, s1, s2, s3], LATE[..3], 0, true);
    assert LATE[..3][0..] == LATE[..3];
  }

  lemma GoesToWait(mine: multiset<Sid>, both: multiset<Sid>)
    requires mine == multiset{Fib(0)} && both == multiset{Main, Fib(0)}
    ensures RunLeads(Moment(Worker(true, true, None), [0], Main, Running, true, true, [], mine), LATE[3..],
                     Moment(Worker(false, true, Some(OnCond(0))), [], Main, Polling, false, false, [Fib(0)], both),
                     true)
  {
    var s0 := Moment(Worker(true, true, None), [0], Main, Running, true, true, [], mine);
    var s1 := Moment(Worker(true, true, None), [0], Main, Looping, false, true, [], both);
    var s2 := Moment(Worker(true, true, None), [], Fib(0), Looping, false, true, [], both);
    var s3 := Moment(Worker(false, true, Some(OnCond(0))), [], Main, Looping, false, true, [Fib(0)], both);
    var s4 := Moment(Worker(false, true, Some(OnCond(0))), [], Main, Polling, false, false, [Fib(0)], both);
    assert mine + multiset{Main} == both;
    MainSleeps(Worker(true, true, None), [0], [], mine);
    WorkerRuns(true, None, [], both);
    WorkerWaits(both);
    Polls(Worker(false, true, Some(OnCond(0))), [Fib(0)], both);
    Along([s0, s1, s2, s3, s4], LATE[3..], 0, true);
    assert LATE[3..][0..] == LATE[3..];
  }

  /** An allowed run, after which the timer makes the fiber ready while it is on the list of the condition. */
  lemma LateTimer()
    ensures RunLeads(Init(), START + EARLY + LATE, Waiting(), true)
    ensures Enabled(Waiting(), Wake(Fib(0))) && !Allowed(Waiting(), Wake(Fib(0)))
    ensures var t := Step(Waiting(), Wake(Fib(0))); t.queue == [0] && t.conds == [[Fib(0)]] && !Inv(t)
  {
    GetsStarted();
    FallsAsleep(multiset{Main}, multiset{Main, Fib(0)});
    Chained(Init(), START, Started(multiset{Main}), EARLY, Asleep(), true);
    var t := Moment(Worker(true, true, None), [0], Main, Running, true, true, [], multiset{Fib(0)});
    WakesEarly(multiset{Fib(0)}, multiset{Main, Fib(0)});
    GoesToWait(multiset{Fib(0)}, multiset{Main, Fib(0)});
    Chained(Asleep(), LATE[..3], t, LATE[3..], Waiting(), true);
    assert LATE[..3] + LATE[3..] == LATE;
    Chained(Init(), START + EARLY, Asleep(), LATE, Waiting(), true);
    TimerBreaks(Waiting());
  }

  lemma TimerBreaks(st: State)
    requires st == Waiting()
    ensures Enabled(st, Wake(Fib(0))) && !Allowed(st, Wake(Fib(0)))
    ensures var t := Step(st, Wake(Fib(0))); t.queue == [0] && t.conds == [[Fib(0)]] && !Inv(t)
  {
    var t := Call(st, Fib(0));
    assert !FiberOk(t, 0);
  }

  // Values lost

  /** A fiber waits for a timer, the thread makes it ready while it is on the timer's list, and it ends
      with the value `x`; then the timer fires with `status`, and the thread joins the fiber. */
  const PARKS: seq<Op> := [DoWait(0), DoTurn]
  const REVIVES: seq<Op> := [Wake(Main), DoLeave(true), DoReady(0), DoSleep, DoTurn]
  function Ends(x: Item): seq<Op> { [DoExit([x]), DoTurn] }
  function Spoiling(status: Item): seq<Op> { [OnTimer(0, status), Wake(Main), DoLeave(true)] }

  const THERE: Option<Place> := Some(OnCond(0))

  function Parked(): State
  {
    Moment(Worker(false, true, THERE), [], Main, Polling, false, false, [Fib(0)], multiset{Main})
  }

  /** The fiber runs, and is still on the timer's list. */
  function Revived(): State
  {
    Moment(Worker(true, true, THERE), [], Fib(0), Looping, false, true, [Fib(0)], multiset{Main})
  }

  function Ended(x: Item): State
  {
    Moment(Fiber(true, true, true, [], [x], THERE), [], Main, Polling, false, false, [Fib(0)], multiset{Main})
  }

  function Spoiled(status: Item): State
  {
    Moment(Fiber(true, true, true, [], [status], None), [], Main, Running, true, true, [], multiset{})
  }

  lemma GetsParked(main: multiset<Sid>)
    requires main == multiset{Main}
    ensures RunLeads(Started(main), PARKS, Parked(), true)
  {
    var s1 := Moment(Worker(false, true, THERE), [], Main, Looping, false, true, [Fib(0)], main);
    WorkerWaits(main);
    Polls(Worker(false, true, THERE), [Fib(0)], main);
    Along([Started(main), s1, Parked()], PARKS, 0, true);
    assert PARKS[0..] == PARKS;
  }

  lemma GetsRevived(none: multiset<Sid>, main: multiset<Sid>)
    requires none == multiset{} && main == multiset{Main}
    ensures RunLeads(Parked(), REVIVES, Revived(), false)
  {
    var s1 := Moment(Worker(false, true, THERE), [], Main, Polling, true, true, [Fib(0)], none);
    var s2 := Moment(Worker(false, true, THERE), [], Main, Running, true, true, [Fib(0)], none);
    var s3 := Moment(Worker(true, true, THERE), [0], Main, Running, true, true, [Fib(0)], none);
    var s4 := Moment(Worker(true, true, THERE), [0], Main, Looping, false, true, [Fib(0)], main);
    assert main - multiset{Main} == none && none + multiset{Main} == main;
    MainCalled(Worker(false, true, THERE), [Fib(0)], main);
    MainLeaves(Worker(false, true, THERE), [Fib(0)], none);
    WorkerReadied(true, THERE, [Fib(0)], none);
    MainSleeps(Worker(true, true, THERE), [0], [Fib(0)], none);
    WorkerRuns(true, THERE, [Fib(0)], main);
    Along([Parked(), s1, s2, s3, s4, Revived()], REVIVES, 0, false);
    assert REVIVES[0..] == REVIVES;
  }

  lemma GetsEnded(x: Item)
    ensures RunLeads(Revived(), Ends(x), Ended(x), false)
  {
    var s1 := Moment(Fiber(true, true, true, [], [x], THERE), [], Main, Looping, false, true, [Fib(0)], multiset{Main});
    var st := Revived();
    assert WakeJoiners(SetStack(st, Fib(0), [x]), 0, [x]) == SetStack(st, Fib(0), [x]);
    assert Leads(st, DoExit([x]), s1, false);
    Polls(Fiber(true, true, true, [], [x], THERE), [Fib(0)], multiset{Main});
    Along([st, s1, Ended(x)], Ends(x), 0, false);
    assert Ends(x)[0..] == Ends(x);
  }

  lemma TimerFires(x: Item, status: Item)
    ensures Leads(Ended(x), OnTimer(0, status),
                  Moment(Fiber(true, true, true, [], [status], None), [], Main, Polling, false, false, [],
                         multiset{Main}), false)
  {
    var st := Ended(x);
    var u := Moment(Fiber(true, true, true, [], [status], THERE), [], Main, Polling, false, false, [Fib(0)],
                    multiset{Main});
    assert st.conds[0][1..] == [];
    assert SetStacks(st, [Fib(0)], [status]) == u;
    assert ListAt(u, OnCond(0))[1..] == [];
    var v := Scheduler.Rouse(u, OnCond(0));
    assert v.conds == [[]];
    assert Broadcast(v, 0) == v;
    assert Broadcast(u, 0) == v;
  }

  lemma GetsSpoiled(x: Item, status: Item, none: multiset<Sid>, main: multiset<Sid>)
    requires none == multiset{} && main == multiset{Main}
    ensures RunLeads(Ended(x), Spoiling(status), Spoiled(status), false)
  {
    var dead := Fiber(true, true, true, [], [status], None);
    var s1 := Moment(dead, [], Main, Polling, false, false, [], main);
    var s2 := Moment(dead, [], Main, Polling, true, true, [], none);
    assert main - multiset{Main} == none;
    TimerFires(x, status);
    MainCalled(dead, [], main);
    MainLeaves(dead, [], none);
    Along([Ended(x), s1, s2, Spoiled(status)], Spoiling(status), 0, false);
    assert Spoiling(status)[0..] == Spoiling(status);
  }

  lemma LostAtJoin(st: State, status: Item)
    requires st == Spoiled(status)
    ensures Enabled(st, DoJoin(0)) && Step(st, DoJoin(0)).mainStack == [status]
  {
    assert [] + [status] == [status];
  }

  /** A run from the start in which the fiber ends with `x`, and in which a later join copies `status`. */
  lemma LostValues(x: Item, status: Item)
    ensures RunLeads(Init(), START + PARKS + REVIVES + Ends(x), Ended(x), false) && Ended(x).fibers[0].stack == [x]
    ensures RunLeads(Init(), START + PARKS + REVIVES + Ends(x) + Spoiling(status), Spoiled(status), false)
    ensures Enabled(Spoiled(status), DoJoin(0)) && Step(Spoiled(status), DoJoin(0)).mainStack == [status]
  {
    GetsStarted();
    GetsParked(multiset{Main});
    Chained(Init(), START, Started(multiset{Main}), PARKS, Parked(), true);
    GetsRevived(multiset{}, multiset{Main});
    Chained(Init(), START + PARKS, Parked(), REVIVES, Revived(), false);
    GetsEnded(x);
    Chained(Init(), START + PARKS + REVIVES, Revived(), Ends(x), Ended(x), false);
    GetsSpoiled(x, status, multiset{}, multiset{Main});
    Chained(Init(), START + PARKS + REVIVES + Ends(x), Ended(x), Spoiling(status), Spoiled(status), false);
    LostAtJoin(Spoiled(status), status);
  }
}
