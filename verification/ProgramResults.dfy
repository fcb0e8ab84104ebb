/** What fibers leave when they have come to the end of their programs. */
module ProgramResults {
  import opened Options
  import opened Scheduler
  import opened SchedulerInv
  import opened SchedulerSteps
  import opened SchedulerRuns
  import opened SchedulerQueue
  import opened SchedulerResults
  import opened Programs
  import opened ProgramRuns

  /** The values a program returns, if it comes to a return. */
  function Result(p: Prog): Option<seq<Item>>
  {
    match p
    case Finished => None
    case Return(vs) => Some(vs)
    case Spawn(_, r) => Result(r)
    case Call(op, r) => if NotACall(op) then None else Result(r)
  }

  lemma {:induction false} ScriptEnds(p: Prog)
    requires Result(p).Some?
    ensures Script(p) != [] && Script(p)[|Script(p)| - 1] == DoExit(Result(p).value)
  {
    match p
    case Return(_) =>
    case Spawn(_, r) => ScriptEnds(r);
    case Call(_, r) => ScriptEnds(r);
  }

  /** Where in a run fiber `f` takes its last step. */
  lemma {:induction false} LastStep(st: State, ops: seq<Op>, f: nat) returns (a: seq<Op>, op: Op, b: seq<Op>)
    requires Runs(st, ops) && StepsOf(st, ops, f) != []
    ensures ops == a + [op] + b && Runs(st, a) && Exec(st, a).curr == Fib(f)
    ensures op == StepsOf(st, ops, f)[|StepsOf(st, ops, f)| - 1]
    decreases |ops|
  {
    var t := Step(st, ops[0]);
    StepsCons(st, ops, f);
    if StepsOf(t, ops[1..], f) == [] {
      a, op, b := [], ops[0], ops[1..];
      assert Own(st, ops[0], f) + [] == Own(st, ops[0], f);
    } else {
      var c;
      c, op, b := LastStep(t, ops[1..], f);
      a := [ops[0]] + c;
      LastLater(st, ops, f, a, c, op, b);
    }
  }

  lemma LastLater(st: State, ops: seq<Op>, f: nat, a: seq<Op>, c: seq<Op>, op: Op, b: seq<Op>)
    requires Runs(st, ops) && ops != [] && a == [ops[0]] + c && ops[1..] == c + [op] + b
    requires Runs(Step(st, ops[0]), c) && Exec(Step(st, ops[0]), c).curr == Fib(f)
    ensures ops == a + [op] + b && Runs(st, a) && Exec(st, a).curr == Fib(f)
  {
    assert ops == [ops[0]] + ops[1..];
    ExecCons(st, a, Step(st, ops[0]));
  }

  lemma {:induction false} LegalSplit(st: State, a: seq<Op>, b: seq<Op>)
    requires Inv(st) && Legal(st, a + b)
    ensures Runs(st, a) && Inv(Exec(st, a)) && Legal(Exec(st, a), b)
    decreases |a|
  {
    if a == [] {
      assert [] + b == b;
    } else {
      assert (a + b)[0] == a[0] && (a + b)[1..] == a[1..] + b;
      StepKeeps(st, a[0]);
      LegalSplit(Step(st, a[0]), a[1..], b);
    }
  }

  /** In an allowed run in which all fibers keep to their programs, a fiber that has finished is dead and holds
      exactly the values that its program returns. */
  lemma FinishedHolds(st: State, ops: seq<Op>, born: seq<Prog>, rest: seq<Prog>, f: nat)
    requires Inv(st) && Legal(st, ops) && Runs(st, ops) && Normal(st, ops, born, rest) && f < |born|
    requires rest[f].Finished? && Result(born[f]).Some?
    ensures var t := Exec(st, ops); Dead(t, f) && t.fibers[f].stack == Result(born[f]).value
  {
    assert Kept(st, ops, born, rest, f);
    ScriptEnds(born[f]);
    assert StepsOf(st, ops, f) + [] == StepsOf(st, ops, f);
    var a, op, b := LastStep(st, ops, f);
    ProgramRuns.Assoc(a, [op], b);
    LegalSplit(st, a, [op] + b);
    ExitThen(Exec(st, a), Result(born[f]).value, b, f);
    RunsSplit(st, a, [op] + b);
  }

  lemma ExitThen(u: State, vs: seq<Item>, b: seq<Op>, f: nat)
    requires Inv(u) && u.curr == Fib(f) && Legal(u, [DoExit(vs)] + b)
    ensures Runs(u, [DoExit(vs)] + b)
    ensures var t := Exec(u, [DoExit(vs)] + b); Dead(t, f) && t.fibers[f].stack == vs
  {
    var ops, t := [DoExit(vs)] + b, Step(u, DoExit(vs));
    assert ops[0] == DoExit(vs) && ops[1..] == b;
    InvFlows(u);
    ExitLeaves(u, vs);
    ExitInv(u, vs);
    DeadForever(t, b, f);
    ExecCons(u, ops, t);
  }

  lemma {:induction false} RunsSplit(st: State, a: seq<Op>, b: seq<Op>)
    requires Runs(st, a + b)
    ensures Runs(st, a) && Runs(Exec(st, a), b) && Exec(st, a + b) == Exec(Exec(st, a), b)
    decreases |a|
  {
    if a == [] {
      assert [] + b == b;
    } else {
      assert (a + b)[0] == a[0] && (a + b)[1..] == a[1..] + b;
      RunsSplit(Step(st, a[0]), a[1..], b);
    }
  }
}
