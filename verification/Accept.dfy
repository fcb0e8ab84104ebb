/** Accepting connections: src/luv_stream.c:94-123 and 137-158. */
module Accept {
  import opened Scheduler

  /** What an acceptor gets: whether `uv_accept` succeeded. */
  datatype Outcome = Outcome(to: Sid, ok: bool)

  /** The listening stream. `waiting` is the flag `LUV_OWAITING`, `count` the backlog and `rouse` the
      list of parked acceptors. The last three fields are the history: how often libuv called
      back, which states called `accept`, and what `uv_accept` did for whom. */
  datatype Listener = Listener(
    waiting: bool,
    count: nat,
    rouse: seq<Sid>,
    connections: nat,
    callers: seq<Sid>,
    accepts: seq<Outcome>)

  function NewListener(): Listener { Listener(false, 0, [], 0, [], []) }

  /** A connection comes in, or a state calls `accept`; `ok` is what `uv_accept` would return. */
  datatype Op = Connect(ok: bool) | Accept(s: Sid, ok: bool)

  function DoConnect(l: Listener, ok: bool): Listener
    requires l.waiting ==> l.rouse != []
  {
    var m := l.(connections := l.connections + 1);
    if l.waiting
    then m.(waiting := false, rouse := l.rouse[1..], accepts := l.accepts + [Outcome(l.rouse[0], ok)])
    else m.(count := l.count + 1)
  }

  function DoAccept(l: Listener, s: Sid, ok: bool): Listener
  {
    var m := l.(callers := l.callers + [s]);
    if l.count > 0 then m.(count := l.count - 1, accepts := l.accepts + [Outcome(s, ok)])
    else m.(waiting := true, rouse := l.rouse + [s])
  }

  predicate Sound(l: Listener)
  {
    && l.connections == |l.accepts| + l.count
    && (l.waiting ==> l.count == 0 && l.rouse != [])
    && |l.callers| == |l.accepts| + |l.rouse|
  }

  function Step(l: Listener, op: Op): (r: Listener)
    requires Sound(l)
    ensures Sound(r)
  {
    match op
    case Connect(ok) => DoConnect(l, ok)
    case Accept(s, ok) => DoAccept(l, s, ok)
  }

  /** A connection is for who waits, if the flag says so, and else for the backlog; a call takes from the backlog, and
      else waits and sets the flag. */
  lemma StepFields(l: Listener, op: Op)
    requires Sound(l)
    ensures var t, served, taken := Step(l, op), op.Connect? && l.waiting, op.Accept? && l.count > 0;
            && t.waiting == (if op.Connect? then false else l.waiting || l.count == 0)
            && t.count == l.count + (if op.Connect? && !served then 1 else 0) - (if taken then 1 else 0)
            && t.rouse == (if served then l.rouse[1..] else if op.Accept? && !taken then l.rouse + [op.s] else l.rouse)
            && t.connections == l.connections + (if op.Connect? then 1 else 0)
            && t.callers == l.callers + (if op.Accept? then [op.s] else [])
            && t.accepts == l.accepts + (if served then [Outcome(l.rouse[0], op.ok)]
                                         else if taken then [Outcome(op.s, op.ok)] else [])
  {
    assert l.callers + [] == l.callers && l.accepts + [] == l.accepts;
  }

  function Exec(l: Listener, ops: seq<Op>): (r: Listener)
    requires Sound(l)
    ensures Sound(r)
    decreases |ops|
  {
    if ops == [] then l else Exec(Step(l, ops[0]), ops[1..])
  }

  function Connections(ops: seq<Op>): nat
  {
    if ops == [] then 0 else (if ops[0].Connect? then 1 else 0) + Connections(ops[1..])
  }

  function Callers(ops: seq<Op>): seq<Sid>
  {
    if ops == [] then [] else (if ops[0].Accept? then [ops[0].s] else []) + Callers(ops[1..])
  }

  lemma {:induction false} History(l: Listener, ops: seq<Op>)
    requires Sound(l)
    ensures Exec(l, ops).connections == l.connections + Connections(ops)
    ensures Exec(l, ops).callers == l.callers + Callers(ops)
    decreases |ops|
  {
    if ops == [] {
      assert l.callers + [] == l.callers;
    } else {
      var m := Step(l, ops[0]);
      History(m, ops[1..]);
      var first := if ops[0].Accept? then [ops[0].s] else [];
      assert m.callers == l.callers + first;
      assert (l.callers + first) + Callers(ops[1..]) == l.callers + (first + Callers(ops[1..]));
    }
  }

  /** Over every run, the connections are the attempts to accept plus the backlog, the calls are the
      attempts plus the parked acceptors, and the waiting flag means an empty backlog. */
  lemma AcceptConservation(ops: seq<Op>)
    ensures var l := Exec(NewListener(), ops);
            && Connections(ops) == |l.accepts| + l.count
            && |Callers(ops)| == |l.accepts| + |l.rouse|
            && (l.waiting ==> l.count == 0 && l.rouse != [])
  {
    History(NewListener(), ops);
  }

  // Acceptors

  /** A parked acceptor is served by the next connection. */
  predicate Attended(l: Listener) { l.rouse != [] ==> l.waiting }

  /** A step leaves an acceptor behind exactly when it is a connection that serves one of several. */
  lemma AttendedExactly(l: Listener, op: Op)
    requires Sound(l) && Attended(l)
    ensures Attended(Step(l, op)) <==> !(op.Connect? && |l.rouse| > 1)
  {
  }

  /** Two more connections leave an acceptor parked beside a backlog exactly when more than one is
      parked before them. */
  lemma StrandedExactly(l: Listener, a: bool, b: bool)
    requires Sound(l) && Attended(l)
    ensures var m := Step(Step(l, Connect(a)), Connect(b));
            m.rouse != [] && m.count > 0 <==> |l.rouse| > 1
  {
  }

  lemma TwoAcceptors(a: Sid, b: Sid)
    ensures var l := Exec(NewListener(), [Accept(a, true), Accept(b, true), Connect(true), Connect(true)]);
            l.rouse == [b] && l.count == 1
  {
    var x, y, z := Accept(a, true), Accept(b, true), Connect(true);
    assert [x, y, z, z][1..] == [y, z, z] && [y, z, z][1..] == [z, z] && [z, z][1..] == [z];
    var l := Step(Step(NewListener(), x), y);
    assert l.rouse == [a, b];
    assert [z][1..] == [];
    assert Exec(Step(l, z), [z]) == Step(Step(l, z), z);
    assert Exec(l, [z, z]) == Step(Step(l, z), z);
  }

  /** No state calls `accept` while another is parked. */
  predicate OneAtATime(l: Listener, ops: seq<Op>)
    requires Sound(l)
    decreases |ops|
  {
    ops != [] ==> (ops[0].Accept? ==> l.rouse == []) && OneAtATime(Step(l, ops[0]), ops[1..])
  }

  /** With one acceptor at a time, none is ever parked while there is a backlog, and connections are
      handed out in the order of the calls. */
  lemma {:induction false} OneAcceptor(l: Listener, ops: seq<Op>)
    requires Sound(l) && Attended(l) && |l.rouse| <= 1 && InOrder(l) && OneAtATime(l, ops)
    ensures var m := Exec(l, ops);
            && Attended(m) && |m.rouse| <= 1 && InOrder(m)
            && (m.rouse != [] ==> m.count == 0)
    decreases |ops|
  {
    if ops != [] {
      StepInOrder(l, ops[0]);
      OneAcceptor(Step(l, ops[0]), ops[1..]);
    }
  }

  function Served(accepts: seq<Outcome>): seq<Sid>
  {
    if accepts == [] then [] else Served(accepts[..|accepts| - 1]) + [accepts[|accepts| - 1].to]
  }

  predicate InOrder(l: Listener) { l.callers == Served(l.accepts) + l.rouse }

  lemma ServedMore(accepts: seq<Outcome>, o: Outcome)
    ensures Served(accepts + [o]) == Served(accepts) + [o.to]
  {
    assert (accepts + [o])[..|accepts|] == accepts;
  }

  lemma StepInOrder(l: Listener, op: Op)
    requires Sound(l) && InOrder(l) && (op.Accept? ==> l.rouse == [])
    ensures InOrder(Step(l, op))
  {
    var t := Step(l, op);
    match op
    case Connect(ok) =>
      if l.waiting {
        ServedMore(l.accepts, Outcome(l.rouse[0], ok));
        assert l.rouse == [l.rouse[0]] + l.rouse[1..];
        assert Served(l.accepts) + ([l.rouse[0]] + t.rouse) == Served(t.accepts) + t.rouse;
      }
    case Accept(s, ok) =>
      assert Served(l.accepts) + [] == Served(l.accepts);
      if l.count > 0 {
        ServedMore(l.accepts, Outcome(s, ok));
        assert Served(t.accepts) + [] == Served(t.accepts);
      } else {
        assert l.rouse + [s] == [s];
      }
  }
}
