/** The stream object, changed in place by its methods and by callbacks (src/luv_stream.c). Its list `rouse`
    is a list of link cells, and waiting readers and acceptors are states of the scheduler. */
module StreamObject {
  import opened Options
  import opened Uleb128
  import opened Scheduler
  import opened SchedulerInv
  import opened SchedulerSteps
  import L = Links
  import opened StreamThread

  /** A block of the given size that starts with the bytes. */
  function Block(bytes: seq<byte>, size: nat): (block: seq<byte>)
    requires |bytes| <= size
    ensures |block| == size && bytes <= block
  {
    bytes + seq(size - |bytes|, _ => 0)
  }

  class StreamObject {
    const links: L.Links         // the link cells of the thread
    const id: nat                // the list `rouse` is that of condition `id`
    var started: bool            // LUV_OSTARTED
    var waiting: bool            // LUV_OWAITING
    var closing: bool            // LUV_OCLOSING
    var closed: bool             // LUV_OCLOSED
    var base: Option<seq<byte>>  // the block at buf.base
    var size: nat                // buf.len
    var count: nat

    /** What libuv does with the handle, and the history. */
    ghost var reading: bool
    ghost var received: seq<byte>
    ghost var callers: seq<Sid>
    ghost var log: seq<Stream.Delivery>
    ghost var connections: nat
    ghost var accepts: seq<Accept.Outcome>

    /** `luvL_object_init`, for a list that is there and empty. */
    constructor (links: L.Links, id: nat)
      ensures this.links == links && this.id == id
      ensures forall st: State :: id < |st.conds| && st.conds[id] == [] ==>
                Readable() && AsReader(st) == Stream.NewReader() && AsListener(st) == Accept.NewListener()
    {
      this.links, this.id := links, id;
      started, waiting, closing, closed := false, false, false, false;
      base, size, count := None, 0, 0;
      reading, received, callers, log, connections, accepts := false, [], [], [], 0, [];
    }

    /** The cells show the lists of the scheduler in state `st`, with this stream's list among them. */
    ghost predicate Attached(st: State)
      reads links, links.cells
    {
      links.Shows(L.ListsOf(st)) && id < |st.conds|
    }

    // Reading

    predicate Readable()
      reads this
    {
      base.Some? ==> count <= |base.value|
    }

    /** The read machine this object is, with the waiting readers given. */
    ghost function Machine(rouse: seq<Sid>): Stream.Reader
      requires Readable()
      reads this
    {
      Stream.Reader(started, reading, closing, closed, if base.Some? then Some(base.value[..count]) else None,
                    size, rouse, received, callers, log)
    }

    /** The read machine this object is, with the waiting readers as the cells give them. */
    ghost function AsReader(st: State): Stream.Reader
      requires Readable() && id < |st.conds|
      reads this
    {
      Machine(st.conds[id])
    }

    /** `luvL_stream_start`; `refused` is what `uv_read_start` would return. */
    method ReadStart(refused: bool) returns (failed: bool)
      modifies this`started, this`reading
      ensures started && failed == (refused && !old(started))
      ensures reading == if old(started) then old(reading) else !refused
    {
      failed := false;
      if !started {
        started, reading := true, !refused;
        failed := refused;
      }
    }

    /** `luvL_stream_stop`. */
    method ReadStop()
      modifies this`started, this`reading
      ensures !started && reading == (old(reading) && !old(started))
    {
      if started { started, reading := false, false; }
    }

    /** `luv_stream_start`. */
    method Start(refused: bool, ghost st: State)
      requires Readable() && Attached(st)
      modifies this
      ensures Readable() && Attached(st) && AsReader(st) == Stream.DoStart(old(AsReader(st)), refused)
    {
      var failed := ReadStart(refused);
      if failed {
        ReadStop();
        closing := true;
      }
      assert unchanged(links) && unchanged(links.cells);
    }

    /** Take the first state off the list, give it `vs` as its only values and make it ready, if there is
        one. */
    method Serve(vs: seq<Item>, st: State) returns (t: State, served: bool)
      requires Attached(st) && Servable(st, id)
      modifies links`family, links.cells
      ensures t == AnswerFirst(st, id, vs) && Attached(t)
      ensures served <==> st.conds[id] != []
      ensures t.conds[id] == if served then st.conds[id][1..] else []
    {
      links.BareWaiters(st, id);
      served := !links.Bare(L.CondList(id));
      t := st;
      if served { t := ServeFirst(vs, st); }
    }

    method ServeFirst(vs: seq<Item>, st: State) returns (t: State)
      requires Attached(st) && Servable(st, id) && st.conds[id] != []
      modifies links`family, links.cells
      ensures t == Answer(st, id, vs) && Attached(t) && t.conds[id] == st.conds[id][1..]
    {
      L.ListsKnown(st);
      var s := links.First(L.CondList(id), L.ListsOf(st));
      var u := SetStack(st, s, vs);
      AnswerSteps(st, id, vs, u);
      AnswerTakes(st, id, vs);
      L.SameLists(st, u);
      t := Scheduler.Rouse(u, OnCond(id));
      links.Rouse(OnCond(id), u);
    }

    /** `luvL_cond_signal` on the list. */
    method SignalFirst(st: State) returns (t: State)
      requires Attached(st) && Servable(st, id)
      modifies links`family, links.cells
      ensures t == Scheduler.Signal(st, id) && Attached(t)
      ensures t.conds[id] == if st.conds[id] != [] then st.conds[id][1..] else []
    {
      links.BareWaiters(st, id);
      t := st;
      if !links.Bare(L.CondList(id)) {
        SignalTakes(st, id);
        t := Scheduler.Rouse(st, OnCond(id));
        links.Rouse(OnCond(id), st);
      }
    }

    /** `luvL_cond_wait` of the running state on the list. */
    method WaitHere(st: State) returns (t: State)
      requires Attached(st) && ListsOk(st) && Known(st, st.curr) && NotParked(st, st.curr)
      modifies links`family, links.cells
      ensures t == Park(st, OnCond(id)) && Attached(t) && t.conds[id] == st.conds[id] + [st.curr]
    {
      ParkPlaces(st, OnCond(id));
      t := Park(st, OnCond(id));
      assert ListAt(t, OnCond(id)) == st.conds[id] + [st.curr];
      links.Wait(id, st);
    }

    ghost method Log(s: Sid, a: Stream.Answer)
      modifies this`log
      ensures log == old(log) + [Stream.Delivery(s, a)]
    {
      log := log + [Stream.Delivery(s, a)];
    }

    /** The fields after a `read` that finds the stream closed, or bytes kept from before. */
    method TakeKept(s: Sid, ghost rouse: seq<Sid>) returns (a: Stream.Answer)
      requires Readable() && (closing || base.Some?)
      modifies this
      ensures Readable() && a == (if old(closing) then Stream.Refused else Stream.Chunk(old(base).value[..old(count)]))
      ensures forall len, refused :: Machine(rouse) == Stream.DoRead(old(Machine(rouse)), s, len, refused)
    {
      callers := callers + [s];
      if closing {
        a := Stream.Refused;
      } else {
        a := Stream.Chunk(base.value[..count]);
        base, size, count := None, 0, 0;
      }
      Log(s, a);
    }

    /** The fields after a `read` that has to wait. */
    method AskForMore(s: Sid, len: nat, refused: bool, ghost rouse: seq<Sid>)
      requires Readable() && !closing && base.None?
      modifies this
      ensures Readable() && Machine(rouse + [s]) == Stream.DoRead(old(Machine(rouse)), s, len, refused)
    {
      callers := callers + [s];
      size := len;
      if !started { var _ := ReadStart(refused); }
    }

    /** `luv_stream_read` called by the running state. The start it makes may be refused without notice. */
    method Read(len: nat, refused: bool, show: Show, st: State) returns (t: State)
      requires Readable() && Attached(st) && ListsOk(st) && ListKnown(st, OnCond(id)) && Known(st, st.curr)
      requires closing || base.Some? || NotParked(st, st.curr)
      modifies this, links`family, links.cells
      ensures Readable() && Attached(t)
      ensures t == StreamStep(st, old(AsReader(st)), id, show, Stream.Read(st.curr, len, refused))
      ensures AsReader(t) == Stream.DoRead(old(AsReader(st)), st.curr, len, refused)
    {
      if closing || base.Some? {
        var a := TakeKept(st.curr, st.conds[id]);
        assert unchanged(links) && unchanged(links.cells);
        t := Push(st, st.curr, show(a));
        L.SameLists(st, t);
      } else {
        AskForMore(st.curr, len, refused, st.conds[id]);
        assert unchanged(links) && unchanged(links.cells);
        t := WaitHere(st);
      }
    }

    /** The fields after bytes have come. */
    method Received(len: nat, block: seq<byte>, served: bool, ghost rouse: seq<Sid>, ghost rest: seq<Sid>)
      requires Readable() && len <= |block| == size && (served <==> rouse != [])
      requires rest == if served then rouse[1..] else []
      modifies this
      ensures Readable() && Machine(rest) == Stream.DoReceive(old(Machine(rouse)), block[..len])
    {
      received := received + block[..len];
      if !served {
        ReadStop();
        base, size, count := Some(block), |block|, len;
      } else {
        Log(rouse[0], Stream.Chunk(block[..len]));
        if len == 0 { ReadStop(); }
      }
    }

    /** `_read_cb` with `len` not negative: that many bytes were read into the block `block`, which the
        allocation callback had made; `vs` is what they look like on a Lua stack. */
    method ReadCallback(len: nat, block: seq<byte>, vs: seq<Item>, st: State) returns (t: State)
      requires Readable() && Attached(st) && Servable(st, id) && len <= |block| == size
      modifies this, links`family, links.cells
      ensures Readable() && Attached(t) && t == AnswerFirst(st, id, vs)
      ensures AsReader(t) == Stream.DoReceive(old(AsReader(st)), block[..len])
    {
      var served;
      t, served := Serve(vs, st);
      label served:
      Received(len, block, served, st.conds[id], t.conds[id]);
      assert unchanged@served(links) && unchanged@served(links.cells);
    }

    /** The fields after the end of the file. */
    method Ended(ghost more: bool, served: bool, ghost rouse: seq<Sid>)
      requires Readable() && (served <==> rouse != [])
      modifies this
      ensures Readable() && Machine(if served then rouse[1..] else []) == Stream.DoReceiveEof(old(Machine(rouse)), more)
    {
      reading := reading && more;
      if served { Log(rouse[0], Stream.Eof); } else { ReadStop(); }
    }

    /** `_read_cb` at the end of the file; `more` says whether libuv goes on reading. */
    method ReadEof(ghost more: bool, vs: seq<Item>, st: State) returns (t: State)
      requires Readable() && Attached(st) && Servable(st, id)
      modifies this, links`family, links.cells
      ensures Readable() && Attached(t) && t == AnswerFirst(st, id, vs)
      ensures AsReader(t) == Stream.DoReceiveEof(old(AsReader(st)), more)
    {
      var served;
      t, served := Serve(vs, st);
      label served:
      Ended(more, served, st.conds[id]);
      assert unchanged@served(links) && unchanged@served(links.cells);
    }

    /** The fields after an error. */
    method Errored(served: bool, ghost rouse: seq<Sid>)
      requires Readable() && (served <==> rouse != [])
      modifies this
      ensures Readable() && Machine(if served then rouse[1..] else []) == Stream.DoReceiveError(old(Machine(rouse)))
    {
      ReadStop();
      if served {
        Log(rouse[0], Stream.Failed);
        closing := true;
      }
    }

    /** `_read_cb` on an error. */
    method ReadError(vs: seq<Item>, st: State) returns (t: State)
      requires Readable() && Attached(st) && Servable(st, id)
      modifies this, links`family, links.cells
      ensures Readable() && Attached(t) && t == AnswerFirst(st, id, vs)
      ensures AsReader(t) == Stream.DoReceiveError(old(AsReader(st)))
    {
      var served;
      t, served := Serve(vs, st);
      label served:
      Errored(served, st.conds[id]);
      assert unchanged@served(links) && unchanged@served(links.cells);
    }

    /** `luvL_object_close_cb`. */
    method CloseCallback(st: State) returns (t: State)
      requires Readable() && Attached(st) && Servable(st, id)
      modifies this, links`family, links.cells
      ensures Readable() && Attached(t) && t == Scheduler.Signal(st, id)
      ensures AsReader(t) == Stream.DoCloseDone(old(AsReader(st)))
    {
      closed := true;
      if st.conds[id] != [] { Log(st.conds[id][0], Stream.Woken); }
      assert unchanged(links) && unchanged(links.cells);
      t := SignalFirst(st);
    }

    // Accepting

    /** The accept machine this object is, with the parked acceptors given, or as the cells give them. */
    ghost function Acceptor(rouse: seq<Sid>): Accept.Listener
      reads this
    {
      Accept.Listener(waiting, count, rouse, connections, callers, accepts)
    }

    ghost function AsListener(st: State): Accept.Listener
      requires id < |st.conds|
      reads this
    {
      Acceptor(st.conds[id])
    }

    /** The fields after a connection has come; `served` says whether an acceptor was waiting for it. */
    method Connected(ok: bool, ghost rouse: seq<Sid>) returns (served: bool)
      requires waiting ==> rouse != []
      modifies this
      ensures served == old(waiting)
      ensures Acceptor(if served then rouse[1..] else rouse) == Accept.DoConnect(old(Acceptor(rouse)), ok)
    {
      connections := connections + 1;
      served := waiting;
      if served {
        accepts := accepts + [Accept.Outcome(rouse[0], ok)];
        waiting := false;
      } else {
        count := count + 1;
      }
    }

    /** `_listen_cb`. */
    method ListenCallback(ok: bool, error: seq<Item>, st: State) returns (t: State)
      requires Attached(st) && Servable(st, id) && Known(st, st.curr) && (waiting ==> st.conds[id] != [])
      modifies this, links`family, links.cells
      ensures Attached(t) && t == AcceptStep(st, old(AsListener(st)), id, error, Accept.Connect(ok))
      ensures AsListener(t) == Accept.DoConnect(old(AsListener(st)), ok)
    {
      var served := Connected(ok, st.conds[id]);
      assert unchanged(links) && unchanged(links.cells);
      t := st;
      if served {
        if ok { t := SignalFirst(st); } else { t := ServeFirst(error, st); }
      }
    }

    /** The fields after a call of `accept`; `parked` says whether the caller has to wait. */
    method Asked(s: Sid, ok: bool, ghost rouse: seq<Sid>) returns (parked: bool)
      modifies this
      ensures parked == (old(count) == 0)
      ensures Acceptor(if parked then rouse + [s] else rouse) == Accept.DoAccept(old(Acceptor(rouse)), s, ok)
    {
      callers := callers + [s];
      parked := count == 0;
      if parked {
        waiting := true;
      } else {
        count := count - 1;
        accepts := accepts + [Accept.Outcome(s, ok)];
      }
    }

    /** `luv_stream_accept` called by the running state. */
    method AcceptCall(ok: bool, error: seq<Item>, st: State) returns (t: State)
      requires Attached(st) && ListsOk(st) && ListKnown(st, OnCond(id)) && Known(st, st.curr)
      requires count == 0 ==> NotParked(st, st.curr)
      modifies this, links`family, links.cells
      ensures Attached(t) && t == AcceptStep(st, old(AsListener(st)), id, error, Accept.Accept(st.curr, ok))
      ensures AsListener(t) == Accept.DoAccept(old(AsListener(st)), st.curr, ok)
    {
      var parked := Asked(st.curr, ok, st.conds[id]);
      assert unchanged(links) && unchanged(links.cells);
      if parked {
        t := WaitHere(st);
      } else {
        t := if ok then st else SetStack(st, st.curr, error);
        L.SameLists(st, t);
      }
    }

    // Everything together

    /** The thread and this stream as one machine. */
    ghost function Both(st: State): Joint
      requires Readable() && id < |st.conds|
      reads this
    {
      Joint(st, AsReader(st))
    }

    /** One step of the stream, on the cells. */
    method FollowStream(sop: Stream.Op, block: seq<byte>, show: Show, st: State) returns (t: State)
      requires Readable() && Attached(st) && Coupled(Both(st), id) && Possible(Both(st), id, OnStream(sop))
      requires sop.Receive? ==> |block| == size && sop.bytes <= block
      modifies this, links`family, links.cells
      ensures Readable() && Attached(t) && ListKnown(st, OnCond(id)) && Known(st, st.curr)
      ensures Both(t) == JointStep(old(Both(st)), id, show, OnStream(sop))
    {
      InvServable(st, id);
      match sop {
        case Read(s, len, refused) => t := Read(len, refused, show, st);
        case Start(refused) => Start(refused, st); t := st;
        case Stop => ReadStop(); t := st;
        case Receive(bytes) =>
          assert block[..|bytes|] == bytes;
          t := ReadCallback(|bytes|, block, show(Stream.Chunk(bytes)), st);
        case ReceiveEof(more) => t := ReadEof(more, show(Stream.Eof), st);
        case ReceiveError => t := ReadError(show(Stream.Failed), st);
        case CloseDone => t := CloseCallback(st);
      }
    }

    /** One step of the thread or of the stream, on the cells. */
    method Follow(jop: JointOp, block: seq<byte>, show: Show, st: State) returns (t: State)
      requires Readable() && Attached(st) && Coupled(Both(st), id) && Possible(Both(st), id, jop)
      requires jop.OnStream? && jop.sop.Receive? ==> |block| == size && jop.sop.bytes <= block
      modifies this, links, links.cells
      ensures Readable() && Attached(t) && ListKnown(st, OnCond(id)) && Known(st, st.curr)
      ensures Both(t) == JointStep(old(Both(st)), id, show, jop) && Coupled(Both(t), id)
      ensures fresh(links.cells - old(links.cells))
    {
      StepCoupled(Both(st), id, show, jop);
      match jop {
        case Sched(op) =>
          SchedKeeps(st, op, id);
          t := Step(st, op);
          links.Follow(op, st);
        case OnStream(sop) =>
          t := FollowStream(sop, block, show, st);
      }
    }

    /** The thread and this stream, which listens, as one machine. */
    ghost function Lobby(st: State): StreamThread.Lobby
      requires id < |st.conds|
      reads this
    {
      StreamThread.Lobby(st, AsListener(st))
    }

    /** One step of the listener, on the cells. */
    method FollowListener(lop: Accept.Op, error: seq<Item>, st: State) returns (t: State)
      requires Attached(st) && LobbyCoupled(Lobby(st), id) && LobbyPossible(Lobby(st), id, OnListener(lop))
      modifies this, links`family, links.cells
      ensures Attached(t) && Lobby(t) == LobbyStep(old(Lobby(st)), id, error, OnListener(lop))
    {
      InvServable(st, id);
      match lop {
        case Connect(ok) => t := ListenCallback(ok, error, st);
        case Accept(s, ok) => t := AcceptCall(ok, error, st);
      }
    }

    /** One step of the thread or of the listener, on the cells. */
    method FollowLobby(bop: LobbyOp, error: seq<Item>, st: State) returns (t: State)
      requires Attached(st) && LobbyCoupled(Lobby(st), id) && LobbyPossible(Lobby(st), id, bop)
      modifies this, links, links.cells
      ensures Attached(t) && Lobby(t) == LobbyStep(old(Lobby(st)), id, error, bop)
      ensures fresh(links.cells - old(links.cells))
    {
      match bop {
        case Elsewhere(op) =>
          SchedKeeps(st, op, id);
          t := Step(st, op);
          links.Follow(op, st);
        case OnListener(lop) =>
          t := FollowListener(lop, error, st);
      }
    }

    // Whole runs

    /** The first step of a run. */
    method FollowFirst(ops: seq<JointOp>, show: Show, st: State) returns (t: State)
      requires Readable() && Attached(st) && Coupled(Both(st), id) && Feasible(Both(st), id, show, ops) && ops != []
      modifies this, links, links.cells
      ensures Readable() && Attached(t) && Coupled(Both(t), id) && Feasible(Both(t), id, show, ops[1..])
      ensures Last(Both(t), id, show, ops[1..]) == Last(old(Both(st)), id, show, ops)
      ensures fresh(links.cells - old(links.cells))
    {
      var op := ops[0];
      var block := if op.OnStream? && op.sop.Receive? then Block(op.sop.bytes, size) else [];
      t := Follow(op, block, show, st);
    }

    /** Any run of fibers, callbacks and reads, done on the object and the cells, is the run of the coupled
        machine. */
    method SimulateReads(ops: seq<JointOp>, show: Show, st: State) returns (t: State)
      requires Readable() && Attached(st) && Coupled(Both(st), id) && Feasible(Both(st), id, show, ops)
      modifies this, links, links.cells
      ensures Readable() && Attached(t) && Coupled(Both(t), id)
      ensures Both(t) == Last(old(Both(st)), id, show, ops)
      ensures fresh(links.cells - old(links.cells))
    {
      t := st;
      var rest := ops;
      while rest != []
        invariant Readable() && Attached(t) && fresh(links.cells - old(links.cells))
        invariant Coupled(Both(t), id) && Feasible(Both(t), id, show, rest)
        invariant Last(Both(t), id, show, rest) == Last(old(Both(st)), id, show, ops)
        decreases |rest|
      {
        t := FollowFirst(rest, show, t);
        rest := rest[1..];
      }
    }

    /** The first step of a run with a listener. */
    method FollowFirstLobby(ops: seq<LobbyOp>, error: seq<Item>, st: State) returns (t: State)
      requires Attached(st) && LobbyCoupled(Lobby(st), id) && LobbyFeasible(Lobby(st), id, error, ops) && ops != []
      modifies this, links, links.cells
      ensures Attached(t) && LobbyCoupled(Lobby(t), id) && LobbyFeasible(Lobby(t), id, error, ops[1..])
      ensures LobbyLast(Lobby(t), id, error, ops[1..]) == LobbyLast(old(Lobby(st)), id, error, ops)
      ensures fresh(links.cells - old(links.cells))
    {
      t := FollowLobby(ops[0], error, st);
    }

    /** The same for fibers, callbacks, connections and calls of `accept`. */
    method SimulateAccepts(ops: seq<LobbyOp>, error: seq<Item>, st: State) returns (t: State)
      requires Attached(st) && LobbyCoupled(Lobby(st), id) && LobbyFeasible(Lobby(st), id, error, ops)
      modifies this, links, links.cells
      ensures Attached(t) && Lobby(t) == LobbyLast(old(Lobby(st)), id, error, ops)
      ensures fresh(links.cells - old(links.cells))
    {
      t := st;
      var rest := ops;
      while rest != []
        invariant Attached(t) && fresh(links.cells - old(links.cells))
        invariant LobbyCoupled(Lobby(t), id) && LobbyFeasible(Lobby(t), id, error, rest)
        invariant LobbyLast(Lobby(t), id, error, rest) == LobbyLast(old(Lobby(st)), id, error, ops)
        decreases |rest|
      {
        t := FollowFirstLobby(rest, error, t);
        rest := rest[1..];
      }
    }
  }
}
