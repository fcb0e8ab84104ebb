/** Every step of the scheduler keeps the invariant, exactly under the conditions stated. */
module SchedulerSteps {
  import opened Options
  import opened Scheduler
  import opened SchedulerInv

  lemma NoDupAppend<T>(s: seq<T>, x: T)
    requires NoDup(s) && x !in s
    ensures NoDup(s + [x])
  {
  }

  lemma NoDupTail<T>(s: seq<T>)
    requires NoDup(s) && s != []
    ensures NoDup(s[1..]) && s[0] !in s[1..] && forall x :: x in s[1..] <==> x in s && x != s[0]
  {
    forall x | x in s && x != s[0] ensures x in s[1..] {
      var i :| 0 <= i < |s| && s[i] == x;
      assert s[1..][i - 1] == x;
    }
  }

  // Lists

  /** Only state `s` may have moved. */
  ghost predicate Moved(st: State, t: State, s: Sid)
  {
    && |t.fibers| == |st.fibers| && |t.conds| == |st.conds| && Known(st, s)
    && forall x :: Known(st, x) && x != s ==> At(t, x) == At(st, x)
  }

  /** The lists at all places but `p` are as before. */
  ghost predicate OtherLists(st: State, t: State, p: Place)
    requires |t.fibers| == |st.fibers| && |t.conds| == |st.conds|
  {
    forall q :: PlaceKnown(st, q) && q != p ==> ListAt(t, q) == ListAt(st, q)
  }

  lemma ListUntouched(st: State, t: State, s: Sid, q: Place)
    requires Moved(st, t, s) && PlaceKnown(st, q) && ListOk(st, q) && ListAt(t, q) == ListAt(st, q)
    requires At(st, s) != Some(q) && At(t, s) != Some(q)
    ensures ListOk(t, q)
  {
  }

  lemma ListLonger(st: State, t: State, s: Sid, q: Place)
    requires Moved(st, t, s) && PlaceKnown(st, q) && ListOk(st, q) && ListAt(t, q) == ListAt(st, q) + [s]
    requires At(st, s) != Some(q) && At(t, s) == Some(q)
    ensures ListOk(t, q)
  {
    assert s !in ListAt(st, q);
    NoDupAppend(ListAt(st, q), s);
  }

  lemma ListShorter(st: State, t: State, s: Sid, q: Place)
    requires Moved(st, t, s) && PlaceKnown(st, q) && ListOk(st, q)
    requires ListAt(st, q) != [] && ListAt(st, q)[0] == s && ListAt(t, q) == ListAt(st, q)[1..]
    requires At(t, s) != Some(q)
    ensures ListOk(t, q)
  {
    NoDupTail(ListAt(st, q));
  }

  /** `s`, which was parked nowhere, is appended to the list at `p`. */
  lemma ListsParked(st: State, t: State, s: Sid, p: Place)
    requires ListsOk(st) && Moved(st, t, s) && OtherLists(st, t, p) && PlaceKnown(st, p)
    requires At(st, s).None? && At(t, s) == Some(p)
    requires ListAt(t, p) == ListAt(st, p) + [s]
    ensures ListsOk(t)
  {
    forall c | 0 <= c < |t.conds| ensures ListOk(t, OnCond(c)) {
      if p == OnCond(c) { ListLonger(st, t, s, p); } else { ListUntouched(st, t, s, OnCond(c)); }
    }
    forall f | 0 <= f < |t.fibers| ensures ListOk(t, OnJoin(f)) {
      if p == OnJoin(f) { ListLonger(st, t, s, p); } else { ListUntouched(st, t, s, OnJoin(f)); }
    }
  }

  /** `s`, the first on the list at `p`, is taken off. */
  lemma ListsRoused(st: State, t: State, s: Sid, p: Place)
    requires ListsOk(st) && Moved(st, t, s) && OtherLists(st, t, p) && PlaceKnown(st, p)
    requires At(st, s) == Some(p) && At(t, s).None?
    requires ListAt(st, p) != [] && ListAt(st, p)[0] == s && ListAt(t, p) == ListAt(st, p)[1..]
    ensures ListsOk(t)
  {
    forall c | 0 <= c < |t.conds| ensures ListOk(t, OnCond(c)) {
      if p == OnCond(c) { ListShorter(st, t, s, p); } else { ListUntouched(st, t, s, OnCond(c)); }
    }
    forall f | 0 <= f < |t.fibers| ensures ListOk(t, OnJoin(f)) {
      if p == OnJoin(f) { ListShorter(st, t, s, p); } else { ListUntouched(st, t, s, OnJoin(f)); }
    }
  }

  /** Nothing about places and lists has changed. */
  lemma ListsSame(st: State, t: State)
    requires ListsOk(st) && |t.fibers| == |st.fibers| && t.conds == st.conds && t.mainAt == st.mainAt
    requires forall f :: 0 <= f < |st.fibers| ==>
               t.fibers[f].joiners == st.fibers[f].joiners && t.fibers[f].at == st.fibers[f].at
    ensures ListsOk(t) && (Acyclic(st) ==> Acyclic(t))
  {
    forall c | 0 <= c < |t.conds| ensures ListOk(t, OnCond(c)) { assert ListOk(st, OnCond(c)); }
    forall f | 0 <= f < |t.fibers| ensures ListOk(t, OnJoin(f)) { assert ListOk(st, OnJoin(f)); }
    if Acyclic(st) { FewerWaits(st, t); }
  }

  // Making ready

  predicate NotParked(st: State, s: Sid)
    requires Known(st, s)
  {
    At(st, s).None?
  }

  lemma QueuedMeansRef(st: State)
    requires FibersOk(st) && QueueOk(st) && st.queue != []
    ensures st.asyncRef
  {
    var f := st.queue[0];
    assert f in st.queue && FiberOk(st, f);
  }

  /** Making a fiber ready that is not parked. */
  lemma FiberReadyInv(st: State, f: nat)
    requires Inv(st) && f < |st.fibers| && NotParked(st, Fib(f))
    ensures Inv(FiberReady(st, f))
  {
    var t := FiberReady(st, f);
    assert FiberOk(st, f);
    if !st.fibers[f].ready {
      NoDupAppend(st.queue, f);
      if st.queue != [] { QueuedMeansRef(st); }
      forall g | 0 <= g < |t.fibers| ensures FiberOk(t, g) { assert FiberOk(st, g); }
      ListsSame(st, t);
    }
  }

  // Rousing

  /** What rousing does to places and lists. */
  lemma RousePlaces(st: State, p: Place, s: Sid)
    requires PlaceKnown(st, p) && ListAt(st, p) != [] && s == ListAt(st, p)[0] && Known(st, s)
    ensures var t := Rouse(st, p);
            && Moved(st, t, s) && At(t, s).None? && OtherLists(st, t, p) && ListAt(t, p) == ListAt(st, p)[1..]
  {
    var a := SetList(st, p, ListAt(st, p)[1..]);
    var b := SetAt(a, s, None);
    SetListPlaces(st, p, ListAt(st, p)[1..], a);
    SetAtPlaces(a, s, None, b);
    ReadyPlaces(b, s, StateReady(b, s));
  }

  lemma ReadyPlaces(st: State, s: Sid, t: State)
    requires Known(st, s) && t == StateReady(st, s)
    ensures |t.fibers| == |st.fibers| && |t.conds| == |st.conds|
    ensures (forall x :: Known(st, x) ==> At(t, x) == At(st, x))
    ensures forall q :: PlaceKnown(st, q) ==> ListAt(t, q) == ListAt(st, q)
  {
  }

  /** `u` is `st` with state `s` no longer parked and lists of joiners at most emptied. */
  ghost predicate Unparked(st: State, u: State, s: Sid)
  {
    && Known(st, s) && |u.fibers| == |st.fibers| && |u.conds| == |st.conds| && At(u, s).None?
    && u == st.(fibers := u.fibers, conds := u.conds, mainAt := u.mainAt)
    && (s.Fib? ==> u.mainAt == st.mainAt)
    && forall f :: 0 <= f < |st.fibers| ==> FiberUnparked(st, u, s, f)
  }

  predicate FiberUnparked(st: State, u: State, s: Sid, f: nat)
    requires f < |st.fibers| == |u.fibers|
  {
    && u.fibers[f] == st.fibers[f].(joiners := u.fibers[f].joiners, at := u.fibers[f].at)
    && (u.fibers[f].joiners != [] ==> st.fibers[f].joiners != [])
    && (Fib(f) != s ==> u.fibers[f].at == st.fibers[f].at)
  }

  lemma WokenFibers(st: State, u: State, s: Sid, ending: Option<nat>)
    requires InvDuring(st, ending) && Unparked(st, u, s) && At(st, s).Some?
    ensures FibersOk(StateReady(u, s)) && QueueOk(StateReady(u, s))
  {
    var t := StateReady(u, s);
    if s.Fib? {
      assert FiberOk(st, s.id) && FiberUnparked(st, u, s, s.id);
      NoDupAppend(st.queue, s.id);
    }
    if st.queue != [] { QueuedMeansRef(st); }
    forall g | 0 <= g < |t.fibers| ensures FiberOk(t, g) { assert FiberOk(st, g) && FiberUnparked(st, u, s, g); }
  }

  lemma WokenMain(st: State, u: State, s: Sid, ending: Option<nat>)
    requires InvDuring(st, ending) && Unparked(st, u, s) && At(st, s).Some?
    requires s.Main? && At(st, s).value.OnJoin? ==> ending == Some(At(st, s).value.f)
    ensures MainOk(StateReady(u, s), ending) && Known(StateReady(u, s), StateReady(u, s).curr)
  {
    var t := StateReady(u, s);
    if s.Fib? { assert FiberOk(st, s.id) && FiberUnparked(st, u, s, s.id); }
    if st.copyFrom.Some? { assert FiberUnparked(st, u, s, st.copyFrom.value); }
  }

  lemma RouseUnparked(st: State, p: Place, s: Sid)
    requires PlaceKnown(st, p) && ListAt(st, p) != [] && s == ListAt(st, p)[0] && Known(st, s)
    ensures Unparked(st, SetAt(SetList(st, p, ListAt(st, p)[1..]), s, None), s)
  {
  }

  /** Taking the first state off a list and making it ready. The thread is taken off a list of
      joiners only by the fiber that ends. */
  lemma RouseInv(st: State, p: Place, ending: Option<nat>)
    requires InvDuring(st, ending) && PlaceKnown(st, p) && ListAt(st, p) != []
    requires p.OnJoin? ==> ending == Some(p.f)
    ensures ListOk(st, p) && Known(st, ListAt(st, p)[0]) && InvDuring(Rouse(st, p), ending)
  {
    assert ListOk(st, p);
    var s := ListAt(st, p)[0];
    assert s in ListAt(st, p);
    var u := SetAt(SetList(st, p, ListAt(st, p)[1..]), s, None);
    RouseUnparked(st, p, s);
    WokenFibers(st, u, s, ending);
    WokenMain(st, u, s, ending);
    RouseLinks(st, p, s);
  }

  lemma RouseLinks(st: State, p: Place, s: Sid)
    requires ListsOk(st) && Acyclic(st) && PlaceKnown(st, p) && ListAt(st, p) != [] && s == ListAt(st, p)[0]
    requires Known(st, s) && At(st, s) == Some(p)
    ensures ListsOk(Rouse(st, p)) && Acyclic(Rouse(st, p))
  {
    RousePlaces(st, p, s);
    ListsRoused(st, Rouse(st, p), s, p);
    WakeAcyclic(st, Rouse(st, p), s);
  }

  lemma WakeAcyclic(st: State, t: State, s: Sid)
    requires Acyclic(st) && Moved(st, t, s) && At(t, s).None?
    ensures Acyclic(t)
  {
    FewerWaits(st, t);
  }

  /** Fewer callbacks are due; those that a suspended state needs are still there. */
  lemma CallsInv(st: State, t: State, s: Sid)
    requires Inv(st) && t == st.(calls := st.calls - multiset{s})
    requires s.Fib? ==> s.id < |st.fibers| && st.fibers[s.id].ready
    requires s.Main? ==> st.mainReady
    ensures Inv(t)
  {
    forall g | 0 <= g < |t.fibers| ensures FiberOk(t, g) { assert FiberOk(st, g); }
    ListsSame(st, t);
  }

  lemma ThreadReadyInv(st: State)
    requires Inv(st) && NotParked(st, Main)
    ensures Inv(ThreadReady(st))
  {
    var t := ThreadReady(st);
    forall g | 0 <= g < |t.fibers| ensures FiberOk(t, g) { assert FiberOk(st, g); }
    ListsSame(st, t);
  }

  /** A callback wakes the state it was registered for, if that is on no list. */
  lemma CallInv(st: State, s: Sid)
    requires Inv(st) && Known(st, s) && NotParked(st, s)
    ensures Inv(Call(st, s))
  {
    if s.Fib? { FiberReadyInv(st, s.id); } else { ThreadReadyInv(st); }
    var u := StateReady(st, s);
    CallsInv(u, u.(calls := u.calls - multiset{s}), s);
  }

  /** A running state can always wait for a callback of its own. */
  lemma SleepInv(st: State)
    requires Inv(st) && InLua(st)
    ensures Inv(Sleep(st))
  {
    var t := Sleep(st);
    if st.curr.Fib? { assert FiberOk(st, st.curr.id); }
    forall g | 0 <= g < |t.fibers| ensures FiberOk(t, g) { assert FiberOk(st, g); }
    ListsSame(st, t);
  }

  // Parking

  /** What parking does to places and lists. */
  lemma ParkPlaces(st: State, p: Place)
    requires PlaceKnown(st, p) && Known(st, st.curr)
    ensures var t := Park(st, p);
            && Moved(st, t, st.curr) && At(t, st.curr) == Some(p) && OtherLists(st, t, p)
            && ListAt(t, p) == ListAt(st, p) + [st.curr]
  {
    var u := Insert(st, p);
    InsertPlaces(st, p);
    SuspendPlaces(u);
  }

  lemma InsertPlaces(st: State, p: Place)
    requires PlaceKnown(st, p) && Known(st, st.curr)
    ensures var t := Insert(st, p);
            && Moved(st, t, st.curr) && At(t, st.curr) == Some(p) && OtherLists(st, t, p) && Known(t, t.curr)
            && ListAt(t, p) == ListAt(st, p) + [st.curr] && t.curr == st.curr
  {
    var u := SetList(st, p, ListAt(st, p) + [st.curr]);
    SetListPlaces(st, p, ListAt(st, p) + [st.curr], u);
    SetAtPlaces(u, st.curr, Some(p), Insert(st, p));
  }

  lemma SetListPlaces(st: State, p: Place, l: seq<Sid>, t: State)
    requires PlaceKnown(st, p) && t == SetList(st, p, l)
    ensures |t.fibers| == |st.fibers| && |t.conds| == |st.conds| && t.curr == st.curr && OtherLists(st, t, p)
    ensures (forall s :: Known(st, s) ==> At(t, s) == At(st, s)) && ListAt(t, p) == l
  {
  }

  lemma SetAtPlaces(st: State, s: Sid, p: Option<Place>, t: State)
    requires Known(st, s) && t == SetAt(st, s, p)
    ensures Moved(st, t, s) && At(t, s) == p && t.curr == st.curr
    ensures forall q :: PlaceKnown(st, q) ==> ListAt(t, q) == ListAt(st, q)
  {
  }

  lemma SuspendPlaces(st: State)
    requires Known(st, st.curr)
    ensures var t := Suspend(st);
            && |t.fibers| == |st.fibers| && t.conds == st.conds && t.mainAt == st.mainAt
            && forall f :: 0 <= f < |st.fibers| ==>
                 t.fibers[f].joiners == st.fibers[f].joiners && t.fibers[f].at == st.fibers[f].at
  {
  }

  lemma ParkFibers(st: State, p: Place)
    requires Inv(st) && InLua(st) && PlaceKnown(st, p) && NotParked(st, st.curr)
    requires p.OnJoin? ==> st.curr != Fib(p.f) && st.fibers[p.f].ready && !st.fibers[p.f].dead
    ensures FibersOk(Park(st, p)) && QueueOk(Park(st, p)) && Known(Park(st, p), Park(st, p).curr)
  {
    var t := Park(st, p);
    if st.curr.Fib? { assert FiberOk(st, st.curr.id); }
    forall g | 0 <= g < |t.fibers| ensures FiberOk(t, g) { assert FiberOk(st, g); }
  }

  /** Parking the running state on a condition. */
  lemma ParkInv(st: State, p: Place)
    requires Inv(st) && InLua(st) && PlaceKnown(st, p) && !p.OnJoin? && NotParked(st, st.curr)
    ensures Inv(Park(st, p))
  {
    ParkFibers(st, p);
    ParkPlaces(st, p);
    ListsParked(st, Park(st, p), st.curr, p);
    FewerWaits(st, Park(st, p));
  }

  // Joining

  /** Putting a state on a list and making another fiber ready can be done in either order. */
  lemma JoinIsPark(st: State, f: nat)
    requires f < |st.fibers| && Known(st, st.curr) && st.curr != Fib(f) && !st.fibers[f].dead
    ensures var t := Park(FiberReady(st, f), OnJoin(f));
            Join(st, f) == if st.curr.Main? then t.(copyFrom := Some(f)) else t
  {
    var a, b := FiberReady(Insert(st, OnJoin(f)), f), Insert(FiberReady(st, f), OnJoin(f));
    assert a.fibers == b.fibers;
    assert a == b;
  }

  lemma JoinInv(st: State, f: nat)
    requires Inv(st) && InLua(st) && f < |st.fibers| && st.curr != Fib(f) && !st.fibers[f].dead
    requires NotParked(st, Fib(f)) && NotParked(st, st.curr)
    ensures Inv(Join(st, f))
  {
    JoinIsPark(st, f);
    FiberReadyInv(st, f);
    var u := FiberReady(st, f);
    var t := Park(u, OnJoin(f));
    assert FiberOk(u, f);
    ParkFibers(u, OnJoin(f));
    ParkPlaces(u, OnJoin(f));
    ListsParked(u, t, u.curr, OnJoin(f));
    JoinAcyclic(u, t, u.curr, f);
    JoinLinks(t, Join(st, f));
    JoinMain(u, f);
  }

  lemma JoinAcyclic(u: State, t: State, s: Sid, f: nat)
    requires Acyclic(u) && Moved(u, t, s) && s != Fib(f) && f < |u.fibers| && At(u, Fib(f)).None?
    requires At(t, s) == Some(OnJoin(f))
    ensures Acyclic(t)
  {
    OneMoreWait(u, t, s, f);
  }

  lemma JoinLinks(t: State, v: State)
    requires FibersOk(t) && QueueOk(t) && ListsOk(t) && Acyclic(t) && Known(t, t.curr)
    requires v == t.(copyFrom := v.copyFrom)
    ensures FibersOk(v) && QueueOk(v) && ListsOk(v) && Acyclic(v) && Known(v, v.curr)
  {
    forall g | 0 <= g < |v.fibers| ensures FiberOk(v, g) { assert FiberOk(t, g); }
    ListsSame(t, v);
  }

  lemma JoinMain(u: State, f: nat)
    requires Inv(u) && InLua(u) && f < |u.fibers| && u.curr != Fib(f) && u.fibers[f].ready && !u.fibers[f].dead
    requires NotParked(u, u.curr)
    ensures var t := Park(u, OnJoin(f));
            MainOk(if u.curr.Main? then t.(copyFrom := Some(f)) else t, None)
  {
    assert FiberOk(u, f);
    if u.curr.Fib? { assert FiberOk(u, u.curr.id); }
  }

  // Stacks

  /** `t` differs from `st` at most in the stacks. */
  predicate OnlyStacks(st: State, t: State)
  {
    && |t.fibers| == |st.fibers| && t == st.(fibers := t.fibers, mainStack := t.mainStack)
    && forall f :: 0 <= f < |st.fibers| ==> t.fibers[f] == st.fibers[f].(stack := t.fibers[f].stack)
  }

  lemma StacksInv(st: State, t: State, ending: Option<nat>)
    requires InvDuring(st, ending) && OnlyStacks(st, t)
    ensures InvDuring(t, ending)
  {
    forall g | 0 <= g < |t.fibers| ensures FiberOk(t, g) { assert FiberOk(st, g); }
    ListsSame(st, t);
  }

  // Loops over lists

  lemma {:induction false} BroadcastInv(st: State, c: nat)
    requires Inv(st) && c < |st.conds| && ListKnown(st, OnCond(c))
    ensures Inv(Broadcast(st, c))
    decreases |st.conds[c]|
  {
    if st.conds[c] != [] {
      RouseInv(st, OnCond(c), None);
      RouseLists(st, OnCond(c));
      BroadcastInv(Rouse(st, OnCond(c)), c);
    }
  }

  lemma FireInv(st: State, c: nat, status: Item)
    requires Inv(st) && c < |st.conds| && ListKnown(st, OnCond(c))
    ensures Inv(Fire(st, c, status))
  {
    var t := SetStacks(st, st.conds[c], [status]);
    SetStacksKeeps(st, st.conds[c], [status]);
    StacksInv(st, t, None);
    BroadcastInv(t, c);
  }

  /** The state after one turn of the loop that wakes joiners. */
  function WakeOne(st: State, f: nat, vs: seq<Item>): State
    requires f < |st.fibers| && ListKnown(st, OnJoin(f)) && st.fibers[f].joiners != []
  {
    var s := st.fibers[f].joiners[0];
    var t := Rouse(st, OnJoin(f));
    if s.Fib? then Push(t, s, vs) else t
  }

  lemma WakeStep(st: State, f: nat, vs: seq<Item>, u: State)
    requires InvDuring(st, Some(f)) && f < |st.fibers| && st.curr == Fib(f) && ListKnown(st, OnJoin(f))
    requires st.fibers[f].joiners != [] && u == WakeOne(st, f, vs)
    ensures InvDuring(u, Some(f)) && |u.fibers| == |st.fibers| && u.curr == Fib(f)
    ensures ListKnown(u, OnJoin(f)) && u.fibers[f].joiners == st.fibers[f].joiners[1..]
    ensures WakeJoiners(st, f, vs) == WakeJoiners(u, f, vs)
  {
    RouseInv(st, OnJoin(f), Some(f));
    RouseLists(st, OnJoin(f));
    WakePush(Rouse(st, OnJoin(f)), st.fibers[f].joiners[0], f, vs, u);
  }

  /** The values are pushed after the state has been roused. */
  lemma WakePush(t: State, s: Sid, f: nat, vs: seq<Item>, u: State)
    requires InvDuring(t, Some(f)) && Known(t, s) && f < |t.fibers| && ListKnown(t, OnJoin(f))
    requires u == if s.Fib? then Push(t, s, vs) else t
    ensures InvDuring(u, Some(f)) && |u.fibers| == |t.fibers| && u.curr == t.curr
    ensures ListKnown(u, OnJoin(f)) && u.fibers[f].joiners == t.fibers[f].joiners
  {
    StacksInv(t, u, Some(f));
    assert ListAt(u, OnJoin(f)) == ListAt(t, OnJoin(f));
  }

  lemma {:induction false} WakeJoinersInv(st: State, f: nat, vs: seq<Item>)
    requires InvDuring(st, Some(f)) && f < |st.fibers| && st.curr == Fib(f) && ListKnown(st, OnJoin(f))
    ensures var t := WakeJoiners(st, f, vs);
            && InvDuring(t, Some(f)) && t.curr == Fib(f) && f < |t.fibers| && t.fibers[f].joiners == []
    decreases |st.fibers[f].joiners|
  {
    if st.fibers[f].joiners != [] {
      var u := WakeOne(st, f, vs);
      WakeStep(st, f, vs, u);
      WakeJoinersInv(u, f, vs);
    }
  }

  lemma ExitInv(st: State, vs: seq<Item>)
    requires Inv(st) && InLua(st) && st.curr.Fib? && ListKnown(st, OnJoin(st.curr.id))
    ensures Inv(Exit(st, vs))
  {
    var f := st.curr.id;
    var u := SetStack(st, Fib(f), vs);
    StacksInv(st, u, None);
    assert InvDuring(u, Some(f));
    WakeJoinersInv(u, f, vs);
    CloseInv(WakeJoiners(u, f, vs), f);
  }

  lemma CloseInv(st: State, f: nat)
    requires InvDuring(st, Some(f)) && st.curr == Fib(f) && st.fibers[f].joiners == []
    ensures Inv(Close(st, f))
  {
    var t := Close(st, f);
    assert FiberOk(st, f);
    forall g | 0 <= g < |t.fibers| ensures FiberOk(t, g) { assert FiberOk(st, g); }
    ListsSame(st, t);
  }

  // The rest

  lemma CreateInv(st: State)
    requires Inv(st) && InLua(st)
    ensures Inv(Create(st))
  {
    var t, n := Create(st), |st.fibers|;
    forall g | 0 <= g < |t.fibers| ensures FiberOk(t, g) {
      if g < n { assert FiberOk(st, g); } else { assert g !in st.queue by { if g in st.queue { QueueBelow(st, g); } } }
    }
    assert forall g :: 0 <= g < n ==> t.fibers[g] == st.fibers[g];
    NobodyWaits(st, t);
    forall c | 0 <= c < |t.conds| ensures ListOk(t, OnCond(c)) { assert ListOk(st, OnCond(c)); }
    forall f | 0 <= f < |t.fibers| ensures ListOk(t, OnJoin(f)) {
      if f < n { assert ListOk(st, OnJoin(f)); } else { EmptyList(t, OnJoin(f)); }
    }
    FewerWaits(st, t);
  }

  lemma QueueBelow(st: State, f: nat)
    requires QueueOk(st) && f in st.queue
    ensures f < |st.fibers|
  {
  }

  lemma EmptyList(t: State, p: Place)
    requires PlaceKnown(t, p) && ListAt(t, p) == []
    requires forall s :: Known(t, s) ==> At(t, s) != Some(p)
    ensures ListOk(t, p)
  {
  }

  /** No state waits for a fiber that has only just been made. */
  lemma NobodyWaits(st: State, t: State)
    requires Inv(st) && t == Create(st)
    ensures forall s :: Known(t, s) ==> At(t, s) != Some(OnJoin(|st.fibers|))
  {
    forall s | Known(t, s) ensures At(t, s) != Some(OnJoin(|st.fibers|)) {
      if s.Fib? && s.id < |st.fibers| { assert FiberOk(st, s.id) && t.fibers[s.id] == st.fibers[s.id]; }
    }
  }

  lemma NewCondInv(st: State)
    requires Inv(st) && InLua(st)
    ensures Inv(st.(conds := st.conds + [[]]))
  {
    var t, n := st.(conds := st.conds + [[]]), |st.conds|;
    forall g | 0 <= g < |t.fibers| ensures FiberOk(t, g) { assert FiberOk(st, g); }
    forall c | 0 <= c < |t.conds| ensures ListOk(t, OnCond(c)) {
      if c < n {
        assert ListOk(st, OnCond(c)) && ListAt(t, OnCond(c)) == ListAt(st, OnCond(c));
      } else {
        forall s | Known(t, s) ensures At(t, s) != Some(OnCond(c)) {
          if s.Fib? { assert FiberOk(st, s.id); }
        }
        EmptyList(t, OnCond(c));
      }
    }
    forall f | 0 <= f < |t.fibers| ensures ListOk(t, OnJoin(f)) { assert ListOk(st, OnJoin(f)); }
    FewerWaits(st, t);
  }

  lemma YieldInv(st: State)
    requires Inv(st) && InLua(st) && st.curr.Fib?
    ensures Inv(Yield(st))
  {
    var t, f := Yield(st), st.curr.id;
    assert FiberOk(st, f);
    NoDupAppend(st.queue, f);
    forall g | 0 <= g < |t.fibers| ensures FiberOk(t, g) { assert FiberOk(st, g); }
    ListsSame(st, t);
  }

  lemma TurnInv(st: State)
    requires Inv(st) && st.phase.Looping? && st.curr.Main?
    ensures Inv(Turn(st))
  {
    var t := Turn(st);
    if st.queue != [] {
      var f := st.queue[0];
      assert f in st.queue && FiberOk(st, f);
      NoDupTail(st.queue);
    }
    forall g | 0 <= g < |t.fibers| ensures FiberOk(t, g) { assert FiberOk(st, g); }
    ListsSame(st, t);
  }

  lemma LeaveInv(st: State, active: bool)
    requires Inv(st) && st.phase.Polling? && (st.asyncRef ==> active)
    ensures Inv(Leave(st, active))
  {
    var t := Leave(st, active);
    forall g | 0 <= g < |t.fibers| ensures FiberOk(t, g) { assert FiberOk(st, g); }
    ListsSame(st, t);
  }
}
