/** The lists of the scheduler as link cells: src/luv.h:122-133 gives every state four of them, and
    the scheduler threads its ready queue, its lists of joiners and its condition lists through
    different members. */
module Links {
  import opened Options
  import opened Scheduler
  import opened SchedulerInv
  import opened SchedulerSteps
  import opened SchedulerRuns
  import opened Queue

  /** The lists there are: the ready queue, the joiners of a fiber, the waiters of a condition. */
  datatype ListId = ReadyList | JoinList(f: nat) | CondList(c: nat)

  type Lists = map<ListId, seq<Sid>>

  function MemberOf(l: ListId): Member
  {
    match l
    case ReadyList => QueueMember
    case JoinList(_) => JoinMember
    case CondList(_) => CondMember
  }

  function Owning(l: ListId): Owner
  {
    match l
    case ReadyList => OfState(Main)
    case JoinList(f) => OfState(Fib(f))
    case CondList(c) => OfObject(c)
  }

  function Fibers(q: seq<nat>): (r: seq<Sid>)
    ensures |r| == |q| && forall i :: 0 <= i < |q| ==> r[i] == Fib(q[i])
  {
    if q == [] then [] else [Fib(q[0])] + Fibers(q[1..])
  }

  function Keys(n: nat, m: nat): set<ListId>
  {
    {ReadyList} + (set f: nat | f < n :: JoinList(f)) + (set c: nat | c < m :: CondList(c))
  }

  predicate Exists(st: State, l: ListId)
  {
    match l
    case ReadyList => true
    case JoinList(f) => f < |st.fibers|
    case CondList(c) => c < |st.conds|
  }

  function Contents(st: State, l: ListId): seq<Sid>
    requires Exists(st, l)
  {
    match l
    case ReadyList => Fibers(st.queue)
    case JoinList(f) => st.fibers[f].joiners
    case CondList(c) => st.conds[c]
  }

  /** The lists of a scheduler state. */
  function ListsOf(st: State): Lists
  {
    map l | l in Keys(|st.fibers|, |st.conds|) :: Contents(st, l)
  }

  lemma ListsKnown(st: State)
    ensures forall l :: l in ListsOf(st) <==> Exists(st, l)
    ensures forall l :: l in ListsOf(st) ==> ListsOf(st)[l] == Contents(st, l)
  {
  }

  lemma SameLists(st: State, t: State)
    requires |t.fibers| == |st.fibers| && t.conds == st.conds && t.queue == st.queue
    requires forall f :: 0 <= f < |st.fibers| ==> t.fibers[f].joiners == st.fibers[f].joiners
    ensures ListsOf(t) == ListsOf(st)
  {
  }

  function ListIdOf(p: Place): ListId
  {
    if p.OnCond? then CondList(p.c) else JoinList(p.f)
  }

  lemma ReadyLists(st: State, f: nat)
    requires f < |st.fibers| && !st.fibers[f].ready
    ensures ListsOf(FiberReady(st, f)) == ListsOf(st)[ReadyList := ListsOf(st)[ReadyList] + [Fib(f)]]
  {
    QueueLists(st, FiberReady(st, f), st.queue + [f]);
    assert Fibers(st.queue + [f]) == Fibers(st.queue) + [Fib(f)];
  }

  /** Only the ready queue changes. */
  lemma QueueLists(st: State, t: State, q: seq<nat>)
    requires |t.fibers| == |st.fibers| && t.conds == st.conds && t.queue == q
    requires forall f :: 0 <= f < |st.fibers| ==> t.fibers[f].joiners == st.fibers[f].joiners
    ensures ListsOf(t) == ListsOf(st)[ReadyList := Fibers(q)]
  {
  }

  /** Only the list at `p` changes. */
  lemma PlaceLists(st: State, t: State, p: Place)
    requires PlaceKnown(st, p) && |t.fibers| == |st.fibers| && |t.conds| == |st.conds|
    requires OtherLists(st, t, p) && t.queue == st.queue
    ensures ListsOf(t) == ListsOf(st)[ListIdOf(p) := ListAt(t, p)]
  {
    var a, b := ListsOf(t), ListsOf(st)[ListIdOf(p) := ListAt(t, p)];
    assert forall l :: l in a <==> l in b;
    forall l | l in a ensures a[l] == b[l] {
      if l.JoinList? { assert PlaceKnown(st, OnJoin(l.f)); }
      if l.CondList? { assert PlaceKnown(st, OnCond(l.c)); }
    }
  }

  /** `s` is on none of the lists that run through the same member of its structure as `l` does. */
  predicate Loose(lists: Lists, s: Sid, l: ListId)
  {
    forall k :: k in lists && MemberOf(k) == MemberOf(l) ==> s !in lists[k]
  }

  lemma UnqueuedIsLoose(st: State, f: nat)
    requires f !in st.queue
    ensures Loose(ListsOf(st), Fib(f), ReadyList)
  {
  }

  /** A state that is not parked is on no list of joiners and on no condition list. */
  lemma UnparkedIsLoose(st: State, s: Sid, p: Place)
    requires ListsOk(st) && Known(st, s) && NotParked(st, s)
    ensures Loose(ListsOf(st), s, ListIdOf(p))
  {
    var lists := ListsOf(st);
    forall k | k in lists && MemberOf(k) == MemberOf(ListIdOf(p)) ensures s !in lists[k] {
      if k.JoinList? { assert ListOk(st, OnJoin(k.f)); }
      if k.CondList? { assert ListOk(st, OnCond(k.c)); }
    }
  }

  lemma InsertLists(st: State, p: Place)
    requires ListsOk(st) && Known(st, st.curr) && NotParked(st, st.curr) && PlaceKnown(st, p)
    ensures var lists, l := ListsOf(st), ListIdOf(p);
            l in lists && Loose(lists, st.curr, l) && ListsOf(Insert(st, p)) == lists[l := lists[l] + [st.curr]]
  {
    UnparkedIsLoose(st, st.curr, p);
    InsertPlaces(st, p);
    PlaceLists(st, Insert(st, p), p);
  }

  /** The state after the head has left the list at `p`, before it is made ready. */
  function Taken(st: State, p: Place): State
    requires PlaceKnown(st, p) && ListAt(st, p) != [] && Known(st, ListAt(st, p)[0])
  {
    SetAt(SetList(st, p, ListAt(st, p)[1..]), ListAt(st, p)[0], None)
  }

  /** The head of the list at `p` is not in the ready queue without its flag being set. */
  predicate Rousable(st: State, p: Place)
    requires PlaceKnown(st, p)
  {
    && ListAt(st, p) != [] && Known(st, ListAt(st, p)[0])
    && var s := ListAt(st, p)[0]; s.Fib? && !st.fibers[s.id].ready ==> s.id !in st.queue
  }

  lemma InvRousable(st: State, p: Place)
    requires FibersOk(st) && PlaceKnown(st, p) && ListAt(st, p) != [] && Known(st, ListAt(st, p)[0])
    ensures Rousable(st, p)
  {
    var s := ListAt(st, p)[0];
    if s.Fib? { assert FiberOk(st, s.id); }
  }

  lemma TakenElsewhere(st: State, p: Place)
    requires PlaceKnown(st, p) && Rousable(st, p)
    ensures var t := Taken(st, p);
            && |t.fibers| == |st.fibers| && |t.conds| == |st.conds| && t.queue == st.queue
            && OtherLists(st, t, p) && ListAt(t, p) == ListAt(st, p)[1..]
  {
    var a := SetList(st, p, ListAt(st, p)[1..]);
    SetListPlaces(st, p, ListAt(st, p)[1..], a);
    SetAtPlaces(a, ListAt(st, p)[0], None, Taken(st, p));
  }

  lemma TakenLists(st: State, p: Place)
    requires PlaceKnown(st, p) && Rousable(st, p)
    ensures var lists, l, t, s := ListsOf(st), ListIdOf(p), Taken(st, p), ListAt(st, p)[0];
            && l in lists && lists[l] == ListAt(st, p) && ListsOf(t) == lists[l := lists[l][1..]]
            && Known(t, s) && (s.Fib? && !t.fibers[s.id].ready ==> s.id !in t.queue)
            && Rouse(st, p) == StateReady(t, s)
  {
    TakenElsewhere(st, p);
    PlaceLists(st, Taken(st, p), p);
  }

  lemma CreateLists(st: State)
    ensures ListsOf(Create(st)) == ListsOf(st)[JoinList(|st.fibers|) := []]
  {
  }

  lemma NewCondLists(st: State)
    requires Enabled(st, DoNewCond)
    ensures ListsOf(Step(st, DoNewCond)) == ListsOf(st)[CondList(|st.conds|) := []]
  {
  }

  lemma TurnLists(st: State)
    requires st.queue != [] && forall i :: 0 <= i < |st.queue| ==> st.queue[i] < |st.fibers|
    ensures ListsOf(Turn(st)) == ListsOf(st)[ReadyList := ListsOf(st)[ReadyList][1..]]
    ensures ReadyList in ListsOf(st) && ListsOf(st)[ReadyList] != []
  {
    assert Fibers(st.queue[1..]) == Fibers(st.queue)[1..];
    QueueLists(st, Turn(st), st.queue[1..]);
  }

  lemma YieldLists(st: State)
    requires Inv(st) && Enabled(st, DoYield)
    ensures ListsOf(Yield(st)) == ListsOf(st)[ReadyList := ListsOf(st)[ReadyList] + [st.curr]]
    ensures ReadyList in ListsOf(st) && Loose(ListsOf(st), st.curr, ReadyList) && st.fibers[st.curr.id].ready
  {
    assert FiberOk(st, st.curr.id);
    assert Fibers(st.queue + [st.curr.id]) == Fibers(st.queue) + [st.curr];
    QueueLists(st, Yield(st), st.queue + [st.curr.id]);
    UnqueuedIsLoose(st, st.curr.id);
  }

  lemma SuspendLists(st: State, t: State)
    requires Known(st, st.curr) && t == Suspend(st)
    ensures ListsOf(t) == ListsOf(st)
  {
    SuspendPlaces(st);
    SameLists(st, t);
  }

  /** Joining a live fiber: the running state goes on its list, then the fiber is made ready. */
  lemma JoinLists(st: State, f: nat)
    requires FibersOk(st) && f < |st.fibers| && Known(st, st.curr) && st.curr != Fib(f) && !st.fibers[f].dead
    ensures var t := Insert(st, OnJoin(f));
            && ListsOf(Join(st, f)) == ListsOf(FiberReady(t, f))
            && f < |t.fibers| && (!t.fibers[f].ready ==> f !in t.queue)
  {
    assert FiberOk(st, f);
    var u := FiberReady(Insert(st, OnJoin(f)), f);
    SuspendLists(u, Suspend(u));
    SameLists(Suspend(u), Join(st, f));
  }

  lemma CallLists(st: State, s: Sid)
    requires FibersOk(st) && Known(st, s)
    ensures var t := st.(calls := st.calls - multiset{s});
            && ListsOf(t) == ListsOf(st) && Known(t, s) && (s.Fib? && !t.fibers[s.id].ready ==> s.id !in t.queue)
  {
    if s.Fib? { assert FiberOk(st, s.id); }
    SameLists(st, st.(calls := st.calls - multiset{s}));
  }

  lemma ExitLists(st: State, vs: seq<Item>)
    requires Inv(st) && Enabled(st, DoExit(vs))
    ensures var f := st.curr.id; var t := SetStack(st, Fib(f), vs);
            && ListsOf(t) == ListsOf(st) && Ending(t, f)
            && ListsOf(Exit(st, vs)) == ListsOf(WakeJoiners(t, f, vs))
  {
    var f := st.curr.id;
    var t := SetStack(st, Fib(f), vs);
    StacksInv(st, t, None);
    SameLists(st, t);
    assert ListAt(t, OnJoin(f)) == ListAt(st, OnJoin(f));
    WakeJoinersInv(t, f, vs);
    SameLists(WakeJoiners(t, f, vs), Exit(st, vs));
  }

  lemma FireLists(st: State, c: nat, status: Item)
    requires Rousing(st, c) && AllKnown(st, st.conds[c])
    ensures var t := SetStacks(st, st.conds[c], [status]);
            ListsOf(t) == ListsOf(st) && Rousing(t, c) && Fire(st, c, status) == Broadcast(t, c)
  {
    var t := SetStacks(st, st.conds[c], [status]);
    SetStacksKeeps(st, st.conds[c], [status]);
    StacksInv(st, t, None);
    SameLists(st, t);
    assert ListAt(t, OnCond(c)) == ListAt(st, OnCond(c));
  }

  ghost predicate Rousing(st: State, c: nat)
  {
    Inv(st) && c < |st.conds| && ListKnown(st, OnCond(c))
  }

  lemma BroadcastTurn(st: State, c: nat, t: State)
    requires Rousing(st, c) && st.conds[c] != [] && t == Rouse(st, OnCond(c))
    ensures Rousing(t, c) && |t.conds[c]| < |st.conds[c]| && Broadcast(t, c) == Broadcast(st, c)
  {
    RouseInv(st, OnCond(c), None);
    RouseLists(st, OnCond(c));
  }

  ghost predicate Ending(st: State, f: nat)
  {
    InvDuring(st, Some(f)) && f < |st.fibers| && st.curr == Fib(f) && ListKnown(st, OnJoin(f))
  }

  /** Waking the joiners of `f` one by one takes only states that can be roused, and leads to `goal`. */
  predicate Drains(st: State, f: nat, vs: seq<Item>, goal: State)
    decreases if f < |st.fibers| then |st.fibers[f].joiners| else 0
  {
    && f < |st.fibers| && ListKnown(st, OnJoin(f))
    && if st.fibers[f].joiners == [] then st == goal
       else
         && Rousable(st, OnJoin(f))
         && var u := WakeOne(st, f, vs);
            f < |u.fibers| && u.fibers[f].joiners == st.fibers[f].joiners[1..] && Drains(u, f, vs, goal)
  }

  lemma {:induction false} EndingDrains(st: State, f: nat, vs: seq<Item>)
    requires Ending(st, f)
    ensures Drains(st, f, vs, WakeJoiners(st, f, vs))
    decreases |st.fibers[f].joiners|
  {
    if st.fibers[f].joiners != [] {
      var u := WakeOne(st, f, vs);
      InvRousable(st, OnJoin(f));
      WakeStep(st, f, vs, u);
      EndingDrains(u, f, vs);
    }
  }

  lemma WakeOneLists(st: State, f: nat, vs: seq<Item>, t: State)
    requires f < |st.fibers| && ListKnown(st, OnJoin(f)) && Rousable(st, OnJoin(f)) && t == WakeOne(st, f, vs)
    ensures ListsOf(t) == ListsOf(Rouse(st, OnJoin(f)))
  {
    SameLists(Rouse(st, OnJoin(f)), t);
  }

  /** The four link cells of a state. */
  class Record {
    const rouse: Node
    const queue: Node
    const join: Node
    const cond: Node

    constructor (s: Sid)
      ensures Owns(this, s) && fresh(rouse) && fresh(queue) && fresh(join) && fresh(cond)
      ensures IsList(rouse, [])
    {
      var r := new Node(OfState(s), RouseMember);
      var q := new Node(OfState(s), QueueMember);
      var j := new Node(OfState(s), JoinMember);
      var c := new Node(OfState(s), CondMember);
      rouse, queue, join, cond := r, q, j, c;
    }
  }

  predicate Tagged(x: Node, o: Owner, m: Member) { x.owner == o && x.member == m }

  predicate Owns(r: Record, s: Sid)
  {
    && Tagged(r.rouse, OfState(s), RouseMember)
    && Tagged(r.queue, OfState(s), QueueMember)
    && Tagged(r.join, OfState(s), JoinMember)
    && Tagged(r.cond, OfState(s), CondMember)
  }

  /** Where the link cells are: those of the thread, of the fibers, and the list heads of objects. */
  datatype Table = Table(main: Record, fibers: seq<Record>, conds: seq<Node>) {

    predicate Has(s: Sid)
    {
      s.Fib? ==> s.id < |fibers|
    }

    function RecordOf(s: Sid): Record
      requires Has(s)
    {
      if s.Main? then main else fibers[s.id]
    }

    predicate HasList(l: ListId)
    {
      match l
      case ReadyList => true
      case JoinList(f) => f < |fibers|
      case CondList(c) => c < |conds|
    }

    function HeadOf(l: ListId): Node
      requires HasList(l)
    {
      match l
      case ReadyList => main.rouse
      case JoinList(f) => fibers[f].rouse
      case CondList(c) => conds[c]
    }

    /** The cell of `s` that links it into the list `l`. */
    function CellOf(s: Sid, l: ListId): Node
      requires Has(s)
    {
      match l
      case ReadyList => RecordOf(s).queue
      case JoinList(_) => RecordOf(s).join
      case CondList(_) => RecordOf(s).cond
    }

    ghost predicate StateOk(s: Sid, m: set<Node>)
      requires Has(s)
    {
      var r := RecordOf(s);
      Owns(r, s) && r.rouse in m && r.queue in m && r.join in m && r.cond in m
    }

    ghost predicate Layout(m: set<Node>)
    {
      && (forall s :: Has(s) ==> StateOk(s, m))
      && (forall c :: 0 <= c < |conds| ==> Tagged(conds[c], OfObject(c), RouseMember) && conds[c] in m)
    }

    /** The cells `xs` are those of the states `l`, in order. */
    ghost predicate CellsAre(xs: seq<Node>, l: ListId, states: seq<Sid>)
    {
      |xs| == |states| && forall i :: 0 <= i < |xs| ==> Has(states[i]) && xs[i] == CellOf(states[i], l)
    }

    /** The list with head `h`, by the structure the head lies in. */
    function ListFor(h: Node): ListId
    {
      match h.owner
      case OfState(Main) => ReadyList
      case OfState(Fib(f)) => JoinList(f)
      case OfObject(c) => CondList(c)
    }

    ghost predicate Kept(lists: Lists, m: set<Node>)
    {
      Layout(m) && forall l :: l in lists <==> HasList(l)
    }

    ghost predicate Within(w: Family, m: set<Node>)
    {
      w.Keys <= m && forall h, x :: h in w && x in w[h] ==> x in m
    }

    /** The cells linked behind the head of `l` are those of the states on that list. */
    ghost predicate Shown(w: Family, lists: Lists, l: ListId)
      requires l in lists && HasList(l)
    {
      HeadOf(l) in w && CellsAre(w[HeadOf(l)], l, lists[l])
    }

    ghost predicate Heads(w: Family, lists: Lists, m: set<Node>)
      requires Kept(lists, m)
    {
      && (forall l :: l in lists ==> Shown(w, lists, l))
      && (forall h :: h in w ==> ListFor(h) in lists && h == HeadOf(ListFor(h)))
    }

    lemma HeadTag(l: ListId, m: set<Node>)
      requires Layout(m) && HasList(l)
      ensures Tagged(HeadOf(l), Owning(l), RouseMember) && HeadOf(l) in m
    {
      if l.ReadyList? { assert Has(Main) && StateOk(Main, m); }
      if l.JoinList? { assert Has(Fib(l.f)) && StateOk(Fib(l.f), m); }
    }

    lemma CellTag(s: Sid, l: ListId, m: set<Node>)
      requires Layout(m) && Has(s)
      ensures Tagged(CellOf(s, l), OfState(s), MemberOf(l)) && CellOf(s, l) in m
    {
      assert StateOk(s, m);
    }

    lemma HeadsDiffer(l: ListId, k: ListId, m: set<Node>)
      requires Layout(m) && HasList(l) && HasList(k) && l != k
      ensures HeadOf(l) != HeadOf(k)
    {
      HeadTag(l, m);
      HeadTag(k, m);
    }

    /** Only the list `l` changes. */
    lemma OneList(lists: Lists, m: set<Node>, w: Family, l: ListId, states: seq<Sid>, xs: seq<Node>)
      requires Kept(lists, m) && Heads(w, lists, m) && Within(w, m) && l in lists && CellsAre(xs, l, states)
      ensures var v, ls := w[HeadOf(l) := xs], lists[l := states];
              Kept(ls, m) && Heads(v, ls, m) && Within(v, m)
    {
      var h := HeadOf(l);
      var v, ls := w[h := xs], lists[l := states];
      assert Kept(ls, m);
      HeadTag(l, m);
      forall k | k in ls ensures Shown(v, ls, k) {
        assert Shown(w, lists, k);
        if k != l { HeadsDiffer(k, l, m); }
      }
      forall k, x | k in v && x in v[k] ensures x in m {
        if k == h {
          var i :| 0 <= i < |xs| && xs[i] == x;
          CellTag(states[i], l, m);
        }
      }
    }

    lemma OneLess(lists: Lists, m: set<Node>, w: Family, l: ListId)
      requires Kept(lists, m) && Heads(w, lists, m) && Within(w, m)
      requires l in lists && lists[l] != [] && Shown(w, lists, l)
      ensures var v, ls := w[HeadOf(l) := Without(w[HeadOf(l)], 0)], lists[l := lists[l][1..]];
              Kept(ls, m) && Heads(v, ls, m) && Within(v, m)
    {
      var xs := w[HeadOf(l)];
      assert Without(xs, 0) == xs[1..];
      assert CellsAre(xs[1..], l, lists[l][1..]);
      OneList(lists, m, w, l, lists[l][1..], xs[1..]);
    }

    lemma HasAll(st: State, s: Sid, m: set<Node>)
      requires Kept(ListsOf(st), m) && Known(st, s)
      ensures Has(s)
    {
      if s.Fib? { assert JoinList(s.id) in ListsOf(st); }
    }

    lemma Sizes(st: State, m: set<Node>)
      requires Kept(ListsOf(st), m)
      ensures |fibers| == |st.fibers| && |conds| == |st.conds|
    {
      var lists := ListsOf(st);
      assert JoinList(|st.fibers|) !in lists && CondList(|st.conds|) !in lists;
      assert JoinList(|fibers|) !in lists && CondList(|conds|) !in lists;
    }

    /** One more fiber, with its own cells. */
    lemma OneFiber(lists: Lists, m: set<Node>, w: Family, r: Record)
      requires Kept(lists, m) && Heads(w, lists, m) && Within(w, m) && Owns(r, Fib(|fibers|)) && r.rouse !in m
      ensures var t, m', v, ls := this.(fibers := fibers + [r]), m + {r.rouse, r.queue, r.join, r.cond},
                w[r.rouse := []], lists[JoinList(|fibers|) := []];
              t.Kept(ls, m') && t.Heads(v, ls, m') && t.Within(v, m') && Free(w, r.rouse)
    {
      var t, m' := this.(fibers := fibers + [r]), m + {r.rouse, r.queue, r.join, r.cond};
      var v, ls := w[r.rouse := []], lists[JoinList(|fibers|) := []];
      forall s | t.Has(s) ensures t.StateOk(s, m') {
        if s != Fib(|fibers|) { assert Has(s) && StateOk(s, m); }
      }
      forall l | l in ls ensures t.HasList(l) && t.Shown(v, ls, l) {
        if l != JoinList(|fibers|) { assert Shown(w, lists, l) && t.HeadOf(l) == HeadOf(l); }
      }
      assert t.Kept(ls, m');
    }

    lemma OneCond(lists: Lists, m: set<Node>, w: Family, h: Node)
      requires Kept(lists, m) && Heads(w, lists, m) && Within(w, m)
      requires Tagged(h, OfObject(|conds|), RouseMember) && h !in m
      ensures var t, m', v, ls := this.(conds := conds + [h]), m + {h}, w[h := []], lists[CondList(|conds|) := []];
              t.Kept(ls, m') && t.Heads(v, ls, m') && t.Within(v, m') && Free(w, h)
    {
      var t, m' := this.(conds := conds + [h]), m + {h};
      var v, ls := w[h := []], lists[CondList(|conds|) := []];
      forall s | t.Has(s) ensures t.StateOk(s, m') { assert Has(s) && StateOk(s, m); }
      forall l | l in ls ensures t.HasList(l) && t.Shown(v, ls, l) {
        if l != CondList(|conds|) { assert Shown(w, lists, l) && t.HeadOf(l) == HeadOf(l); }
      }
      assert t.Kept(ls, m');
    }
  }

  class Links {
    var table: Table
    ghost var cells: set<Node>
    ghost var family: Family

    constructor ()
      ensures Shows(ListsOf(Init())) && fresh(cells)
    {
      var m := new Record(Main);
      table := Table(m, [], []);
      cells := {m.rouse, m.queue, m.join, m.cond};
      family := map[m.rouse := []];
      new;
      assert forall l :: l in ListsOf(Init()) <==> l == ReadyList;
      assert table.CellsAre([], ReadyList, ListsOf(Init())[ReadyList]);
      assert forall s :: table.Has(s) ==> s == Main;
    }

    /** The link cells on the heap form exactly the given lists. */
    ghost predicate Shows(lists: Lists)
      reads this, cells
    {
      table.Within(family, cells) && AllLists(family) && table.Kept(lists, cells) && table.Heads(family, lists, cells)
    }

    /** The cell of a state that is on no list of the kind is free. */
    lemma LooseIsFree(lists: Lists, s: Sid, l: ListId)
      requires Shows(lists) && table.Has(s) && Loose(lists, s, l)
      ensures Free(family, table.CellOf(s, l))
    {
      var x := table.CellOf(s, l);
      table.CellTag(s, l, cells);
      forall h | h in family ensures !Holds(family, h, x) {
        var k := table.ListFor(h);
        table.HeadTag(k, cells);
        assert table.Shown(family, lists, k);
        forall i | 0 <= i < |family[h]| ensures family[h][i] != x { table.CellTag(lists[k][i], k, cells); }
      }
    }

    lemma EndsWithin(lists: Lists, l: ListId)
      requires Shows(lists) && l in lists
      ensures var h := table.HeadOf(l); h in family && h in cells && h.prev in cells
      ensures table.CellsAre(family[table.HeadOf(l)], l, lists[l])
    {
      assert table.Shown(family, lists, l);
      Ends(table.HeadOf(l), family[table.HeadOf(l)]);
    }

    /** The first cell of a list lies in the first state on it. */
    lemma HeadWithin(lists: Lists, l: ListId)
      requires Shows(lists) && l in lists && lists[l] != []
      ensures table.HeadOf(l) in family && table.CellsAre(family[table.HeadOf(l)], l, lists[l])
      ensures IsList(table.HeadOf(l), family[table.HeadOf(l)])
      ensures var x := family[table.HeadOf(l)][0]; x.owner == OfState(lists[l][0]) && x.prev in cells && x.next in cells
    {
      assert table.Shown(family, lists, l);
      table.CellTag(lists[l][0], l, cells);
      Between(table.HeadOf(l), family[table.HeadOf(l)], 0);
    }

    /** Insert the cell of a state at the tail of a list. */
    method Insert(s: Sid, l: ListId, ghost lists: Lists)
      requires Shows(lists) && l in lists && table.Has(s) && Loose(lists, s, l)
      modifies this`family, cells
      ensures Shows(lists[l := lists[l] + [s]])
    {
      ghost var w := family;
      var h, x := table.HeadOf(l), table.CellOf(s, l);
      table.CellTag(s, l, cells);
      LooseIsFree(lists, s, l);
      EndsWithin(lists, l);
      table.OneList(lists, cells, w, l, lists[l] + [s], w[h] + [x]);
      family := w[h := w[h] + [x]];
      Queue.InsertTail(h, x, w);
    }

    /** Remove the cell at the head of a list; `ngx_queue_data` gives the state it lies in. */
    method Take(l: ListId, ghost lists: Lists) returns (s: Sid)
      requires Shows(lists) && l in lists && lists[l] != []
      modifies this`family, cells
      ensures Shows(lists[l := lists[l][1..]]) && s == lists[l][0]
    {
      ghost var w := family;
      var h := table.HeadOf(l);
      HeadWithin(lists, l);
      Ends(h, w[h]);
      var x := h.next;
      s := x.owner.s;
      table.OneLess(lists, cells, w, l);
      family := w[h := Without(w[h], 0)];
      Queue.Remove(x, w, h, 0);
    }

    /** The state whose cell is at the head of a list. */
    method First(l: ListId, ghost lists: Lists) returns (s: Sid)
      requires Shows(lists) && l in lists && lists[l] != []
      ensures s == lists[l][0]
    {
      HeadWithin(lists, l);
      var x := Queue.Head(table.HeadOf(l), family[table.HeadOf(l)]);
      s := x.owner.s;
    }

    /** `ngx_queue_empty`. */
    predicate Bare(l: ListId)
      requires table.HasList(l)
      reads this, table.HeadOf(l)
    {
      table.HeadOf(l) == table.HeadOf(l).prev
    }

    lemma BareWaiters(st: State, c: nat)
      requires Shows(ListsOf(st)) && c < |st.conds|
      ensures table.HasList(CondList(c)) && (Bare(CondList(c)) <==> st.conds[c] == [])
    {
      BareIsEmpty(ListsOf(st), CondList(c));
    }

    lemma BareIsEmpty(lists: Lists, l: ListId)
      requires Shows(lists) && l in lists
      ensures Bare(l) <==> lists[l] == []
    {
      assert table.Shown(family, lists, l);
      Ends(table.HeadOf(l), family[table.HeadOf(l)]);
    }

    /** `luvL_state_ready`: a fiber not yet ready goes to the end of the queue. */
    method Ready(s: Sid, st: State)
      requires Shows(ListsOf(st)) && Known(st, s) && (s.Fib? && !st.fibers[s.id].ready ==> s.id !in st.queue)
      modifies this`family, cells
      ensures Shows(ListsOf(StateReady(st, s)))
    {
      if s.Fib? && !st.fibers[s.id].ready {
        UnqueuedIsLoose(st, s.id);
        ReadyLists(st, s.id);
        table.HasAll(st, s, cells);
        Insert(s, ReadyList, ListsOf(st));
      } else {
        SameLists(st, StateReady(st, s));
      }
    }

    /** Insert the running state into the list at `p`. */
    method Park(p: Place, st: State)
      requires Shows(ListsOf(st)) && ListsOk(st) && Known(st, st.curr) && NotParked(st, st.curr)
      requires PlaceKnown(st, p)
      modifies this`family, cells
      ensures Shows(ListsOf(Scheduler.Insert(st, p)))
    {
      InsertLists(st, p);
      table.HasAll(st, st.curr, cells);
      Insert(st.curr, ListIdOf(p), ListsOf(st));
    }

    /** Take the head off a list and make it ready; `t` is the state in between. */
    method MoveHead(l: ListId, ghost lists: Lists, t: State)
      requires Shows(lists) && l in lists && lists[l] != [] && ListsOf(t) == lists[l := lists[l][1..]]
      requires var s := lists[l][0]; Known(t, s) && (s.Fib? && !t.fibers[s.id].ready ==> s.id !in t.queue)
      modifies this`family, cells
      ensures Shows(ListsOf(StateReady(t, lists[l][0])))
    {
      var s := Take(l, lists);
      Ready(s, t);
    }

    /** Take the head off the list at `p` and make it ready. */
    method Rouse(p: Place, st: State)
      requires Shows(ListsOf(st)) && PlaceKnown(st, p) && Rousable(st, p)
      modifies this`family, cells
      ensures Shows(ListsOf(Scheduler.Rouse(st, p)))
    {
      TakenLists(st, p);
      MoveHead(ListIdOf(p), ListsOf(st), Taken(st, p));
    }

    lemma BareJoiners(st: State, f: nat)
      requires Shows(ListsOf(st)) && f < |st.fibers|
      ensures table.HasList(JoinList(f)) && (Bare(JoinList(f)) <==> st.fibers[f].joiners == [])
    {
      BareIsEmpty(ListsOf(st), JoinList(f));
    }

    /** `luvL_cond_broadcast` on the cells. */
    method Broadcast(c: nat, st: State)
      requires Shows(ListsOf(st)) && Rousing(st, c)
      modifies this`family, cells
      ensures Shows(ListsOf(Scheduler.Broadcast(st, c)))
    {
      var t := st;
      BareWaiters(t, c);
      while !Bare(CondList(c))
        invariant Shows(ListsOf(t)) && Rousing(t, c) && table.HasList(CondList(c))
        invariant Bare(CondList(c)) <==> t.conds[c] == []
        invariant Scheduler.Broadcast(t, c) == Scheduler.Broadcast(st, c)
        decreases |t.conds[c]|
      {
        t := RouseWaiter(c, t);
        BareWaiters(t, c);
      }
    }

    method RouseWaiter(c: nat, st: State) returns (t: State)
      requires Shows(ListsOf(st)) && Rousing(st, c) && st.conds[c] != []
      modifies this`family, cells
      ensures Shows(ListsOf(t)) && Rousing(t, c)
      ensures |t.conds[c]| < |st.conds[c]| && Scheduler.Broadcast(t, c) == Scheduler.Broadcast(st, c)
    {
      t := Scheduler.Rouse(st, OnCond(c));
      BroadcastTurn(st, c, t);
      InvRousable(st, OnCond(c));
      Rouse(OnCond(c), st);
    }

    /** The loop over the joiners of an ending fiber, on the cells. */
    method WakeJoiners(f: nat, vs: seq<Item>, st: State)
      requires Shows(ListsOf(st)) && Ending(st, f)
      modifies this`family, cells
      ensures Shows(ListsOf(Scheduler.WakeJoiners(st, f, vs)))
    {
      EndingDrains(st, f, vs);
      WakeLoop(f, vs, st, Scheduler.WakeJoiners(st, f, vs));
    }

    method WakeLoop(f: nat, vs: seq<Item>, st: State, ghost goal: State)
      requires Shows(ListsOf(st)) && Drains(st, f, vs, goal)
      modifies this`family, cells
      ensures Shows(ListsOf(goal))
    {
      BareJoiners(st, f);
      var t, empty := st, Bare(JoinList(f));
      while !empty
        invariant Shows(ListsOf(t)) && Drains(t, f, vs, goal) && (empty <==> t.fibers[f].joiners == [])
        decreases |t.fibers[f].joiners|
      {
        t, empty := WakeJoiner(f, vs, t, goal);
      }
    }

    method WakeJoiner(f: nat, vs: seq<Item>, st: State, ghost goal: State) returns (t: State, empty: bool)
      requires Shows(ListsOf(st)) && Drains(st, f, vs, goal) && st.fibers[f].joiners != []
      modifies this`family, cells
      ensures Shows(ListsOf(t)) && Drains(t, f, vs, goal) && |t.fibers[f].joiners| < |st.fibers[f].joiners|
      ensures empty <==> t.fibers[f].joiners == []
    {
      t := WakeOne(st, f, vs);
      WakeOneLists(st, f, vs, t);
      Rouse(OnJoin(f), st);
      BareJoiners(t, f);
      empty := Bare(JoinList(f));
    }

    /** `luvL_fiber_create`: four new cells, and an empty list of joiners. */
    method Create(ghost lists: Lists)
      requires Shows(lists)
      modifies this
      ensures Shows(lists[JoinList(|old(table.fibers)|) := []]) && fresh(cells - old(cells))
      ensures table.conds == old(table.conds) && |table.fibers| == |old(table.fibers)| + 1
    {
      var r := new Record(Fib(|table.fibers|));
      AddFiber(r, lists);
    }

    method AddFiber(r: Record, ghost lists: Lists)
      requires Shows(lists) && Owns(r, Fib(|table.fibers|)) && r.rouse !in cells && IsList(r.rouse, [])
      modifies this
      ensures Shows(lists[JoinList(|old(table.fibers)|) := []])
      ensures cells == old(cells) + {r.rouse, r.queue, r.join, r.cond}
      ensures table == old(table).(fibers := old(table).fibers + [r])
    {
      table.OneFiber(lists, cells, family, r);
      NewHead(family, r.rouse);
      table := table.(fibers := table.fibers + [r]);
      cells := cells + {r.rouse, r.queue, r.join, r.cond};
      family := family[r.rouse := []];
    }

    /** A condition, or the list `rouse` of a timer or a stream. */
    method NewCond(ghost lists: Lists)
      requires Shows(lists)
      modifies this
      ensures Shows(lists[CondList(|old(table.conds)|) := []]) && fresh(cells - old(cells))
    {
      var h := new Node(OfObject(|table.conds|), RouseMember);
      AddCond(h, lists);
    }

    method AddCond(h: Node, ghost lists: Lists)
      requires Shows(lists) && Tagged(h, OfObject(|table.conds|), RouseMember) && h !in cells && IsList(h, [])
      modifies this
      ensures Shows(lists[CondList(|old(table.conds)|) := []]) && cells == old(cells) + {h}
    {
      table.OneCond(lists, cells, family, h);
      NewHead(family, h);
      table := table.(conds := table.conds + [h]);
      cells := cells + {h};
      family := family[h := []];
    }

    /** `luvL_cond_signal` on the cells. */
    method Signal(c: nat, st: State)
      requires Shows(ListsOf(st)) && Rousing(st, c)
      modifies this`family, cells
      ensures Shows(ListsOf(Scheduler.Signal(st, c)))
    {
      BareWaiters(st, c);
      if !Bare(CondList(c)) {
        InvRousable(st, OnCond(c));
        Rouse(OnCond(c), st);
      }
    }

    /** `_timer_cb` on the cells: a walk over the waiters, then the broadcast. */
    method Timer(c: nat, status: Item, st: State) returns (visited: seq<Sid>)
      requires Shows(ListsOf(st)) && Rousing(st, c) && AllKnown(st, st.conds[c])
      modifies this`family, cells
      ensures Shows(ListsOf(Fire(st, c, status))) && visited == st.conds[c]
    {
      ListsKnown(st);
      visited := Walk(CondList(c), ListsOf(st));
      FireLists(st, c, status);
      Broadcast(c, SetStacks(st, st.conds[c], [status]));
    }

    /** `ngx_queue_foreach` over a list: the states met, by way of their cells. */
    method Walk(l: ListId, ghost lists: Lists) returns (met: seq<Sid>)
      requires Shows(lists) && l in lists
      ensures met == lists[l]
    {
      EndsWithin(lists, l);
      var xs := Queue.Foreach(table.HeadOf(l), family[table.HeadOf(l)]);
      met := [];
      for i := 0 to |xs|
        invariant met == lists[l][..i]
      {
        table.CellTag(lists[l][i], l, cells);
        met := met + [xs[i].owner.s];
      }
    }

    /** `luv_fiber_join` on the cells. */
    method Join(f: nat, st: State)
      requires Shows(ListsOf(st)) && Inv(st) && Enabled(st, DoJoin(f)) && Allowed(st, DoJoin(f))
      modifies this`family, cells
      ensures Shows(ListsOf(Scheduler.Join(st, f)))
    {
      if st.fibers[f].dead {
        SameLists(st, Scheduler.Join(st, f));
      } else {
        JoinLists(st, f);
        Park(OnJoin(f), st);
        Ready(Fib(f), Scheduler.Insert(st, OnJoin(f)));
      }
    }

    /** `luvL_cond_wait` on the cells. */
    method Wait(c: nat, st: State)
      requires Shows(ListsOf(st)) && ListsOk(st) && Known(st, st.curr) && NotParked(st, st.curr) && c < |st.conds|
      modifies this`family, cells
      ensures Shows(ListsOf(Scheduler.Park(st, OnCond(c))))
    {
      SameLists(Scheduler.Insert(st, OnCond(c)), Scheduler.Park(st, OnCond(c)));
      Park(OnCond(c), st);
    }

    /** A fiber still ready goes to the end of the queue. */
    method Yield(st: State)
      requires Shows(ListsOf(st)) && Inv(st) && Enabled(st, DoYield)
      modifies this`family, cells
      ensures Shows(ListsOf(Scheduler.Yield(st)))
    {
      YieldLists(st);
      table.HasAll(st, st.curr, cells);
      Insert(st.curr, ReadyList, ListsOf(st));
    }

    /** The first half of `luvL_thread_once`. */
    method Turn(st: State)
      requires Shows(ListsOf(st)) && Enabled(st, DoTurn)
      modifies this`family, cells
      ensures Shows(ListsOf(Scheduler.Turn(st)))
    {
      if st.queue != [] {
        TurnLists(st);
        var _ := Take(ReadyList, ListsOf(st));
      } else {
        SameLists(st, Scheduler.Turn(st));
      }
    }

    /** A callback registered by a state for itself. */
    method Call(s: Sid, st: State)
      requires Shows(ListsOf(st)) && FibersOk(st) && Known(st, s)
      modifies this`family, cells
      ensures Shows(ListsOf(Scheduler.Call(st, s)))
    {
      CallLists(st, s);
      Ready(s, st.(calls := st.calls - multiset{s}));
    }

    /** The calls of Lua code that change no cells but links. */
    method FollowCall(op: Op, st: State)
      requires Shows(ListsOf(st)) && Inv(st) && Enabled(st, op) && Allowed(st, op)
      requires op.DoReady? || op.DoJoin? || op.DoWait? || op.DoSleep? || op.DoSignal? || op.DoBroadcast?
      modifies this`family, cells
      ensures Shows(ListsOf(Step(st, op)))
    {
      match op {
        case DoReady(f) =>
          assert FiberOk(st, f);
          Ready(Fib(f), st);
        case DoJoin(f) => Join(f, st);
        case DoWait(c) => Wait(c, st);
        case DoSleep => SameLists(st, Sleep(st));
        case DoSignal(c) => Signal(c, st);
        case DoBroadcast(c) => Broadcast(c, st);
      }
    }

    /** Steps of the loop and callbacks. */
    method FollowLoop(op: Op, st: State)
      requires Shows(ListsOf(st)) && Inv(st) && Enabled(st, op)
      requires op.DoYield? || op.DoExit? || op.DoTurn? || op.Wake? || op.OnSignal? || op.OnTimer? || op.DoLeave?
      modifies this`family, cells
      ensures Shows(ListsOf(Step(st, op)))
    {
      match op {
        case DoYield => Yield(st);
        case DoExit(vs) =>
          ExitLists(st, vs);
          WakeJoiners(st.curr.id, vs, SetStack(st, st.curr, vs));
        case DoTurn => Turn(st);
        case Wake(s) => Call(s, st);
        case OnSignal(c) => Signal(c, st);
        case OnTimer(c, status) =>
          assert ListKnown(st, OnCond(c));
          var _ := Timer(c, status, st);
        case DoLeave(active) => SameLists(st, Leave(st, active));
      }
    }

    /** What one step of the scheduler does to the link cells. */
    method Follow(op: Op, st: State)
      requires Shows(ListsOf(st)) && Inv(st) && Enabled(st, op) && Allowed(st, op)
      modifies this, cells
      ensures Shows(ListsOf(Step(st, op))) && fresh(cells - old(cells))
    {
      if op.DoCreate? {
        table.Sizes(st, cells);
        CreateLists(st);
        Create(ListsOf(st));
      } else if op.DoNewCond? {
        table.Sizes(st, cells);
        NewCondLists(st);
        NewCond(ListsOf(st));
      } else if op.DoReady? || op.DoJoin? || op.DoWait? || op.DoSleep? || op.DoSignal? || op.DoBroadcast? {
        FollowCall(op, st);
      } else {
        FollowLoop(op, st);
      }
    }
  }

  /** Along every allowed run from the start, the link cells form exactly the scheduler's lists, and
      no two lists share a cell. */
  method Simulate(ops: seq<Op>) returns (links: Links, st: State)
    requires Legal(Init(), ops)
    ensures Runs(Init(), ops) && st == Exec(Init(), ops) && links.Shows(ListsOf(st)) && Apart(links.family)
  {
    links := new Links();
    st := Init();
    var rest := ops;
    InitInv();
    RunKeeps(st, ops);
    while rest != []
      invariant fresh(links) && fresh(links.cells)
      invariant Legal(st, rest) && Runs(st, rest) && Inv(st) && links.Shows(ListsOf(st))
      invariant Exec(st, rest) == Exec(Init(), ops)
      decreases |rest|
    {
      StepKeeps(st, rest[0]);
      links.Follow(rest[0], st);
      st := Step(st, rest[0]);
      rest := rest[1..];
    }
  }
}
