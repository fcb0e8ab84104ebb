/** What holds in every state the scheduler can reach. */
module SchedulerInv {
  import opened Options
  import opened Scheduler

  predicate NoDup<T(==)>(s: seq<T>) { forall i, j :: 0 <= i < j < |s| ==> s[i] != s[j] }

  /** The flags of a fiber, its place in the ready queue and where it is parked fit together. */
  predicate FiberOk(st: State, f: nat)
    requires f < |st.fibers|
  {
    var x := st.fibers[f];
    && (x.dead ==> x.ready && x.joiners == [])
    && (x.ready ==> x.at.None? && st.asyncRef)
    && (!x.ready && x.started ==> x.at.Some? || Fib(f) in st.calls)
    && (x.at.Some? ==> x.started && PlaceKnown(st, x.at.value))
    && (f in st.queue <==> x.ready && !x.dead && st.curr != Fib(f))
    && (st.curr == Fib(f) ==> x.ready && x.started && !x.dead)
    && (x.joiners != [] ==> x.ready || x.started)
  }

  /** The thread's flags fit together. `ending` is the fiber that is just handing out its values,
      if any. */
  predicate MainOk(st: State, ending: Option<nat>)
  {
    && !st.phase.Aborted?
    && (st.mainAt.Some? ==> PlaceKnown(st, st.mainAt.value))
    && (st.phase.Running? ==> st.curr.Main? && st.mainReady)
    && (st.phase.Polling? ==> st.curr.Main?)
    && (!st.phase.Running? && st.mainReady ==> st.mainAt.None?)
    && (!st.phase.Running? && !st.mainReady ==> st.mainAt.Some? || Main in st.calls)
    && (st.phase.Looping? && st.mainReady ==> st.asyncPending)
    && (st.phase.Polling? && st.queue != [] ==> st.asyncPending)
    && (st.mainAt.Some? && st.mainAt.value.OnJoin? ==>
          st.copyFrom == Some(st.mainAt.value.f) && st.asyncRef && !st.phase.Running?)
    && (st.copyFrom.Some? ==>
          && !st.phase.Running? && st.copyFrom.value < |st.fibers|
          && (st.mainAt == Some(OnJoin(st.copyFrom.value))
              || (st.mainAt.None? && (st.fibers[st.copyFrom.value].dead || ending == st.copyFrom))))
  }

  /** The list at `p` holds exactly the states parked there, each once. */
  ghost predicate ListOk(st: State, p: Place)
    requires PlaceKnown(st, p)
  {
    && NoDup(ListAt(st, p))
    && forall s :: s in ListAt(st, p) <==> Known(st, s) && At(st, s) == Some(p)
  }

  /** `a` is parked on the list of joiners of `b`. */
  predicate Waits(st: State, a: Sid, b: Sid)
  {
    Known(st, a) && Known(st, b) && b.Fib? && At(st, a) == Some(OnJoin(b.id))
  }

  predicate Link(st: State, p: seq<Sid>, i: int)
    requires 0 <= i < |p| - 1
  {
    Waits(st, p[i], p[i + 1])
  }

  /** A chain of states each of which waits for the next to end. */
  ghost predicate Chain(st: State, p: seq<Sid>)
  {
    |p| > 0 && Known(st, p[0]) && forall i :: 0 <= i < |p| - 1 ==> Link(st, p, i)
  }

  /** No state waits for itself, directly or through others. */
  ghost predicate Acyclic(st: State)
  {
    forall p :: Chain(st, p) && |p| > 1 ==> p[0] != p[|p| - 1]
  }

  predicate QueueOk(st: State)
  {
    NoDup(st.queue) && forall i :: 0 <= i < |st.queue| ==> st.queue[i] < |st.fibers|
  }

  predicate FibersOk(st: State) { forall f :: 0 <= f < |st.fibers| ==> FiberOk(st, f) }

  ghost predicate ListsOk(st: State)
  {
    && (forall c :: 0 <= c < |st.conds| ==> ListOk(st, OnCond(c)))
    && (forall f :: 0 <= f < |st.fibers| ==> ListOk(st, OnJoin(f)))
  }

  ghost predicate InvDuring(st: State, ending: Option<nat>)
  {
    Known(st, st.curr) && QueueOk(st) && FibersOk(st) && MainOk(st, ending) && ListsOk(st) && Acyclic(st)
  }

  ghost predicate Inv(st: State) { InvDuring(st, None) }

  lemma InvShaped(st: State)
    requires Inv(st)
    ensures Shaped(st)
  {
    forall c | 0 <= c < |st.conds| ensures ListKnown(st, OnCond(c)) {
      assert ListOk(st, OnCond(c));
    }
    forall f | 0 <= f < |st.fibers| ensures ListKnown(st, OnJoin(f)) {
      assert ListOk(st, OnJoin(f));
    }
  }

  lemma LinkAt(st: State, p: seq<Sid>, i: int)
    requires Chain(st, p) && 0 <= i < |p| - 1
    ensures Waits(st, p[i], p[i + 1])
  {
    assert Link(st, p, i);
  }

  lemma InitInv()
    ensures Inv(Init())
  {
    assert forall p: seq<Sid> :: Chain(Init(), p) ==> |p| == 1 by {
      forall p: seq<Sid> | Chain(Init(), p) ensures |p| == 1 {
        if |p| > 1 {
          LinkAt(Init(), p, 0);
          assert false;
        }
      }
    }
  }

  // Chains

  lemma ChainTail(st: State, p: seq<Sid>)
    requires Chain(st, p) && |p| > 1
    ensures Chain(st, p[1..])
  {
    LinkAt(st, p, 0);
    forall i | 0 <= i < |p[1..]| - 1 ensures Link(st, p[1..], i) {
      LinkAt(st, p, i + 1);
    }
  }

  /** Taking waits away creates no cycle. */
  lemma FewerWaits(st: State, t: State)
    requires Acyclic(st)
    requires forall a, b :: Waits(t, a, b) ==> Waits(st, a, b)
    ensures Acyclic(t)
  {
    forall p: seq<Sid> | Chain(t, p) && |p| > 1 ensures p[0] != p[|p| - 1] {
      forall i | 0 <= i < |p| - 1 ensures Link(st, p, i) {
        LinkAt(t, p, i);
      }
      assert Link(st, p, 0);
      assert Chain(st, p);
    }
  }

  /** A wait for a state that itself waits for no fiber creates no cycle. */
  lemma OneMoreWait(st: State, t: State, s: Sid, f: nat)
    requires Acyclic(st) && s != Fib(f)
    requires forall a, b :: Waits(t, a, b) ==> Waits(st, a, b) || (a == s && b == Fib(f))
    requires forall b :: !Waits(t, Fib(f), b)
    ensures Acyclic(t)
  {
    forall p: seq<Sid> | Chain(t, p) && |p| > 1 ensures p[0] != p[|p| - 1] {
      if p[0] == p[|p| - 1] {
        forall i | 0 <= i < |p| - 1 ensures Link(st, p, i) {
          LinkAt(t, p, i);
          NextLink(t, p, i, p[i + 1]);
        }
        assert Link(st, p, 0);
        assert Chain(st, p);
      }
    }
  }

  /** In a cycle, every state waits. */
  lemma NextLink(t: State, p: seq<Sid>, i: int, s: Sid)
    requires Chain(t, p) && |p| > 1 && p[0] == p[|p| - 1] && 0 <= i < |p| - 1 && s == p[i + 1]
    ensures exists b :: Waits(t, s, b)
  {
    if i + 1 < |p| - 1 { LinkAt(t, p, i + 1); } else { LinkAt(t, p, 0); }
  }
}
