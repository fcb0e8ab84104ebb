/** The intrusive circular lists of src/ngx-queue.h: link cells on the heap, and the sequences they
    stand for. */
module Queue {
  import opened Scheduler

  /** The structure a link cell lies in, and which member of it the cell is. In C both follow from
      the address of the cell; `ngx_queue_data` relies on that. */
  datatype Owner = OfState(s: Sid) | OfObject(c: nat)

  datatype Member = RouseMember | QueueMember | JoinMember | CondMember

  /** A link cell. */
  class Node {
    const owner: Owner
    const member: Member
    var prev: Node
    var next: Node

    /** `ngx_queue_init`. */
    constructor (o: Owner, m: Member)
      ensures IsList(this, []) && owner == o && member == m
    {
      owner := o;
      member := m;
      prev := this;
      next := this;
    }
  }

  /** The cells met on a walk from the head all the way round to it. */
  ghost function Round(h: Node, s: seq<Node>): seq<Node> { [h] + s + [h] }

  ghost predicate NoRepeat(h: Node, s: seq<Node>)
  {
    h !in s && forall i, j :: 0 <= i < j < |s| ==> s[i] != s[j]
  }

  /** The cell `a` is followed by the cell `b`, in both directions. */
  ghost predicate Linked(a: Node, b: Node)
    reads a, b
  {
    a.next == b && b.prev == a
  }

  /** The cells from `h` on are the list `s`. */
  ghost predicate IsList(h: Node, s: seq<Node>)
    reads h, set x | x in s
  {
    && NoRepeat(h, s)
    && forall i :: 0 <= i <= |s| ==> Linked(Round(h, s)[i], Round(h, s)[i + 1])
  }

  /** All lists of a program: the cells behind each list head. */
  type Family = map<Node, seq<Node>>

  ghost predicate Holds(w: Family, older h: Node, older x: Node)
  {
    h in w && (x == h || x in w[h])
  }

  /** `x` is neither a head nor on a list. */
  ghost predicate Free(w: Family, x: Node)
  {
    forall h :: h in w ==> !Holds(w, h, x)
  }

  /** No cell is in two lists. */
  ghost predicate Apart(w: Family)
  {
    forall h, k, x :: Holds(w, h, x) && Holds(w, k, x) ==> h == k
  }

  ghost predicate AllLists(w: Family)
    reads w.Keys, set h, x | h in w && x in w[h] :: x
  {
    Apart(w) && forall h :: h in w ==> IsList(h, w[h])
  }

  /** The cells at both ends of a list are its neighbours of the head. */
  lemma Ends(h: Node, s: seq<Node>)
    requires IsList(h, s)
    ensures h.next == (if s == [] then h else s[0]) && h.prev == (if s == [] then h else s[|s| - 1])
  {
    assert Linked(Round(h, s)[0], Round(h, s)[1]);
    assert Linked(Round(h, s)[|s|], Round(h, s)[|s| + 1]);
  }

  lemma Between(h: Node, s: seq<Node>, i: nat)
    requires IsList(h, s) && i < |s|
    ensures s[i].prev == (if i == 0 then h else s[i - 1])
    ensures s[i].next == (if i == |s| - 1 then h else s[i + 1])
  {
    assert Linked(Round(h, s)[i], Round(h, s)[i + 1]);
    assert Linked(Round(h, s)[i + 1], Round(h, s)[i + 2]);
  }

  /** A new head starts an empty list. */
  lemma NewHead(w: Family, h: Node)
    requires AllLists(w) && Free(w, h) && IsList(h, [])
    ensures AllLists(w[h := []])
  {
    assert h in w ==> Holds(w, h, h);
    var v := w[h := []];
    forall a, b, x | Holds(v, a, x) && Holds(v, b, x) ensures a == b {
      assert a != h ==> Holds(w, a, x);
      assert b != h ==> Holds(w, b, x);
    }
  }

  // Reading

  method Empty(h: Node, ghost s: seq<Node>) returns (b: bool)
    requires IsList(h, s)
    ensures b <==> s == []
  {
    Ends(h, s);
    b := h == h.prev;
  }

  method Head(h: Node, ghost s: seq<Node>) returns (x: Node)
    requires IsList(h, s)
    ensures x == if s == [] then h else s[0]
  {
    Ends(h, s);
    x := h.next;
  }

  /** `ngx_queue_foreach`: the cells visited, in order. */
  method Foreach(h: Node, ghost s: seq<Node>) returns (visited: seq<Node>)
    requires IsList(h, s)
    ensures visited == s
  {
    visited := [];
    var q := h.next;
    Ends(h, s);
    while q != h
      invariant |visited| <= |s| && visited == s[..|visited|]
      invariant q == Round(h, s)[|visited| + 1]
      decreases |s| - |visited|
    {
      assert |visited| < |s|;
      Between(h, s, |visited|);
      visited := visited + [q];
      q := q.next;
    }
  }

  // Writing

  /** No cell of the list at `h` is in `m`. */
  ghost predicate Untouched(w: Family, h: Node, m: set<Node>)
  {
    forall x :: Holds(w, h, x) ==> x !in m
  }

  /** One list changes, perhaps by a cell that was free: the lists stay apart. */
  lemma StillApart(w: Family, h: Node, s: seq<Node>)
    requires Apart(w) && h in w && (forall x :: x in s ==> x in w[h] || Free(w, x))
    ensures Apart(w[h := s])
  {
    var v := w[h := s];
    forall a, b, x | Holds(v, a, x) && Holds(v, b, x) ensures a == b {
      assert Holds(w, a, x) || (a == h && Free(w, x));
      assert Holds(w, b, x) || (b == h && Free(w, x));
    }
  }

  lemma OthersUntouched(w: Family, h: Node, m: set<Node>)
    requires Apart(w) && forall x :: x in m ==> Holds(w, h, x) || Free(w, x)
    ensures forall k :: k in w && k != h ==> Untouched(w, k, m)
  {
  }

  lemma Elsewhere(w: Family, k: Node, i: nat, m: set<Node>)
    requires k in w && Untouched(w, k, m) && i <= |w[k]|
    ensures Round(k, w[k])[i] !in m && Round(k, w[k])[i + 1] !in m
  {
    assert Holds(w, k, Round(k, w[k])[i]) && Holds(w, k, Round(k, w[k])[i + 1]);
  }

  /** `ngx_queue_insert_tail`. */
  method InsertTail(h: Node, x: Node, ghost w: Family)
    requires AllLists(w) && h in w && Free(w, x)
    modifies h, h.prev, x
    ensures AllLists(w[h := w[h] + [x]])
  {
    ghost var s, m := w[h], {h, h.prev, x};
    Ends(h, s);
    assert Holds(w, h, h.prev) && !Holds(w, h, x);
    x.prev := h.prev;
    x.prev.next := x;
    x.next := h;
    h.prev := x;
    StillApart(w, h, s + [x]);
    OthersUntouched(w, h, m);
    forall i | 0 <= i <= |s| + 1 ensures Linked(Round(h, s + [x])[i], Round(h, s + [x])[i + 1]) {
      if i < |s| { assert old(Linked(Round(h, s)[i], Round(h, s)[i + 1])); }
    }
    forall k, i | k in w && k != h && 0 <= i <= |w[k]| ensures Linked(Round(k, w[k])[i], Round(k, w[k])[i + 1]) {
      Elsewhere(w, k, i, m);
      assert old(Linked(Round(k, w[k])[i], Round(k, w[k])[i + 1]));
    }
  }

  /** `ngx_queue_insert_head`. */
  method InsertHead(h: Node, x: Node, ghost w: Family)
    requires AllLists(w) && h in w && Free(w, x)
    modifies h, h.next, x
    ensures AllLists(w[h := [x] + w[h]])
  {
    ghost var s, m := w[h], {h, h.next, x};
    Ends(h, s);
    assert Holds(w, h, h.next) && !Holds(w, h, x);
    x.next := h.next;
    x.next.prev := x;
    x.prev := h;
    h.next := x;
    StillApart(w, h, [x] + s);
    OthersUntouched(w, h, m);
    forall i | 0 <= i <= |s| + 1 ensures Linked(Round(h, [x] + s)[i], Round(h, [x] + s)[i + 1]) {
      if i > 1 { assert old(Linked(Round(h, s)[i - 1], Round(h, s)[i])); }
    }
    forall k, i | k in w && k != h && 0 <= i <= |w[k]| ensures Linked(Round(k, w[k])[i], Round(k, w[k])[i + 1]) {
      Elsewhere(w, k, i, m);
      assert old(Linked(Round(k, w[k])[i], Round(k, w[k])[i + 1]));
    }
  }

  ghost function Without<T>(s: seq<T>, i: nat): seq<T>
    requires i < |s|
  {
    s[..i] + s[i + 1..]
  }

  lemma RemovedIsFree(w: Family, h: Node, i: nat)
    requires Apart(w) && h in w && i < |w[h]| && NoRepeat(h, w[h])
    ensures Free(w[h := Without(w[h], i)], w[h][i])
  {
    var v, x := w[h := Without(w[h], i)], w[h][i];
    assert Holds(w, h, x);
    forall k | k in v ensures !Holds(v, k, x) {
      if k != h { assert Holds(w, k, x) <==> Holds(v, k, x); }
    }
  }

  /** `ngx_queue_remove`. The removed cell keeps its links. */
  method Remove(x: Node, ghost w: Family, ghost h: Node, ghost i: nat)
    requires AllLists(w) && h in w && i < |w[h]| && x == w[h][i]
    modifies x.next, x.prev
    ensures AllLists(w[h := Without(w[h], i)]) && Free(w[h := Without(w[h], i)], x)
  {
    ghost var s, m := w[h], {x.next, x.prev};
    ghost var t := Without(s, i);
    Between(h, s, i);
    assert Holds(w, h, x) && Holds(w, h, x.prev) && Holds(w, h, x.next);
    x.next.prev := x.prev;
    x.prev.next := x.next;
    StillApart(w, h, t);
    RemovedIsFree(w, h, i);
    OthersUntouched(w, h, m);
    forall j | 0 <= j <= |t| ensures Linked(Round(h, t)[j], Round(h, t)[j + 1]) {
      if j < i {
        assert old(Linked(Round(h, s)[j], Round(h, s)[j + 1]));
      } else {
        assert old(Linked(Round(h, s)[j + 1], Round(h, s)[j + 2]));
      }
    }
    forall k, i | k in w && k != h && 0 <= i <= |w[k]| ensures Linked(Round(k, w[k])[i], Round(k, w[k])[i + 1]) {
      Elsewhere(w, k, i, m);
      assert old(Linked(Round(k, w[k])[i], Round(k, w[k])[i + 1]));
    }
  }

  /** `ngx_queue_split` on the list alone: the cells from position `i` on go behind `n`. */
  method Cut(h: Node, q: Node, n: Node, ghost s: seq<Node>, ghost i: nat)
    requires IsList(h, s) && i < |s| && q == s[i] && n != h && n !in s
    modifies h, q, n, h.prev, q.prev
    ensures IsList(h, s[..i]) && IsList(n, s[i..])
  {
    ghost var a, b := s[..i], s[i..];
    Ends(h, s);
    Between(h, s, i);
    n.prev := h.prev;
    n.prev.next := n;
    n.next := q;
    h.prev := q.prev;
    h.prev.next := h;
    q.prev := n;
    forall j | 0 <= j <= |a| ensures Linked(Round(h, a)[j], Round(h, a)[j + 1]) {
      assert old(Linked(Round(h, s)[j], Round(h, s)[j + 1]));
    }
    forall j | 0 <= j <= |b| ensures Linked(Round(n, b)[j], Round(n, b)[j + 1]) {
      if 0 < j { assert old(Linked(Round(h, s)[i + j], Round(h, s)[i + j + 1])); }
    }
  }

  /** `ngx_queue_split` among other lists. */
  method Split(h: Node, q: Node, n: Node, ghost w: Family, ghost i: nat)
    requires AllLists(w) && h in w && i < |w[h]| && q == w[h][i] && Free(w, n)
    modifies h, q, n, h.prev, q.prev
    ensures AllLists(w[h := w[h][..i]][n := w[h][i..]])
  {
    ghost var m := {h, q, n, h.prev, q.prev};
    Ends(h, w[h]);
    Between(h, w[h], i);
    assert Holds(w, h, h.prev) && Holds(w, h, q) && Holds(w, h, q.prev) && !Holds(w, h, n);
    SplitApart(w, h, i, n);
    OthersUntouched(w, h, m);
    Cut(h, q, n, w[h], i);
    forall k, j | k in w && k != h && 0 <= j <= |w[k]| ensures Linked(Round(k, w[k])[j], Round(k, w[k])[j + 1]) {
      Elsewhere(w, k, j, m);
      assert old(Linked(Round(k, w[k])[j], Round(k, w[k])[j + 1]));
    }
  }

  lemma SplitApart(w: Family, h: Node, i: nat, n: Node)
    requires Apart(w) && h in w && i < |w[h]| && NoRepeat(h, w[h]) && Free(w, n)
    ensures n !in w && Apart(w[h := w[h][..i]][n := w[h][i..]])
  {
    assert n in w ==> Holds(w, n, n);
    var v := w[h := w[h][..i]][n := w[h][i..]];
    forall a, b, x | Holds(v, a, x) && Holds(v, b, x) ensures a == b {
      assert a == n || Holds(w, a, x);
      assert b == n || Holds(w, b, x);
      assert Holds(w, h, x) || x == n || (a == b);
    }
  }

  /** `ngx_queue_add`: the cells behind `n` go to the end of the list at `h`. The head `n` keeps
      stale links and is no longer that of a list. */
  method Add(h: Node, n: Node, ghost w: Family)
    requires AllLists(w) && h in w && n in w && h != n
    modifies h, n, h.prev, n.prev, n.next
    ensures AllLists((w - {n})[h := w[h] + w[n]]) && Free((w - {n})[h := w[h] + w[n]], n)
  {
    ghost var s, t, m := w[h], w[n], {h, n, h.prev, n.prev, n.next};
    Ends(h, s);
    Ends(n, t);
    assert Holds(w, h, h.prev) && Holds(w, n, n.prev) && Holds(w, n, n.next);
    AddApart(w, h, n);
    h.prev.next := n.next;
    n.next.prev := h.prev;
    h.prev := n.prev;
    h.prev.next := h;
    forall j | 0 <= j <= |s + t| ensures Linked(Round(h, s + t)[j], Round(h, s + t)[j + 1]) {
      if j < |s| {
        assert old(Linked(Round(h, s)[j], Round(h, s)[j + 1]));
        assert Round(h, s + t)[j] == Round(h, s)[j] && Round(h, s + t)[j + 1] == s[j];
      } else if |s| < j < |s + t| {
        assert old(Linked(Round(n, t)[j - |s|], Round(n, t)[j - |s| + 1]));
        assert Round(h, s + t)[j] == t[j - |s| - 1] && Round(h, s + t)[j + 1] == t[j - |s|];
      } else if j == |s| && t != [] {
        assert Round(h, s + t)[j] == Round(h, s)[j] && Round(h, s + t)[j + 1] == t[0];
      } else if t != [] {
        assert Round(h, s + t)[j] == t[|t| - 1] && Round(h, s + t)[j + 1] == h;
      } else {
        assert s + t == s;
      }
    }
    forall k, j | k in w && k != h && k != n && 0 <= j <= |w[k]|
      ensures Linked(Round(k, w[k])[j], Round(k, w[k])[j + 1])
    {
      Elsewhere(w, k, j, m);
      assert old(Linked(Round(k, w[k])[j], Round(k, w[k])[j + 1]));
    }
  }

  lemma AddApart(w: Family, h: Node, n: Node)
    requires Apart(w) && h in w && n in w && h != n && NoRepeat(h, w[h]) && NoRepeat(n, w[n])
    ensures var v := (w - {n})[h := w[h] + w[n]];
            Apart(v) && Free(v, n) && NoRepeat(h, w[h] + w[n])
    ensures h !in w[n] && n !in w[h] && forall i, j :: 0 <= i < |w[h]| && 0 <= j < |w[n]| ==> w[h][i] != w[n][j]
    ensures forall k, x :: k in w && k != h && k != n && (Holds(w, h, x) || Holds(w, n, x)) ==> !Holds(w, k, x)
  {
    var v := (w - {n})[h := w[h] + w[n]];
    assert Holds(w, h, h) && Holds(w, n, n);
    forall a, b, x | Holds(v, a, x) && Holds(v, b, x) ensures a == b {
      assert Holds(w, a, x) || (a == h && Holds(w, n, x));
      assert Holds(w, b, x) || (b == h && Holds(w, n, x));
    }
    assert n !in w[h] by { assert n in w[h] ==> Holds(w, h, n); }
    forall k | k in v ensures !Holds(v, k, n) {
      assert k != h ==> (Holds(v, k, n) <==> Holds(w, k, n));
    }
    forall i, j | 0 <= i < |w[h]| && 0 <= j < |w[n]| ensures w[h][i] != w[n][j] {
      assert Holds(w, h, w[h][i]) && Holds(w, n, w[n][j]);
    }
    forall j | 0 <= j < |w[n]| ensures w[n][j] != h { assert Holds(w, n, w[n][j]); }
  }
}
