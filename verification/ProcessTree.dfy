/** Finding all descendants of a process, breadth first and without a set of visited processes. */
module ProcessTree {

  datatype Proc = Proc(pid: int, ppid: int, pgid: int, name: string)

  /** A table of processes, keyed by process identifier. */
  type Table = map<int, Proc>

  ghost predicate Keyed(procs: Table) {
    forall k :: k in procs ==> procs[k].pid == k
  }

  /** `x` is in the table, and `n` steps up from it stands `top`. */
  ghost predicate Below(procs: Table, top: int, x: int, n: nat)
    decreases n
  {
    n > 0 && x in procs && if n == 1 then procs[x].ppid == top else Below(procs, top, procs[x].ppid, n - 1)
  }

  /** `x` is a proper descendant of `top`. */
  ghost predicate Descends(procs: Table, top: int, x: int) {
    exists n: nat :: Below(procs, top, x, n)
  }

  predicate NoRepeats(s: seq<int>) {
    forall i, j :: 0 <= i < j < |s| ==> s[i] != s[j]
  }

  /** `children` lists every process under its parent, once. */
  ghost predicate ListsChildren(procs: Table, children: map<int, seq<int>>) {
    && (forall p, c :: p in children && c in children[p] ==> c in procs && procs[c].ppid == p)
    && (forall c :: c in procs ==> procs[c].ppid in children && c in children[procs[c].ppid])
    && (forall p :: p in children ==> NoRepeats(children[p]))
  }

  function Children(children: map<int, seq<int>>, p: int): seq<int> {
    if p in children then children[p] else []
  }

  lemma JoinNoRepeats(a: seq<int>, b: seq<int>)
    requires NoRepeats(a) && NoRepeats(b) && forall x :: x in b ==> x !in a
    ensures NoRepeats(a + b)
  {
    var s := a + b;
    forall i, j | 0 <= i < j < |s|
      ensures s[i] != s[j]
    {
      if i < |a| <= j {
        assert s[j] in b && s[i] in a;
      }
    }
  }

  lemma RestNoRepeats(s: seq<int>)
    requires s != [] && NoRepeats(s)
    ensures NoRepeats(s[1..]) && s[0] !in s[1..]
  {
  }

  lemma NotEmpty(s: set<int>)
    ensures s != {} ==> exists x :: x in s
  {
    assert (forall x :: x !in s) ==> s == {};
  }

  method MapChildren(procs: Table) returns (children: map<int, seq<int>>)
    requires Keyed(procs)
    ensures ListsChildren(procs, children)
  {
    hide NoRepeats;
    children := map[];
    var todo := procs.Keys;
    while todo != {}
      invariant todo <= procs.Keys
      invariant forall p, c :: p in children && c in children[p] ==> c in procs && c !in todo && procs[c].ppid == p
      invariant forall c :: c in procs && c !in todo ==> procs[c].ppid in children && c in children[procs[c].ppid]
      invariant forall p :: p in children ==> NoRepeats(children[p])
      decreases |todo|
    {
      NotEmpty(todo);
      var k :| k in todo;
      var p := procs[k];
      var before := Children(children, p.ppid);
      JoinNoRepeats(before, [p.pid]);
      children := children[p.ppid := before + [p.pid]];
      todo := todo - {k};
    }
  }

  /** What the loop has found and still has to look at. */
  ghost predicate Searching(procs: Table, root: int, done: set<int>, queue: seq<int>) {
    && NoRepeats(queue)
    && (forall x :: x in queue ==> x !in done)
    && (forall x :: x in done || x in queue ==> Descends(procs, root, x))
    && (forall x :: x in done || x in queue ==> x in procs && (procs[x].ppid == root || procs[x].ppid in done))
    && (forall x :: x in procs && (procs[x].ppid == root || procs[x].ppid in done) ==> x in done || x in queue)
  }

  lemma ChildDescends(procs: Table, root: int, p: int, c: int)
    requires c in procs && procs[c].ppid == p
    requires p == root || Descends(procs, root, p)
    ensures Descends(procs, root, c)
  {
    if p == root {
      assert Below(procs, root, c, 1);
    } else {
      var n: nat :| Below(procs, root, p, n);
      assert Below(procs, root, c, n + 1);
    }
  }

  lemma SearchBegins(procs: Table, root: int, children: map<int, seq<int>>)
    requires ListsChildren(procs, children)
    ensures Searching(procs, root, {}, Children(children, root))
  {
    forall x | x in Children(children, root)
      ensures Descends(procs, root, x)
    {
      ChildDescends(procs, root, root, x);
    }
  }

  /** The root is not among what is found, unless it is its own ancestor. */
  lemma SearchGoesOn(procs: Table, root: int, children: map<int, seq<int>>, done: set<int>, queue: seq<int>)
    requires ListsChildren(procs, children) && !Descends(procs, root, root)
    requires queue != [] && Searching(procs, root, done, queue)
    ensures queue[0] in procs && queue[0] !in done
    ensures NoRepeats(Children(children, queue[0]))
    ensures forall c :: c in Children(children, queue[0]) ==> c !in queue && c !in done
    ensures Searching(procs, root, done + {queue[0]}, queue[1..] + Children(children, queue[0]))
  {
    hide Descends;
    RestNoRepeats(queue);
    hide NoRepeats;
    var x, rest, kids := queue[0], queue[1..], Children(children, queue[0]);
    forall c | c in kids
      ensures Descends(procs, root, c) && c !in queue && c !in done
    {
      ChildDescends(procs, root, x, c);
    }
    assert forall y :: y in queue ==> y == x || y in rest;
    JoinNoRepeats(rest, kids);
  }

  lemma {:induction false} AllFound(procs: Table, root: int, done: set<int>, x: int, n: nat)
    requires Searching(procs, root, done, []) && Below(procs, root, x, n)
    ensures x in done
    decreases n
  {
    if n > 1 {
      AllFound(procs, root, done, procs[x].ppid, n - 1);
    }
  }

  /** One process less is left to find. */
  lemma OneLess(procs: Table, done: Table, x: int)
    requires x in procs && x !in done
    ensures done[x := procs[x]].Keys == done.Keys + {x}
    ensures procs.Keys - (done.Keys + {x}) < procs.Keys - done.Keys
  {
    assert x in procs.Keys - done.Keys;
  }

  /** Everything that entered the queue: what was taken from it and what is still in it, none of it twice. */
  ghost predicate EnteredOnce(done: set<int>, queue: seq<int>, enqueued: seq<int>) {
    && NoRepeats(enqueued)
    && (forall x :: x in enqueued <==> x in done || x in queue)
  }

  lemma EnterChildren(done: set<int>, queue: seq<int>, enqueued: seq<int>, kids: seq<int>)
    requires queue != [] && EnteredOnce(done, queue, enqueued) && NoRepeats(kids)
    requires forall c :: c in kids ==> c !in queue && c !in done
    ensures EnteredOnce(done + {queue[0]}, queue[1..] + kids, enqueued + kids)
  {
    JoinNoRepeats(enqueued, kids);
    hide NoRepeats;
    assert forall y :: y in queue <==> y == queue[0] || y in queue[1..];
  }

  /** Every process enters the queue at most once, and the result is exactly the proper descendants of the root. */
  method FindAllDescendants(procs: Table, root: int) returns (descendants: Table, ghost enqueued: seq<int>)
    requires Keyed(procs) && !Descends(procs, root, root)
    ensures NoRepeats(enqueued) && forall x :: x in enqueued <==> x in descendants
    ensures forall x :: x in descendants <==> Descends(procs, root, x)
    ensures forall x :: x in descendants ==> x in procs && descendants[x] == procs[x]
  {
    var children := MapChildren(procs);
    descendants := map[];
    var queue := Children(children, root);
    SearchBegins(procs, root, children);
    enqueued := queue;
    assert EnteredOnce({}, queue, enqueued);
    hide Searching, Descends, ListsChildren, NoRepeats;
    while |queue| > 0
      invariant Searching(procs, root, descendants.Keys, queue)
      invariant EnteredOnce(descendants.Keys, queue, enqueued)
      invariant forall x :: x in descendants ==> x in procs && descendants[x] == procs[x]
      decreases procs.Keys - descendants.Keys
    {
      SearchGoesOn(procs, root, children, descendants.Keys, queue);
      EnterChildren(descendants.Keys, queue, enqueued, Children(children, queue[0]));
      enqueued := enqueued + Children(children, queue[0]);
      var currPid := queue[0];
      queue := queue[1..];
      OneLess(procs, descendants, currPid);
      if currPid in procs {
        descendants := descendants[currPid := procs[currPid]];
        queue := queue + Children(children, currPid);
      }
    }
    NothingMissed(procs, root, descendants.Keys);
  }

  lemma NothingMissed(procs: Table, root: int, done: set<int>)
    requires Searching(procs, root, done, [])
    ensures forall x :: x in done <==> Descends(procs, root, x)
  {
    forall x | Descends(procs, root, x)
      ensures x in done
    {
      var n: nat :| Below(procs, root, x, n);
      AllFound(procs, root, done, x, n);
    }
  }

  // ------------------------------------------------------- when it does not end

  /** The queue after one pass of the loop. */
  function Pass(procs: Table, children: map<int, seq<int>>, queue: seq<int>): seq<int> {
    if queue == [] then [] else queue[1..] + if queue[0] in procs then Children(children, queue[0]) else []
  }

  function Passes(procs: Table, children: map<int, seq<int>>, queue: seq<int>, k: nat): seq<int> {
    if k == 0 then queue else Pass(procs, children, Passes(procs, children, queue, k - 1))
  }

  /** The root, or one of its ancestors. */
  ghost predicate Above(procs: Table, root: int, x: int) {
    x in procs && (x == root || Descends(procs, x, root))
  }

  /** On the way down from `top` to `x` stands a child of `top`. */
  lemma {:induction false} FirstStep(procs: Table, top: int, x: int, n: nat) returns (c: int)
    requires Below(procs, top, x, n)
    ensures c in procs && procs[c].ppid == top && (c == x || Descends(procs, c, x))
    decreases n
  {
    if n == 1 {
      c := x;
    } else {
      c := FirstStep(procs, top, procs[x].ppid, n - 1);
      if c == procs[x].ppid {
        assert Below(procs, c, x, 1);
      } else {
        var m: nat :| Below(procs, c, procs[x].ppid, m);
        assert Below(procs, c, x, m + 1);
      }
    }
  }

  lemma ChildAbove(procs: Table, root: int, children: map<int, seq<int>>, x: int) returns (c: int)
    requires ListsChildren(procs, children) && Descends(procs, x, root)
    ensures c in Children(children, x) && Above(procs, root, c)
  {
    var n: nat :| Below(procs, x, root, n);
    c := FirstStep(procs, x, root, n);
  }

  lemma {:induction false} QueueHoldsAncestor(procs: Table, root: int, children: map<int, seq<int>>, k: nat)
    returns (x: int)
    requires ListsChildren(procs, children) && Descends(procs, root, root)
    ensures x in Passes(procs, children, Children(children, root), k) && Above(procs, root, x)
  {
    if k == 0 {
      x := ChildAbove(procs, root, children, root);
    } else {
      x := QueueHoldsAncestor(procs, root, children, k - 1);
      var queue := Passes(procs, children, Children(children, root), k - 1);
      if queue[0] == x {
        x := ChildAbove(procs, root, children, x);
      }
    }
  }

  /** When the root is its own ancestor, no number of passes empties the queue. */
  lemma CycleNeverEnds(procs: Table, root: int, children: map<int, seq<int>>, k: nat)
    requires ListsChildren(procs, children) && Descends(procs, root, root)
    ensures Passes(procs, children, Children(children, root), k) != []
  {
    var x := QueueHoldsAncestor(procs, root, children, k);
  }
}
