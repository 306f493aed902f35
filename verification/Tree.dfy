/** Result.tree (mognet/model/result.py): the children of a result, cut at a depth. */
module ResultTrees {
  import opened Types
  import opened ResultModel
  import opened Graph

  datatype Tree = Node(id: Id, children: seq<Tree>)

  function IdsOf(trees: seq<Tree>): seq<Id> {
    if trees == [] then [] else [trees[0].id] + IdsOf(trees[1..])
  }

  /** The children that have a result. */
  function Existing(children: Index, rows: map<Id, Row>, id: Id): set<Id> {
    set c | c in Kids(children, id) && c in rows
  }

  /** Creation times. A result that was made up has none, and sorts as of now. */
  datatype Clock = Clock(created: map<Id, int>, now: int) {
    function Key(id: Id): int {
      if id in created then created[id] else now
    }

    /** No id is older than the one before it. */
    predicate Ordered(ids: seq<Id>) {
      |ids| > 1 ==> Key(ids[0]) <= Key(ids[1]) && Ordered(ids[1..])
    }
  }

  /** The unfolding of the children relation below `id`, cut at `maxDepth` levels; `id` is at level `depth`. */
  ghost predicate IsTree(children: Index, rows: map<Id, Row>, clock: Clock, maxDepth: int, depth: int, id: Id, t: Tree)
    decreases t
  {
    && t.id == id
    && if depth >= maxDepth then t.children == []
       else
         && multiset(IdsOf(t.children)) == multiset(Existing(children, rows, id))
         && clock.Ordered(IdsOf(t.children))
         && forall i | 0 <= i < |t.children| ::
              IsTree(children, rows, clock, maxDepth, depth + 1, t.children[i].id, t.children[i])
  }

  // ----- list.sort

  function Insert(clock: Clock, t: Tree, trees: seq<Tree>): seq<Tree> {
    if trees == [] || clock.Key(t.id) < clock.Key(trees[0].id) then [t] + trees
    else [trees[0]] + Insert(clock, t, trees[1..])
  }

  function Sort(clock: Clock, trees: seq<Tree>): seq<Tree> {
    if trees == [] then [] else Insert(clock, trees[0], Sort(clock, trees[1..]))
  }

  lemma {:induction false} InsertOrders(clock: Clock, t: Tree, trees: seq<Tree>)
    requires clock.Ordered(IdsOf(trees))
    ensures clock.Ordered(IdsOf(Insert(clock, t, trees)))
  {
    var r := Insert(clock, t, trees);
    if trees == [] || clock.Key(t.id) < clock.Key(trees[0].id) {
      assert r[1..] == trees;
      assert IdsOf(r)[1..] == IdsOf(trees);
    } else {
      assert IdsOf(trees)[1..] == IdsOf(trees[1..]);
      InsertOrders(clock, t, trees[1..]);
      assert r[1..] == Insert(clock, t, trees[1..]);
      assert IdsOf(r)[1..] == IdsOf(r[1..]);
    }
  }

  lemma {:induction false} InsertAdds(clock: Clock, t: Tree, trees: seq<Tree>)
    ensures multiset(IdsOf(Insert(clock, t, trees))) == multiset(IdsOf(trees)) + multiset{t.id}
  {
    var r := Insert(clock, t, trees);
    if trees == [] || clock.Key(t.id) < clock.Key(trees[0].id) {
      assert r[1..] == trees;
    } else {
      InsertAdds(clock, t, trees[1..]);
      assert r[1..] == Insert(clock, t, trees[1..]);
    }
  }

  lemma {:induction false} InsertKeeps(clock: Clock, t: Tree, trees: seq<Tree>, n: Tree)
    ensures n in Insert(clock, t, trees) <==> n == t || n in trees
  {
    if !(trees == [] || clock.Key(t.id) < clock.Key(trees[0].id)) {
      InsertKeeps(clock, t, trees[1..], n);
      assert trees == [trees[0]] + trees[1..];
    }
  }

  lemma {:induction false} SortOrders(clock: Clock, trees: seq<Tree>)
    ensures clock.Ordered(IdsOf(Sort(clock, trees)))
    ensures multiset(IdsOf(Sort(clock, trees))) == multiset(IdsOf(trees))
  {
    if trees != [] {
      SortOrders(clock, trees[1..]);
      InsertOrders(clock, trees[0], Sort(clock, trees[1..]));
      InsertAdds(clock, trees[0], Sort(clock, trees[1..]));
    }
  }

  lemma {:induction false} SortKeeps(clock: Clock, trees: seq<Tree>, n: Tree)
    ensures n in Sort(clock, trees) <==> n in trees
  {
    if trees != [] {
      SortKeeps(clock, trees[1..], n);
      InsertKeeps(clock, trees[0], Sort(clock, trees[1..]), n);
      assert trees == [trees[0]] + trees[1..];
    }
  }

  lemma {:induction false} IdsOfConcat(trees: seq<Tree>, t: Tree)
    ensures IdsOf(trees + [t]) == IdsOf(trees) + [t.id]
  {
    if trees != [] {
      IdsOfConcat(trees[1..], t);
      assert (trees + [t])[1..] == trees[1..] + [t];
    }
  }

  lemma {:induction false} IdsOfAt(trees: seq<Tree>, i: nat)
    requires i < |trees|
    ensures |IdsOf(trees)| == |trees| && IdsOf(trees)[i] == trees[i].id
  {
    if i > 0 {
      IdsOfAt(trees[1..], i - 1);
    } else {
      IdsOfLength(trees);
    }
  }

  lemma {:induction false} IdsOfLength(trees: seq<Tree>)
    ensures |IdsOf(trees)| == |trees|
  {
    if trees != [] {
      IdsOfLength(trees[1..]);
    }
  }

  /** The subtrees of the existing children outside `todo`. */
  ghost predicate Gathered(children: Index, rows: map<Id, Row>, clock: Clock, maxDepth: int, depth: int, id: Id,
                           todo: set<Id>, nodes: seq<Tree>) {
    && multiset(IdsOf(nodes)) == multiset(Existing(children, rows, id) - todo)
    && forall n | n in nodes :: IsTree(children, rows, clock, maxDepth, depth + 1, n.id, n)
  }

  lemma GatherOne(children: Index, rows: map<Id, Row>, clock: Clock, maxDepth: int, depth: int, id: Id, todo: set<Id>,
                  nodes: seq<Tree>, node: Tree)
    requires Gathered(children, rows, clock, maxDepth, depth, id, todo, nodes)
    requires node.id in todo && node.id in Existing(children, rows, id)
    requires IsTree(children, rows, clock, maxDepth, depth + 1, node.id, node)
    ensures Gathered(children, rows, clock, maxDepth, depth, id, todo - {node.id}, nodes + [node])
  {
    IdsOfConcat(nodes, node);
    assert Existing(children, rows, id) - (todo - {node.id}) == Existing(children, rows, id) - todo + {node.id};
  }

  lemma SortedTree(children: Index, rows: map<Id, Row>, clock: Clock, maxDepth: int, depth: int, id: Id,
                   nodes: seq<Tree>)
    requires Gathered(children, rows, clock, maxDepth, depth, id, {}, nodes) && depth < maxDepth
    ensures IsTree(children, rows, clock, maxDepth, depth, id, Node(id, Sort(clock, nodes)))
  {
    var sorted := Sort(clock, nodes);
    SortOrders(clock, nodes);
    assert Existing(children, rows, id) - {} == Existing(children, rows, id);
    forall i | 0 <= i < |sorted|
      ensures IsTree(children, rows, clock, maxDepth, depth + 1, sorted[i].id, sorted[i])
    {
      SortKeeps(clock, nodes, sorted[i]);
    }
  }

  /** At every node the children are distinct, and the older ones come first; one without a time was made now. */
  ghost predicate OldestFirst(created: map<Id, int>, now: int, t: Tree)
    decreases t
  {
    && (forall i, j | 0 <= i < j < |t.children| :: InOrder(created, now, t.children[i].id, t.children[j].id))
    && forall i | 0 <= i < |t.children| :: OldestFirst(created, now, t.children[i])
  }

  predicate InOrder(created: map<Id, int>, now: int, a: Id, b: Id) {
    && a != b
    && (a in created && b in created ==> created[a] <= created[b])
    && (a in created && b !in created ==> created[a] <= now)
    && (a !in created && b in created ==> now <= created[b])
  }

  lemma {:induction false} OrderedPairs(clock: Clock, ids: seq<Id>, i: nat, j: nat)
    requires clock.Ordered(ids) && i < j < |ids|
    ensures clock.Key(ids[i]) <= clock.Key(ids[j])
  {
    if i > 0 {
      OrderedPairs(clock, ids[1..], i - 1, j - 1);
    } else {
      FirstIsOldest(clock, ids, ids[j]);
    }
  }

  lemma OnceEach(ids: seq<Id>, all: set<Id>, i: nat, j: nat)
    requires multiset(ids) == multiset(all) && i < j < |ids|
    ensures ids[i] != ids[j]
  {
    var x := ids[j];
    assert ids == ids[..j] + [x] + ids[j + 1..];
    assert 1 >= multiset(all)[x] == multiset(ids)[x] == multiset(ids[..j])[x] + 1 + multiset(ids[j + 1..])[x];
    assert x !in ids[..j];
    assert ids[i] in ids[..j];
  }

  lemma {:induction false} TreeIsOldestFirst(children: Index, rows: map<Id, Row>, clock: Clock, maxDepth: int,
                                             depth: int, id: Id, t: Tree)
    requires IsTree(children, rows, clock, maxDepth, depth, id, t)
    ensures OldestFirst(clock.created, clock.now, t)
    decreases t
  {
    if depth < maxDepth {
      var ids := IdsOf(t.children);
      forall i, j | 0 <= i < j < |t.children|
        ensures InOrder(clock.created, clock.now, t.children[i].id, t.children[j].id)
      {
        IdsOfAt(t.children, i);
        IdsOfAt(t.children, j);
        OrderedPairs(clock, ids, i, j);
        OnceEach(ids, Existing(children, rows, id), i, j);
      }
      forall i | 0 <= i < |t.children| ensures OldestFirst(clock.created, clock.now, t.children[i]) {
        TreeIsOldestFirst(children, rows, clock, maxDepth, depth + 1, t.children[i].id, t.children[i]);
      }
    }
  }

  /** get_tree: recursion over the children that exist, then a sort by creation time. */
  method GetTree(backend: ResultBackend, clock: Clock, id: Id, depth: int, maxDepth: int) returns (t: Tree)
    ensures IsTree(backend.children, backend.rows, clock, maxDepth, depth, id, t)
    ensures OldestFirst(clock.created, clock.now, t)
    decreases maxDepth - depth
  {
    if depth >= maxDepth {
      return Node(id, []);
    }
    var kids := if id in backend.children then backend.children[id] else {};
    var nodes: seq<Tree>, todo := [], kids;
    while todo != {}
      invariant todo <= kids
      invariant Gathered(backend.children, backend.rows, clock, maxDepth, depth, id, todo, nodes)
      decreases |todo|
    {
      var child :| child in todo;
      if child in backend.rows {
        var node := GetTree(backend, clock, child, depth + 1, maxDepth);
        GatherOne(backend.children, backend.rows, clock, maxDepth, depth, id, todo, nodes, node);
        nodes := nodes + [node];
      }
      todo := todo - {child};
    }
    SortedTree(backend.children, backend.rows, clock, maxDepth, depth, id, nodes);
    t := Node(id, Sort(clock, nodes));
    TreeIsOldestFirst(backend.children, backend.rows, clock, maxDepth, depth, id, t);
  }

  /** Result.tree. */
  method GetResultTree(backend: ResultBackend, clock: Clock, id: Id, maxDepth: int) returns (t: Tree)
    ensures IsTree(backend.children, backend.rows, clock, maxDepth, 1, id, t)
    ensures OldestFirst(clock.created, clock.now, t)
  {
    t := GetTree(backend, clock, id, 1, maxDepth);
  }

  // ----- what the tree holds

  /** The tree has a branch with these ids, from its root down. */
  ghost predicate HasBranch(t: Tree, ids: seq<Id>)
    decreases t
  {
    && ids != [] && ids[0] == t.id
    && (|ids| > 1 ==> exists i :: 0 <= i < |t.children| && HasBranch(t.children[i], ids[1..]))
  }

  ghost predicate IsBranch(children: Index, rows: map<Id, Row>, id: Id, ids: seq<Id>)
    decreases |ids|
  {
    && ids != [] && ids[0] == id
    && (|ids| > 1 ==> IsChild(children, rows, id, ids[1]) && IsBranch(children, rows, ids[1], ids[1..]))
  }

  /** The child is in the set stored under its parent, and has a result. */
  ghost predicate IsChild(children: Index, rows: map<Id, Row>, parent: Id, child: Id) {
    parent in children && child in children[parent] && child in rows
  }

  lemma IdAt(trees: seq<Tree>, id: Id)
    ensures id in multiset(IdsOf(trees)) <==> exists i :: 0 <= i < |trees| && trees[i].id == id
  {
    IdsOfLength(trees);
    forall i | 0 <= i < |trees| ensures IdsOf(trees)[i] == trees[i].id {
      IdsOfAt(trees, i);
    }
    if id in IdsOf(trees) {
      var i :| 0 <= i < |trees| && IdsOf(trees)[i] == id;
      assert trees[i].id == id;
    }
  }

  /** At every level above the last the nodes are the existing children. */
  ghost predicate Unfolds(children: Index, rows: map<Id, Row>, maxDepth: int, depth: int, t: Tree)
    decreases t
  {
    if depth >= maxDepth then t.children == []
    else
      && (forall c :: IsChild(children, rows, t.id, c) <==> exists i :: 0 <= i < |t.children| && t.children[i].id == c)
      && forall i | 0 <= i < |t.children| :: Unfolds(children, rows, maxDepth, depth + 1, t.children[i])
  }

  lemma {:induction false} TreeUnfolds(children: Index, rows: map<Id, Row>, clock: Clock, maxDepth: int, depth: int,
                                       id: Id, t: Tree)
    requires IsTree(children, rows, clock, maxDepth, depth, id, t)
    ensures Unfolds(children, rows, maxDepth, depth, t)
    decreases t
  {
    if depth < maxDepth {
      forall c ensures IsChild(children, rows, id, c) <==> exists i :: 0 <= i < |t.children| && t.children[i].id == c {
        IdAt(t.children, c);
        assert c in multiset(Existing(children, rows, id)) <==> IsChild(children, rows, id, c);
      }
      forall i | 0 <= i < |t.children| ensures Unfolds(children, rows, maxDepth, depth + 1, t.children[i]) {
        TreeUnfolds(children, rows, clock, maxDepth, depth + 1, t.children[i].id, t.children[i]);
      }
    }
  }

  lemma {:induction false} BranchIsPath(children: Index, rows: map<Id, Row>, maxDepth: int, depth: int, t: Tree,
                                        ids: seq<Id>)
    requires Unfolds(children, rows, maxDepth, depth, t) && HasBranch(t, ids)
    ensures IsBranch(children, rows, t.id, ids) && (|ids| == 1 || depth + |ids| - 1 <= maxDepth)
    decreases |ids|
  {
    if |ids| > 1 {
      var i :| 0 <= i < |t.children| && HasBranch(t.children[i], ids[1..]);
      BranchIsPath(children, rows, maxDepth, depth + 1, t.children[i], ids[1..]);
      assert IsChild(children, rows, t.id, ids[1]);
    }
  }

  lemma {:induction false} PathIsBranch(children: Index, rows: map<Id, Row>, maxDepth: int, depth: int, t: Tree,
                                        ids: seq<Id>)
    requires Unfolds(children, rows, maxDepth, depth, t)
    requires IsBranch(children, rows, t.id, ids) && (|ids| == 1 || depth + |ids| - 1 <= maxDepth)
    ensures HasBranch(t, ids)
    decreases |ids|
  {
    if |ids| > 1 {
      var i :| 0 <= i < |t.children| && t.children[i].id == ids[1];
      PathIsBranch(children, rows, maxDepth, depth + 1, t.children[i], ids[1..]);
    }
  }

  /** The branches of the tree are exactly the paths over existing children, of as many levels as asked for. */
  lemma Branches(children: Index, rows: map<Id, Row>, clock: Clock, maxDepth: int, depth: int, id: Id, t: Tree,
                 ids: seq<Id>)
    requires IsTree(children, rows, clock, maxDepth, depth, id, t)
    ensures HasBranch(t, ids) <==> IsBranch(children, rows, id, ids) && (|ids| == 1 || depth + |ids| - 1 <= maxDepth)
  {
    TreeUnfolds(children, rows, clock, maxDepth, depth, id, t);
    if HasBranch(t, ids) {
      BranchIsPath(children, rows, maxDepth, depth, t, ids);
    } else if IsBranch(children, rows, id, ids) && (|ids| == 1 || depth + |ids| - 1 <= maxDepth) {
      PathIsBranch(children, rows, maxDepth, depth, t, ids);
    }
  }

  // ----- one tree

  /** No two children of one result were created at the same time. */
  ghost predicate DistinctTimes(children: Index, rows: map<Id, Row>, clock: Clock) {
    forall x, c, d | c in Existing(children, rows, x) && d in Existing(children, rows, x) ::
      clock.Key(c) == clock.Key(d) ==> c == d
  }

  lemma {:induction false} FirstIsOldest(clock: Clock, ids: seq<Id>, x: Id)
    requires clock.Ordered(ids) && x in ids
    ensures clock.Key(ids[0]) <= clock.Key(x)
  {
    if x != ids[0] {
      assert ids == [ids[0]] + ids[1..];
      FirstIsOldest(clock, ids[1..], x);
    }
  }

  lemma SameFirst(clock: Clock, a: seq<Id>, b: seq<Id>)
    requires a != [] && b != [] && a[0] in b && b[0] in a && clock.Ordered(a) && clock.Ordered(b)
    requires forall c, d | c in a && d in a && clock.Key(c) == clock.Key(d) :: c == d
    ensures a[0] == b[0]
  {
    FirstIsOldest(clock, a, b[0]);
    FirstIsOldest(clock, b, a[0]);
  }

  lemma Tail(a: seq<Id>)
    requires a != []
    ensures multiset(a[1..]) == multiset(a) - multiset{a[0]}
  {
    assert a == [a[0]] + a[1..];
  }

  lemma {:induction false} OneOrder(clock: Clock, a: seq<Id>, b: seq<Id>)
    requires multiset(a) == multiset(b) && clock.Ordered(a) && clock.Ordered(b)
    requires forall c, d | c in a && d in a && clock.Key(c) == clock.Key(d) :: c == d
    ensures a == b
  {
    assert |a| == |multiset(a)| == |multiset(b)| == |b|;
    if a != [] {
      assert a[0] in multiset(a) && b[0] in multiset(b);
      SameFirst(clock, a, b);
      Tail(a);
      Tail(b);
      OneOrder(clock, a[1..], b[1..]);
      assert a == [a[0]] + a[1..] && b == [b[0]] + b[1..];
    }
  }

  /** With distinct times among siblings the result of `tree` is determined. */
  lemma {:induction false} OneTree(children: Index, rows: map<Id, Row>, clock: Clock, maxDepth: int, depth: int, id: Id,
                                   t: Tree, u: Tree)
    requires DistinctTimes(children, rows, clock)
    requires IsTree(children, rows, clock, maxDepth, depth, id, t)
    requires IsTree(children, rows, clock, maxDepth, depth, id, u)
    ensures t == u
    decreases t
  {
    if depth < maxDepth {
      var a, b := IdsOf(t.children), IdsOf(u.children);
      forall c, d | c in a && d in a && clock.Key(c) == clock.Key(d) ensures c == d {
        assert c in multiset(a) && d in multiset(a);
      }
      OneOrder(clock, a, b);
      IdsOfLength(t.children);
      IdsOfLength(u.children);
      forall i | 0 <= i < |t.children| ensures t.children[i] == u.children[i] {
        IdsOfAt(t.children, i);
        IdsOfAt(u.children, i);
        OneTree(children, rows, clock, maxDepth, depth + 1, a[i], t.children[i], u.children[i]);
      }
      assert t.children == u.children;
    }
  }
}
