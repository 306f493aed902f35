/**
 Deleting a result and its descendants (mognet/backend/memory_result_backend.py and
 mognet/backend/redis_result_backend.py).
 */
module Deletion {
  import opened Types
  import opened ResultModel
  import opened Graph

  /** The ids that a deletion removes. */
  ghost function Doomed(children: Index, id: Id, includeChildren: bool): set<Id> {
    if includeChildren then Reach(children, Everything, id) else {id}
  }

  /** They are the id and, with children, everything below it. */
  lemma DoomedIsDescendants(children: Index, id: Id)
    ensures Doomed(children, id, true) == {id} + Descendants(children, id)
    ensures Doomed(children, id, false) == {id}
  {
    ReachAndDescendants(children, id);
  }

  /** The walk so far: `gone` is below `id`, closed under children, and holds the children already visited. */
  ghost predicate Walked(children: Index, id: Id, todo: set<Id>, gone: set<Id>) {
    && todo <= Kids(children, id)
    && (forall c | c in Kids(children, id) :: c in todo || c in gone)
    && (forall x | x in gone :: Below(children, id, x))
    && forall x, c | x in gone && c in Kids(children, x) :: c in gone
  }

  lemma WalkedMore(children: Index, id: Id, gone: set<Id>, now: Index, c: Id, x: Id)
    requires c in Kids(children, id) && (now == children || now == children - gone)
    requires x in Reach(now, Everything, c)
    ensures Below(children, id, x)
    ensures forall d | d in Kids(children, x) :: x in gone || d in Reach(now, Everything, c)
  {
    Weaken(now, Everything, children, Everything, c, x);
    ReachClosed(now, Everything, c);
  }

  /** A child is visited while `now`, the index without some of what is gone, is left. */
  lemma WalkedStep(children: Index, id: Id, todo: set<Id>, gone: set<Id>, now: Index, c: Id)
    requires Walked(children, id, todo, gone) && c in todo
    requires now == children || now == children - gone
    ensures Walked(children, id, todo - {c}, gone + Reach(now, Everything, c))
  {
    forall x | x in Reach(now, Everything, c)
      ensures Below(children, id, x)
      ensures forall d | d in Kids(children, x) :: d in gone + Reach(now, Everything, c)
    {
      WalkedMore(children, id, gone, now, c, x);
    }
    ReachClosed(now, Everything, c);
  }

  /** With no child left, what is gone and the id itself are all that the id reaches. */
  lemma WalkedAll(children: Index, id: Id, gone: set<Id>)
    requires Walked(children, id, {}, gone)
    ensures gone + {id} == Reach(children, Everything, id)
  {
    forall b | b in gone ensures Reaches(children, Everything, id, b) {
      var c :| c in Kids(children, id) && Reaches(children, Everything, c, b);
      Prepend(children, Everything, id, c, b);
    }
    Self(children, Everything, id);
    ReachIs(children, Everything, id, gone + {id});
  }

  lemma MinusTwice<V>(m: map<Id, V>, some: set<Id>, more: set<Id>)
    ensures m - some - more == m - (some + more)
  {
  }

  lemma KidsOfLess(children: Index, gone: set<Id>)
    ensures forall x :: Kids(children - gone, x) <= Kids(children, x)
  {
  }

  /** MemoryResultBackend.delete: the children index stays. */
  method DeleteInMemory(backend: ResultBackend, id: Id, includeChildren: bool)
    requires includeChildren ==> Acyclic(backend.children)
    modifies backend`rows, backend`metadata, backend`values
    ensures backend.rows == old(backend.rows) - Doomed(backend.children, id, includeChildren)
    ensures backend.metadata == old(backend.metadata) - Doomed(backend.children, id, includeChildren)
    ensures backend.values == old(backend.values) - Doomed(backend.children, id, includeChildren)
    decreases |Descendants(backend.children, id)|
  {
    ghost var gone := {};
    if includeChildren {
      var todo := if id in backend.children then backend.children[id] else {};
      while todo != {}
        invariant Walked(backend.children, id, todo, gone)
        invariant backend.rows == old(backend.rows) - gone
        invariant backend.metadata == old(backend.metadata) - gone
        invariant backend.values == old(backend.values) - gone
        decreases |todo|
      {
        var child :| child in todo;
        FewerBelow(backend.children, backend.children, id, child);
        WalkedStep(backend.children, id, todo, gone, backend.children, child);
        ghost var more := Doomed(backend.children, child, true);
        MinusTwice(old(backend.rows), gone, more);
        MinusTwice(old(backend.metadata), gone, more);
        MinusTwice(old(backend.values), gone, more);
        DeleteInMemory(backend, child, includeChildren);
        gone := gone + more;
        todo := todo - {child};
      }
      WalkedAll(backend.children, id, gone);
    }
    MinusTwice(old(backend.rows), gone, {id});
    MinusTwice(old(backend.metadata), gone, {id});
    MinusTwice(old(backend.values), gone, {id});
    backend.rows := backend.rows - {id};
    backend.metadata := backend.metadata - {id};
    backend.values := backend.values - {id};
  }

  /** RedisResultBackend.delete: the four keys of a result go together, its children index among them. */
  method DeleteInRedis(backend: ResultBackend, id: Id, includeChildren: bool)
    requires includeChildren ==> Acyclic(backend.children)
    modifies backend
    ensures backend.rows == old(backend.rows) - Doomed(old(backend.children), id, includeChildren)
    ensures backend.metadata == old(backend.metadata) - Doomed(old(backend.children), id, includeChildren)
    ensures backend.values == old(backend.values) - Doomed(old(backend.children), id, includeChildren)
    ensures backend.children == old(backend.children) - Doomed(old(backend.children), id, includeChildren)
    decreases |Descendants(backend.children, id)|
  {
    ghost var children, gone := backend.children, {};
    if includeChildren {
      var todo := if id in backend.children then backend.children[id] else {};
      while todo != {}
        invariant Walked(children, id, todo, gone)
        invariant backend.rows == old(backend.rows) - gone
        invariant backend.metadata == old(backend.metadata) - gone
        invariant backend.values == old(backend.values) - gone
        invariant backend.children == children - gone
        decreases |todo|
      {
        var child :| child in todo;
        ghost var now := backend.children;
        KidsOfLess(children, gone);
        StillAcyclic(children, now);
        FewerBelow(children, now, id, child);
        WalkedStep(children, id, todo, gone, now, child);
        ghost var more := Doomed(now, child, true);
        MinusTwice(old(backend.rows), gone, more);
        MinusTwice(old(backend.metadata), gone, more);
        MinusTwice(old(backend.values), gone, more);
        MinusTwice(children, gone, more);
        DeleteInRedis(backend, child, true);
        gone := gone + more;
        todo := todo - {child};
      }
      WalkedAll(children, id, gone);
    }
    MinusTwice(old(backend.rows), gone, {id});
    MinusTwice(old(backend.metadata), gone, {id});
    MinusTwice(old(backend.values), gone, {id});
    MinusTwice(children, gone, {id});
    backend.rows := backend.rows - {id};
    backend.children := backend.children - {id};
    backend.values := backend.values - {id};
    backend.metadata := backend.metadata - {id};
  }
}
