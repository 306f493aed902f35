/** Reachability in a children index. */
module Graph {
  import opened Types

  type Index = map<Id, set<Id>>

  function Kids(children: Index, id: Id): set<Id> {
    if id in children then children[id] else {}
  }

  /** Every id that is a child of some id. */
  function Nodes(children: Index): set<Id> {
    set p, c | p in children && c in children[p] :: c
  }

  ghost const Everything: iset<Id> := iset x: Id | true

  ghost predicate IsPath(children: Index, live: iset<Id>, path: seq<Id>) {
    && path != []
    && (forall i | 0 <= i < |path| :: path[i] in live)
    && forall i | 0 <= i < |path| - 1 :: path[i + 1] in Kids(children, path[i])
  }

  ghost predicate Joins(path: seq<Id>, a: Id, b: Id) {
    path != [] && path[0] == a && path[|path| - 1] == b
  }

  /** A path leads from `a` to `b` through `live` ids alone, both ends included. */
  ghost predicate Reaches(children: Index, live: iset<Id>, a: Id, b: Id) {
    exists path :: IsPath(children, live, path) && Joins(path, a, b)
  }

  ghost function Reach(children: Index, live: iset<Id>, a: Id): set<Id> {
    set b | b in Nodes(children) + {a} && Reaches(children, live, a, b)
  }

  /** `b` is a child of `a`, or a child's descendant. */
  ghost predicate Below(children: Index, a: Id, b: Id) {
    exists c :: c in Kids(children, a) && Reaches(children, Everything, c, b)
  }

  ghost predicate Acyclic(children: Index) {
    forall a :: !Below(children, a, a)
  }

  ghost function Descendants(children: Index, a: Id): set<Id> {
    set b | b in Nodes(children) && Below(children, a, b)
  }

  // ----- paths

  lemma Self(children: Index, live: iset<Id>, a: Id)
    requires a in live
    ensures Reaches(children, live, a, a)
  {
    assert IsPath(children, live, [a]) && Joins([a], a, a);
  }

  lemma Prepend(children: Index, live: iset<Id>, a: Id, c: Id, b: Id)
    requires a in live && c in Kids(children, a) && Reaches(children, live, c, b)
    ensures Reaches(children, live, a, b)
  {
    var path :| IsPath(children, live, path) && Joins(path, c, b);
    assert IsPath(children, live, [a] + path) && Joins([a] + path, a, b);
  }

  lemma {:induction false} ClosedPath(children: Index, live: iset<Id>, within: set<Id>, path: seq<Id>)
    requires IsPath(children, live, path) && path[0] in within
    requires forall x, c | x in within && c in Kids(children, x) && c in live :: c in within
    ensures path[|path| - 1] in within
  {
    if |path| > 1 {
      ClosedPath(children, live, within, path[1..]);
    }
  }

  /** A set that holds `a` and every live child of its members holds all that `a` reaches. */
  lemma Closed(children: Index, live: iset<Id>, within: set<Id>, a: Id)
    requires a in live ==> a in within
    requires forall x, c | x in within && c in Kids(children, x) && c in live :: c in within
    ensures forall b | Reaches(children, live, a, b) :: b in within
  {
    forall b | Reaches(children, live, a, b) ensures b in within {
      var path :| IsPath(children, live, path) && Joins(path, a, b);
      ClosedPath(children, live, within, path);
    }
  }

  /** Fewer edges or fewer live ids reach less. */
  lemma Weaken(children: Index, live: iset<Id>, more: Index, wider: iset<Id>, a: Id, b: Id)
    requires Reaches(children, live, a, b)
    requires live <= wider && forall x :: Kids(children, x) <= Kids(more, x)
    ensures Reaches(more, wider, a, b)
  {
    var path :| IsPath(children, live, path) && Joins(path, a, b);
    assert IsPath(more, wider, path);
  }

  /** What is reached is the start or someone's child, and live. */
  lemma Ends(children: Index, live: iset<Id>, a: Id, b: Id)
    requires Reaches(children, live, a, b)
    ensures a in live && b in live && (b == a || b in Nodes(children))
  {
    var path :| IsPath(children, live, path) && Joins(path, a, b);
    if |path| > 1 {
      assert path[|path| - 2 + 1] in Kids(children, path[|path| - 2]);
    }
  }

  lemma ReachIff(children: Index, live: iset<Id>, a: Id, b: Id)
    ensures b in Reach(children, live, a) <==> Reaches(children, live, a, b)
  {
    if Reaches(children, live, a, b) {
      Ends(children, live, a, b);
    }
  }

  /** The reached set is the least one that holds the start and is closed under live children. */
  lemma ReachClosed(children: Index, live: iset<Id>, a: Id)
    requires a in live
    ensures a in Reach(children, live, a)
    ensures forall x, c | x in Reach(children, live, a) && c in Kids(children, x) && c in live ::
              c in Reach(children, live, a)
  {
    Self(children, live, a);
    forall x, c | x in Reach(children, live, a) && c in Kids(children, x) && c in live
      ensures c in Reach(children, live, a)
    {
      var path :| IsPath(children, live, path) && Joins(path, a, x);
      assert IsPath(children, live, path + [c]) && Joins(path + [c], a, c);
      ReachIff(children, live, a, c);
    }
  }

  /** A set between the start and its reach that is closed is the whole reach. */
  lemma ReachIs(children: Index, live: iset<Id>, a: Id, found: set<Id>)
    requires a in live && a in found
    requires forall b | b in found :: Reaches(children, live, a, b)
    requires forall x, c | x in found && c in Kids(children, x) && c in live :: c in found
    ensures found == Reach(children, live, a)
  {
    Closed(children, live, found, a);
    forall b ensures b in found <==> b in Reach(children, live, a) {
      ReachIff(children, live, a, b);
    }
  }

  // ----- descendants

  lemma KidsBelow(children: Index, a: Id, c: Id)
    requires c in Kids(children, a)
    ensures Below(children, a, c) && c in Nodes(children)
    ensures forall b | Below(children, c, b) :: Below(children, a, b)
  {
    Self(children, Everything, c);
    forall b | Below(children, c, b) ensures Below(children, a, b) {
      var d :| d in Kids(children, c) && Reaches(children, Everything, d, b);
      Prepend(children, Everything, c, d, b);
    }
  }

  lemma Fewer<T>(small: set<T>, big: set<T>)
    requires small <= big
    ensures |small| <= |big|
  {
    assert big == small + (big - small);
  }

  /** In an acyclic index a child has fewer descendants, also when other edges were dropped meanwhile. */
  lemma FewerBelow(children: Index, now: Index, a: Id, c: Id)
    requires Acyclic(children) && c in Kids(children, a) && forall x :: Kids(now, x) <= Kids(children, x)
    ensures |Descendants(now, c)| < |Descendants(children, a)|
  {
    KidsBelow(children, a, c);
    forall b | b in Descendants(now, c) ensures b in Descendants(children, a) - {c} {
      var d :| d in Kids(now, c) && Reaches(now, Everything, d, b);
      Weaken(now, Everything, children, Everything, d, b);
      Ends(children, Everything, d, b);
      assert d in Kids(children, c) && d in Nodes(children);
      assert Below(children, c, b);
    }
    Fewer(Descendants(now, c), Descendants(children, a) - {c});
  }

  lemma StillAcyclic(children: Index, now: Index)
    requires Acyclic(children) && forall x :: Kids(now, x) <= Kids(children, x)
    ensures Acyclic(now)
  {
    forall a ensures !Below(now, a, a) {
      if Below(now, a, a) {
        var c :| c in Kids(now, a) && Reaches(now, Everything, c, a);
        Weaken(now, Everything, children, Everything, c, a);
        assert Below(children, a, a);
      }
    }
  }

  /** The descendants are what is reached, apart from the start. */
  lemma ReachAndDescendants(children: Index, a: Id)
    ensures Reach(children, Everything, a) == {a} + Descendants(children, a)
  {
    Self(children, Everything, a);
    forall b ensures b in Reach(children, Everything, a) <==> b in {a} + Descendants(children, a) {
      ReachIff(children, Everything, a, b);
      if b != a && Reaches(children, Everything, a, b) {
        var path :| IsPath(children, Everything, path) && Joins(path, a, b);
        var rest := path[1..];
        assert IsPath(children, Everything, rest) && Joins(rest, path[0 + 1], b);
        Ends(children, Everything, a, b);
      }
      if b in Descendants(children, a) {
        var c :| c in Kids(children, a) && Reaches(children, Everything, c, b);
        Prepend(children, Everything, a, c, b);
      }
    }
  }
}
