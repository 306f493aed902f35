/** Submitting and revoking (mognet/app/app.py). */
module AppModel {
  import opened Types
  import opened ResultModel
  import opened Graph

  /** What App sends: task messages, and control messages that revoke an id. */
  class Broker {
    var tasks: seq<Request>
    var control: seq<Id>

    constructor ()
      ensures tasks == [] && control == []
    {
      tasks, control := [], [];
    }

    method SendTaskMessage(req: Request)
      modifies this`tasks
      ensures tasks == old(tasks) + [req]
    {
      tasks := tasks + [req];
    }

    method SendControlMessage(id: Id)
      modifies this`control
      ensures control == old(control) + [id]
    {
      control := control + [id];
    }
  }

  // ----- revoke

  /** The ids that a revoke does not stop at. A missing result counts as not done. */
  ghost function Live(force: bool, rows: map<Id, Row>): iset<Id> {
    iset x: Id | force || x !in rows || !rows[x].Done()
  }

  /** The results after each id of `log` was revoked, as often as it is there. */
  ghost function Revoked(rows: map<Id, Row>, log: multiset<Id>): map<Id, Row> {
    map x | x in rows.Keys + (set y | y in log) :: RevokedRow(RowOrNew(rows, x), log[x])
  }

  function RevokedRow(row: Row, times: nat): Row {
    if times == 0 then row else row.(state := REVOKED, stops := row.stops + times)
  }

  function Ids(log: seq<Id>): set<Id> {
    set x | x in log
  }

  ghost predicate OnceEach(log: seq<Id>) {
    forall x | x in log :: multiset(log)[x] == 1
  }

  /**
   `log` are the control messages of one revoke: exactly the ids that the root reaches through live ids, the
   root first, each once unless forced. Each message stands for one more stop of a result that is REVOKED now, and
   the other results did not change.
   */
  ghost predicate RevokeEffect(children: Index, before: map<Id, Row>, id: Id, force: bool, log: seq<Id>,
                               after: map<Id, Row>) {
    && Ids(log) == Reach(children, Live(force, before), id)
    && after == Revoked(before, multiset(log))
    && (force || OnceEach(log))
    && (log != [] ==> log[0] == id)
  }

  /** What a revoke still has below it. */
  ghost function Measure(children: Index, rows: map<Id, Row>, id: Id, force: bool): nat {
    if force then |Descendants(children, id)| else |Pending(children, rows, id)|
  }

  ghost function Pending(children: Index, rows: map<Id, Row>, id: Id): set<Id> {
    set x | x in Nodes(children) + {id} && x in Live(false, rows)
  }

  /** The walk so far, below `id`: `todo` are the children still to visit, `found` the ids visited. */
  ghost predicate Walked(children: Index, live: iset<Id>, id: Id, todo: set<Id>, found: set<Id>) {
    && id in live && id in found
    && (forall x | x in found :: Reaches(children, live, id, x))
    && (forall x, c | x in found && x != id && c in Kids(children, x) && c in live :: c in found)
    && (forall c | c in Kids(children, id) - todo && c in live :: c in found)
  }

  ghost predicate Walk(children: Index, before: map<Id, Row>, id: Id, force: bool, todo: set<Id>, log: seq<Id>,
                       now: map<Id, Row>) {
    && Walked(children, Live(force, before), id, todo, Ids(log))
    && now == Revoked(before, multiset(log))
    && (force || OnceEach(log))
    && log != [] && log[0] == id
  }

  lemma RevokedTwice(rows: map<Id, Row>, log: multiset<Id>, more: multiset<Id>)
    ensures Revoked(Revoked(rows, log), more) == Revoked(rows, log + more)
  {
    var once, twice, both := Revoked(rows, log), Revoked(Revoked(rows, log), more), Revoked(rows, log + more);
    forall x | x in twice || x in both ensures x in twice && x in both && twice[x] == both[x] {
      assert RowOrNew(once, x) == RevokedRow(RowOrNew(rows, x), log[x]);
    }
  }

  lemma StillLive(force: bool, rows: map<Id, Row>, log: seq<Id>)
    ensures forall x :: x in Live(force, Revoked(rows, multiset(log)))
                        <==> x in Live(force, rows) && (force || x !in Ids(log))
  {
  }

  lemma WalkBegins(children: Index, before: map<Id, Row>, id: Id, force: bool)
    requires id in Live(force, before)
    ensures Walk(children, before, id, force, Kids(children, id), [id],
                 before[id := RowOrNew(before, id).Ended(REVOKED)])
  {
    Self(children, Live(force, before), id);
    assert before[id := RowOrNew(before, id).Ended(REVOKED)] == Revoked(before, multiset([id]));
  }

  lemma WalkEnds(children: Index, before: map<Id, Row>, id: Id, force: bool, log: seq<Id>, now: map<Id, Row>)
    requires Walk(children, before, id, force, {}, log, now)
    ensures RevokeEffect(children, before, id, force, log, now)
  {
    ReachIs(children, Live(force, before), id, Ids(log));
  }

  /** Unforced, a done result ends the revoke at once. */
  lemma NoWalk(children: Index, before: map<Id, Row>, id: Id)
    requires id !in Live(false, before)
    ensures RevokeEffect(children, before, id, false, [], before)
  {
    Closed(children, Live(false, before), {}, id);
  }

  /** A child's walk finds ids that the root reaches too, and with each the live children not found before. */
  lemma ChildReach(children: Index, live: iset<Id>, id: Id, found: set<Id>, now: iset<Id>, c: Id, x: Id)
    requires id in live && c in Kids(children, id)
    requires now <= live && (forall y | y in live - now :: y in found)
    requires x in Reach(children, now, c)
    ensures Reaches(children, live, id, x)
    ensures forall d | d in Kids(children, x) && d in live :: d in found + Reach(children, now, c)
  {
    Ends(children, now, c, x);
    Weaken(children, now, children, live, c, x);
    Prepend(children, live, id, c, x);
    ReachClosed(children, now, c);
  }

  lemma WalkedStep(children: Index, live: iset<Id>, id: Id, todo: set<Id>, found: set<Id>, now: iset<Id>, c: Id)
    requires Walked(children, live, id, todo, found) && c in todo && todo <= Kids(children, id)
    requires now <= live && (forall y | y in live - now :: y in found)
    ensures Walked(children, live, id, todo - {c}, found + Reach(children, now, c))
  {
    forall x | x in Reach(children, now, c)
      ensures Reaches(children, live, id, x)
      ensures forall d | d in Kids(children, x) && d in live :: d in found + Reach(children, now, c)
    {
      ChildReach(children, live, id, found, now, c, x);
    }
    if c in now {
      ReachClosed(children, now, c);
    }
  }

  lemma OnceEachTwice(log: seq<Id>, more: seq<Id>)
    requires OnceEach(log) && OnceEach(more) && Ids(log) !! Ids(more)
    ensures OnceEach(log + more)
  {
    forall x | x in log + more ensures multiset(log + more)[x] == 1 {
      assert multiset(log + more) == multiset(log) + multiset(more);
      assert x in Ids(log) <==> x in multiset(log);
      assert x in Ids(more) <==> x in multiset(more);
    }
  }

  lemma WalkStep(children: Index, before: map<Id, Row>, id: Id, force: bool, todo: set<Id>, log: seq<Id>,
                 now: map<Id, Row>, c: Id, more: seq<Id>, after: map<Id, Row>)
    requires Walk(children, before, id, force, todo, log, now) && c in todo && todo <= Kids(children, id)
    requires RevokeEffect(children, now, c, force, more, after)
    ensures Walk(children, before, id, force, todo - {c}, log + more, after)
  {
    RevokedTwice(before, multiset(log), multiset(more));
    assert multiset(log + more) == multiset(log) + multiset(more);
    StillLive(force, before, log);
    WalkedStep(children, Live(force, before), id, todo, Ids(log), Live(force, now), c);
    assert Ids(log + more) == Ids(log) + Ids(more);
    if !force {
      forall x | x in Ids(more) ensures x !in Ids(log) {
        Ends(children, Live(force, now), c, x);
      }
      OnceEachTwice(log, more);
    }
  }

  lemma Descend(children: Index, before: map<Id, Row>, id: Id, force: bool, todo: set<Id>, log: seq<Id>,
                now: map<Id, Row>, c: Id)
    requires Walk(children, before, id, force, todo, log, now) && c in Kids(children, id)
    requires force ==> Acyclic(children)
    ensures Measure(children, now, c, force) < Measure(children, before, id, force)
  {
    if force {
      FewerBelow(children, children, id, c);
    } else {
      StillLive(false, before, log);
      KidsBelow(children, id, c);
      Fewer(Pending(children, now, c), Pending(children, before, id) - {id});
    }
  }

  /** The root is revoked first, unless it is done and that stops the revoke. */
  lemma RootFirst(children: Index, before: map<Id, Row>, id: Id, force: bool, log: seq<Id>, after: map<Id, Row>)
    requires RevokeEffect(children, before, id, force, log, after)
    ensures id !in Live(force, before) ==> log == [] && after == before
    ensures id in Live(force, before) ==> log != [] && id in after && after[id].state.REVOKED?
  {
    if id in Live(force, before) {
      ReachClosed(children, Live(force, before), id);
      assert id in Ids(log);
    } else {
      Closed(children, Live(force, before), {}, id);
      SomeId(log);
      assert multiset(log) == multiset{};
      assert Revoked(before, multiset{}) == before;
    }
  }

  /** What a revoke did, id by id. */
  lemma RevokeMeans(children: Index, before: map<Id, Row>, id: Id, force: bool, log: seq<Id>, after: map<Id, Row>,
                    x: Id)
    requires RevokeEffect(children, before, id, force, log, after)
    ensures Reaches(children, Live(force, before), id, x) ==>
      && x in after && after[x].state.REVOKED?
      && after[x] == RowOrNew(before, x).(state := REVOKED, stops := after[x].stops)
      && after[x].stops == RowOrNew(before, x).stops + multiset(log)[x]
      && (if force then multiset(log)[x] >= 1 else multiset(log)[x] == 1)
    ensures !Reaches(children, Live(force, before), id, x) ==>
      x !in log && (x in after <==> x in before) && (x in before ==> after[x] == before[x])
    ensures force ==> Ids(log) == {id} + Descendants(children, id)
    ensures !force && id in before && before[id].state in {SUCCESS, FAILURE, REVOKED, INVALID} ==>
              log == [] && after == before
    ensures force || id !in before || before[id].state in {PENDING, RUNNING, SUSPENDED} ==>
              log != [] && log[0] == id && id in after && after[id].state == REVOKED
  {
    RootFirst(children, before, id, force, log, after);
    ReachIff(children, Live(force, before), id, x);
    assert x in Ids(log) <==> x in multiset(log);
    if force {
      assert Live(force, before) == Everything;
      ReachAndDescendants(children, id);
    }
  }

  lemma SomeId(log: seq<Id>)
    ensures log != [] ==> Ids(log) != {}
  {
    if log != [] {
      assert log[0] in Ids(log);
    }
  }

  /** Revoking again, unforced, does nothing. */
  lemma RevokeAgain(children: Index, before: map<Id, Row>, id: Id, force: bool, log: seq<Id>, after: map<Id, Row>,
                    log': seq<Id>, after': map<Id, Row>)
    requires RevokeEffect(children, before, id, force, log, after)
    requires RevokeEffect(children, after, id, false, log', after')
    ensures log' == [] && after' == after
  {
    assert id !in Live(false, after) by {
      if id in Live(force, before) {
        ReachClosed(children, Live(force, before), id);
        RevokeMeans(children, before, id, force, log, after, id);
      } else {
        RevokeMeans(children, before, id, force, log, after, id);
        Closed(children, Live(force, before), {}, id);
      }
    }
    Closed(children, Live(false, after), {}, id);
    SomeId(log');
  }

  lemma SentSince(was: seq<Id>, now: seq<Id>, sent: nat)
    requires was <= now && sent <= |was|
    ensures now[sent..] == was[sent..] + now[|was|..]
  {
  }

  // ----- submit

  /** Which call of a submission raises, if any. */
  datatype Fault = NoFault | IndexFails | StoreFails | SendFails

  class App {
    const backend: ResultBackend
    const broker: Broker

    constructor (backend: ResultBackend, broker: Broker)
      ensures this.backend == backend && this.broker == broker
    {
      this.backend, this.broker := backend, broker;
    }

    /**
     Submit the request `id`, as a child when a context is given. The index comes first, then the result,
     then the message: wherever the submission fails, a message that was sent has its result, and its
     stack is its parent's stack and its parent.
     */
    method Submit(id: Id, context: Option<Request>, fault: Fault) returns (ok: bool)
      modifies backend`children, backend`rows, broker`tasks
      ensures ok <==> fault.NoFault? || (fault.IndexFails? && context.None?)
      ensures broker.tasks == old(broker.tasks)
        + (if ok then [Request(id, if context.None? then [] else context.value.stack + [context.value.id])] else [])
      ensures backend.rows
        == if ok || fault.SendFails?
           then old(backend.rows)[id :=
                  Row(PENDING, 0, 0, None, if context.None? then None else Some(context.value.id))]
           else old(backend.rows)
      ensures forall x :: Kids(backend.children, x) == Kids(old(backend.children), x)
                + (if context.Some? && x == context.value.id && !fault.IndexFails? then {id} else {})
    {
      var stack, parent := [], None;
      if context.Some? {
        parent := Some(context.value.id);
        stack := context.value.stack + [context.value.id];
        if fault.IndexFails? {
          return false;
        }
        backend.AddChild(context.value.id, id);
      }
      if fault.StoreFails? {
        return false;
      }
      var result := new Result(backend, id, Submitted(parent));
      result.Update();
      if fault.SendFails? {
        return false;
      }
      broker.SendTaskMessage(Request(id, stack));
      ok := true;
    }

    /**
     Revoke a request and, recursively, its children. Unforced it ends on any index, cycles included,
     because the results that are not done grow fewer; forced it needs an acyclic one.
     */
    method Revoke(id: Id, force: bool) returns (result: Result)
      requires force ==> Acyclic(backend.children)
      modifies backend`rows, broker`control
      ensures old(broker.control) <= broker.control
      ensures RevokeEffect(backend.children, old(backend.rows), id, force,
                           broker.control[|old(broker.control)|..], backend.rows)
      ensures result.View()
        == if id in Live(force, old(backend.rows)) then RowOrNew(old(backend.rows), id).Ended(REVOKED)
           else old(backend.rows)[id]
      decreases Measure(backend.children, backend.rows, id, force), 1
    {
      ghost var before, sent := backend.rows, |broker.control|;
      result := backend.GetOrCreate(id);
      if !force && result.View().Done() {
        NoWalk(backend.children, before, id);
        assert broker.control[sent..] == [];
        return;
      }
      result.Revoke();
      broker.SendControlMessage(id);
      WalkBegins(backend.children, before, id, force);
      assert broker.control[sent..] == [id];
      var todo := if id in backend.children then backend.children[id] else {};
      while todo != {}
        invariant fresh(result) && result.View() == RowOrNew(before, id).Ended(REVOKED)
        invariant old(broker.control) <= broker.control
        invariant todo <= Kids(backend.children, id)
        invariant Walk(backend.children, before, id, force, todo, broker.control[sent..], backend.rows)
        decreases |todo|
      {
        var child :| child in todo;
        RevokeChild(id, force, child, before, todo, sent);
        todo := todo - {child};
      }
      WalkEnds(backend.children, before, id, force, broker.control[sent..], backend.rows);
    }

    /** One turn of the loop over the children of `id`. */
    method RevokeChild(id: Id, force: bool, child: Id, ghost before: map<Id, Row>, ghost todo: set<Id>, ghost sent: nat)
      requires force ==> Acyclic(backend.children)
      requires child in todo && todo <= Kids(backend.children, id) && sent <= |broker.control|
      requires Walk(backend.children, before, id, force, todo, broker.control[sent..], backend.rows)
      modifies backend`rows, broker`control
      ensures old(broker.control) <= broker.control
      ensures Walk(backend.children, before, id, force, todo - {child}, broker.control[sent..], backend.rows)
      decreases Measure(backend.children, before, id, force), 0
    {
      ghost var log, now, mark := broker.control[sent..], backend.rows, |broker.control|;
      Descend(backend.children, before, id, force, todo, log, now, child);
      ghost var was := broker.control;
      var _ := Revoke(child, force);
      SentSince(was, broker.control, sent);
      WalkStep(backend.children, before, id, force, todo, log, now, child, broker.control[mark..], backend.rows);
    }
  }
}
