/** The children index in every run: it is a forest, and it agrees with the stacks of the requests that were sent. */
module LifecycleIndex {
  import opened Types
  import opened ResultModel
  import opened ContextModel
  import opened Lifecycle
  import opened LifecycleInvariants
  import opened LifecycleSafety
  import opened Graph
  import AppModel

  /** The submission of `c` by the handler of `m` got as far as the index. */
  predicate Linked(s: State, m: Tag, c: Id) {
    Submits(s, m, c) && !s.msgs[m].task.subs[c].Chosen?
  }

  /** The index comes before the result, and stays. */
  ghost predicate Filed(s: State, c: Id) {
    && (c in s.rows && s.rows[c].parent.Some? ==> c in Kids(s.children, s.rows[c].parent.value))
    && forall m {:trigger Linked(s, m, c)} :: Linked(s, m, c) ==> c in Kids(s.children, s.msgs[m].req.id)
  }

  /** The index names only the request whose handler picked the id; it was sent before. */
  ghost predicate Picked(s: State, c: Id) {
    && (forall p {:trigger Kids(s.children, p)} | c in Kids(s.children, p) ::
          p in s.sent && c in s.used && s.used[c] == Some(s.sent[p].tag))
    && (c in s.stored && c in s.used && s.used[c].Some? ==>
          && c in s.rows && s.rows[c].parent.Some? && s.rows[c].parent.value in s.sent
          && s.sent[s.rows[c].parent.value].tag == s.used[c].value)
    && (c in s.sent && c in s.used && s.used[c].Some? ==> s.used[c].value < s.sent[c].tag)
  }

  ghost predicate Placed(s: State, c: Id) {
    Filed(s, c) && Picked(s, c)
  }

  /** No two requests were sent under one tag. */
  ghost predicate OneTag(sent: map<Id, Post>) {
    forall a, b | a in sent && b in sent && sent[a].tag == sent[b].tag :: a == b
  }

  // ----- steps that leave the index and the history alone

  ghost predicate Quiet(s: State, s': State, c: Id) {
    && s'.children == s.children && s'.used == s.used && s'.stored == s.stored && s'.sent == s.sent
    && (c in s.rows ==> c in s'.rows && s'.rows[c].parent == s.rows[c].parent)
    && (c !in s.rows && c in s'.rows ==> s'.rows[c].parent.None?)
    && forall m {:trigger Linked(s', m, c)} :: Linked(s', m, c) ==> Linked(s, m, c) && s'.msgs[m].req == s.msgs[m].req
  }

  lemma QuietKeeps(s: State, s': State, c: Id)
    requires Quiet(s, s', c) && Placed(s, c)
    ensures Placed(s', c)
  {
    forall m | Linked(s', m, c) ensures c in Kids(s'.children, s'.msgs[m].req.id) {
      assert Linked(s, m, c);
    }
  }

  lemma ProcessQuiet(cfg: Config, s: State, a: Action, c: Id)
    requires ProcessCan(s, a)
    ensures Quiet(s, ApplyProcess(cfg, s, a), c)
  {
  }

  lemma RowQuiet(s: State, id: Id, row: Row, c: Id)
    requires row.parent == RowOrNew(s.rows, id).parent
    ensures Quiet(s, s.(rows := s.rows[id := row], revoking := s.revoking + {id}), c)
  {
  }

  lemma RevokeQuiet(s: State, id: Id, force: bool, c: Id)
    ensures Quiet(s, DoRevoke(s, id, force), c)
  {
    if force || !RowOrNew(s.rows, id).Done() {
      RowQuiet(s, id, RowOrNew(s.rows, id).Ended(REVOKED), c);
    }
  }

  lemma DeliveryQuiet(cfg: Config, s: State, a: Action, c: Id)
    requires Inv(cfg, s) && DeliveryCan(s, a)
    ensures Quiet(s, ApplyDelivery(cfg, s, a), c)
  {
    if a.Gate? {
      GateQuiet(cfg, s, a.m, a.late, a.unknown, c);
    }
  }

  lemma GateQuiet(cfg: Config, s: State, m: Tag, late: bool, unknown: bool, c: Id)
    requires Unjudged(s, m)
    ensures Quiet(s, DoGate(cfg, s, m, late, unknown), c)
  {
    var s' := DoGate(cfg, s, m, late, unknown);
    assert s'.msgs == With(s.msgs, m, s'.msgs[m].task);
  }

  lemma EndQuiet(s: State, s': State, m: Tag, c: Id)
    requires EndsOne(s, s', m) && !Busy(s', m)
    requires s'.rows == s.rows || (IsFor(s, m, c) && c in s.rows ==> s'.rows[c].parent == s.rows[c].parent)
    requires s.msgs[m].req == s'.msgs[m].req && s.msgs[m].req.id in s.rows
    ensures Quiet(s, s', c)
  {
  }

  lemma EndStores(cfg: Config, s: State, a: Action)
    requires Inv(cfg, s) && EndingCan(s, a)
    ensures var s', id := ApplyEnding(cfg, s, a), s.msgs[a.m].req.id;
            && a.m in s'.msgs && !Busy(s', a.m) && s'.msgs[a.m].req == s.msgs[a.m].req
            && id in s.rows && id in s'.rows && s'.rows[id].parent == s.rows[id].parent
  {
    assert MessageOk(s, a.m);
  }

  lemma EndingQuiet(cfg: Config, s: State, a: Action, c: Id)
    requires Inv(cfg, s) && EndingCan(s, a)
    ensures Quiet(s, ApplyEnding(cfg, s, a), c)
  {
    EndingIsOne(cfg, s, a);
    EndStores(cfg, s, a);
    EndQuiet(s, ApplyEnding(cfg, s, a), a.m, c);
  }

  lemma SettleQuiet(cfg: Config, s: State, d: Delivery, c: Id)
    requires CancelCan(s, CancelSettle(d))
    ensures Quiet(s, DoCancelSettle(cfg, s, d), c)
  {
    var s1, s' := AtBroker(s, d), DoCancelSettle(cfg, s, d);
    assert Quiet(s, s1, c);
    assert s' == s1.(workers := s'.workers, leaked := s'.leaked);
  }

  lemma CancelQuiet(cfg: Config, s: State, a: Action, c: Id)
    requires Inv(cfg, s) && CancelCan(s, a)
    ensures Quiet(s, ApplyCancel(cfg, s, a), c)
  {
    if a.CancelSettle? {
      SettleQuiet(cfg, s, a.d, c);
    } else if !a.Cancel? {
      assert CancelOk(s, a.d);
    }
  }

  // ----- submissions

  lemma PlacedRoot(cfg: Config, s: State, a: Action, c: Id)
    requires Inv(cfg, s) && ClientCan(s, a) && Placed(s, c)
    ensures Placed(ApplyClient(s, a), c)
  {
    if a.Revoke? {
      RevokeQuiet(s, a.id, a.force, c);
      QuietKeeps(s, DoRevoke(s, a.id, a.force), c);
    } else {
      var s' := ApplyClient(s, a);
      forall m | Linked(s', m, c) ensures c in Kids(s'.children, s'.msgs[m].req.id) {
        assert Linked(s, m, c);
      }
    }
  }

  /** A step of a handler that submits `d`: what was linked was so before, or is now. */
  lemma StillFiled(s: State, s': State, m: Tag, d: Id, c: Id)
    requires Placed(s, c) && m in s.msgs
    requires forall x {:trigger Kids(s'.children, x)} :: Kids(s.children, x) <= Kids(s'.children, x)
    requires c in s'.rows && s'.rows[c].parent.Some? ==>
               (c in s.rows && s.rows[c].parent == s'.rows[c].parent) || c in Kids(s'.children, s'.rows[c].parent.value)
    requires forall n {:trigger Linked(s', n, c)} :: Linked(s', n, c) ==>
               && n in s.msgs && s'.msgs[n].req == s.msgs[n].req
               && (Linked(s, n, c) || (n == m && d == c && c in Kids(s'.children, s.msgs[m].req.id)))
    ensures Filed(s', c)
  {
  }

  /** A spawn, but for the id that is picked. */
  lemma EnterQuiet(cfg: Config, s: State, m: Tag, t: Task, d: Id, c: Id)
    requires OnWorker(s, m) && Busy(s, m) && d !in s.msgs[m].task.subs
    requires t == s.msgs[m].task.(subs := s.msgs[m].task.subs[d := Chosen])
    ensures Quiet(s, EnterRun(cfg, s, m, t, d), c)
  {
    var s', t' := EnterRun(cfg, s, m, t, d), t.(deps := t.deps + {d});
    RowKept(s, s.msgs[m].req.id, c);
    SubsQuiet(s, m, t', d, c);
    assert s'.msgs == With(s.msgs, m, t');
    forall n | Linked(s', n, c) ensures Linked(s, n, c) && s'.msgs[n].req == s.msgs[n].req {
      assert Linked(s.(msgs := With(s.msgs, m, t')), n, c);
    }
  }

  lemma SubsQuiet(s: State, m: Tag, t: Task, d: Id, c: Id)
    requires Busy(s, m) && d !in s.msgs[m].task.subs
    requires t.Running? && t.subs == s.msgs[m].task.subs[d := Chosen]
    ensures Quiet(s, s.(msgs := With(s.msgs, m, t)), c)
  {
  }

  lemma PlacedSpawn(cfg: Config, s: State, m: Tag, d: Id, awaited: bool, c: Id)
    requires Inv(cfg, s) && HandlerCan(s, Spawn(m, d, awaited)) && Placed(s, c)
    ensures Placed(DoSpawn(cfg, s, m, d, awaited), c)
  {
    var t := s.msgs[m].task.(subs := s.msgs[m].task.subs[d := Chosen]);
    var s1 := s.(msgs := With(s.msgs, m, t));
    assert MessageOk(s, m) && (d in s.msgs[m].task.subs ==> SubmissionOk(s, m, d));
    if awaited {
      EnterQuiet(cfg, s, m, t, d, c);
      s1 := EnterRun(cfg, s, m, t, d);
    } else {
      SubsQuiet(s, m, t, d, c);
    }
    QuietKeeps(s, s1, c);
    StillFiled(s1, s1.(used := s1.used[d := Some(m)]), m, d, c);
  }

  lemma PlacedIndex(cfg: Config, s: State, m: Tag, d: Id, c: Id)
    requires Inv(cfg, s) && HandlerCan(s, Index(m, d)) && Placed(s, c)
    ensures Placed(DoIndex(s, m, d), c)
  {
    assert MessageOk(s, m) && SubmissionOk(s, m, d);
    StillFiled(s, DoIndex(s, m, d), m, d, c);
  }

  lemma PlacedStore(cfg: Config, s: State, m: Tag, d: Id, c: Id)
    requires Inv(cfg, s) && HandlerCan(s, Store(m, d)) && Placed(s, c)
    ensures Placed(DoStore(s, m, d), c)
  {
    assert MessageOk(s, m) && SubmissionOk(s, m, d);
    assert c == d ==> Linked(s, m, c);
    StillFiled(s, DoStore(s, m, d), m, d, c);
  }

  lemma PlacedSend(cfg: Config, s: State, m: Tag, d: Id, c: Id)
    requires Inv(cfg, s) && HandlerCan(s, Send(m, d)) && Placed(s, c)
    ensures Placed(DoSend(s, m, d), c)
  {
    assert MessageOk(s, m) && SubmissionOk(s, m, d);
    StillFiled(s, DoSend(s, m, d), m, d, c);
  }

  lemma LeaveQuiet(cfg: Config, s: State, m: Tag, t: Task, d: Id, c: Id)
    requires Inv(cfg, s) && OnWorker(s, m) && Busy(s, m) && t.Running? && t.worker == s.msgs[m].task.worker
    requires t.subs == s.msgs[m].task.subs || t.subs == s.msgs[m].task.subs - {d}
    ensures Quiet(s, LeaveRun(cfg, s, m, t, d), c)
  {
    var s' := LeaveRun(cfg, s, m, t, d);
    assert s'.msgs == With(s.msgs, m, t.(deps := t.deps - {d}));
    RowKept(s, s.msgs[m].req.id, c);
  }

  lemma RowKept(s: State, id: Id, c: Id)
    ensures SuspendRow(s.rows, id).Keys == ResumeRow(s.rows, id).Keys == s.rows.Keys
    ensures c in s.rows ==> SuspendRow(s.rows, id)[c].parent == s.rows[c].parent == ResumeRow(s.rows, id)[c].parent
  {
  }

  lemma FailQuiet(cfg: Config, s: State, m: Tag, d: Id, c: Id)
    requires Inv(cfg, s) && HandlerCan(s, SubmitFails(m, d))
    ensures Quiet(s, DoSubmitFails(cfg, s, m, d), c)
  {
    var t := s.msgs[m].task.(subs := s.msgs[m].task.subs - {d});
    if d in t.deps {
      LeaveQuiet(cfg, s, m, t, d, c);
    } else {
      assert DoSubmitFails(cfg, s, m, d).msgs == With(s.msgs, m, t);
    }
  }

  lemma PlacedHandler(cfg: Config, s: State, a: Action, c: Id)
    requires Inv(cfg, s) && HandlerCan(s, a) && Placed(s, c)
    ensures Placed(ApplyHandler(cfg, s, a), c)
  {
    match a
    case Spawn(m, d, awaited) => PlacedSpawn(cfg, s, m, d, awaited, c);
    case Index(m, d) => PlacedIndex(cfg, s, m, d, c);
    case Store(m, d) => PlacedStore(cfg, s, m, d, c);
    case Send(m, d) => PlacedSend(cfg, s, m, d, c);
    case SubmitFails(m, d) =>
      FailQuiet(cfg, s, m, d, c);
      QuietKeeps(s, ApplyHandler(cfg, s, a), c);
    case Release(m, d) =>
      LeaveQuiet(cfg, s, m, s.msgs[m].task, d, c);
      QuietKeeps(s, ApplyHandler(cfg, s, a), c);
  }

  lemma PlacedStep(cfg: Config, s: State, a: Action, c: Id)
    requires Inv(cfg, s) && Enabled(cfg, s, a) && Placed(s, c)
    ensures Placed(Apply(cfg, s, a), c)
  {
    if OfProcess(a) {
      ProcessQuiet(cfg, s, a, c);
      QuietKeeps(s, ApplyProcess(cfg, s, a), c);
    } else if OfClient(a) {
      PlacedRoot(cfg, s, a, c);
    } else if OfDelivery(a) {
      DeliveryQuiet(cfg, s, a, c);
      QuietKeeps(s, ApplyDelivery(cfg, s, a), c);
    } else if OfHandler(a) {
      PlacedHandler(cfg, s, a, c);
    } else if OfEnding(a) {
      EndingQuiet(cfg, s, a, c);
      QuietKeeps(s, ApplyEnding(cfg, s, a), c);
    } else {
      CancelQuiet(cfg, s, a, c);
      QuietKeeps(s, ApplyCancel(cfg, s, a), c);
    }
  }

  lemma {:induction false} RunPlaced(cfg: Config, tr: seq<State>, acts: seq<Action>, i: nat, c: Id)
    requires IsRun(cfg, tr, acts) && i < |tr|
    ensures Placed(tr[i], c)
  {
    if i > 0 {
      RunInv(cfg, tr, acts, i - 1);
      RunPlaced(cfg, tr, acts, i - 1, c);
      assert RunStep(cfg, tr, acts, i - 1);
      PlacedStep(cfg, tr[i - 1], acts[i - 1], c);
    }
  }

  // ----- tags

  lemma OneTagMore(cfg: Config, s: State, id: Id, stack: seq<Id>)
    requires Inv(cfg, s) && OneTag(s.sent)
    ensures OneTag(s.sent[id := Post(stack, s.next)])
  {
    assert forall c | c in s.sent :: LineOk(s, c);
  }

  lemma SpawnSendsNothing(cfg: Config, s: State, m: Tag, c: Id, awaited: bool)
    requires HandlerCan(s, Spawn(m, c, awaited))
    ensures DoSpawn(cfg, s, m, c, awaited).sent == s.sent
  {
  }

  lemma LeaveSendsNothing(cfg: Config, s: State, m: Tag, t: Task, c: Id)
    requires IsHeld(s, m) && t.Running? && t.worker in s.workers
    ensures LeaveRun(cfg, s, m, t, c).sent == s.sent
  {
  }

  lemma SubmissionSends(s: State, a: Action)
    requires HandlerCan(s, a)
    ensures a.Index? ==> DoIndex(s, a.m, a.c).sent == s.sent
    ensures a.Store? ==> DoStore(s, a.m, a.c).sent == s.sent
    ensures a.Send? ==>
      DoSend(s, a.m, a.c).sent == s.sent[a.c := Post(s.msgs[a.m].req.stack + [s.msgs[a.m].req.id], s.next)]
  {
  }

  lemma HandlerSends(cfg: Config, s: State, a: Action)
    requires HandlerCan(s, a)
    ensures !a.Send? ==> ApplyHandler(cfg, s, a).sent == s.sent
    ensures a.Send? ==>
      ApplyHandler(cfg, s, a).sent == s.sent[a.c := Post(s.msgs[a.m].req.stack + [s.msgs[a.m].req.id], s.next)]
  {
    match a
    case Spawn(m, c, awaited) => SpawnSendsNothing(cfg, s, m, c, awaited);
    case SubmitFails(m, c) => LeaveSendsNothing(cfg, s, m, s.msgs[m].task.(subs := s.msgs[m].task.subs - {c}), c);
    case Release(m, c) => LeaveSendsNothing(cfg, s, m, s.msgs[m].task, c);
    case _ => SubmissionSends(s, a);
  }

  lemma SentOnly(cfg: Config, s: State, a: Action)
    requires Inv(cfg, s) && Enabled(cfg, s, a) && !a.SendRoot? && !a.Send?
    ensures Apply(cfg, s, a).sent == s.sent
  {
    if OfProcess(a) {
      ProcessQuiet(cfg, s, a, 0);
    } else if OfDelivery(a) {
      DeliveryQuiet(cfg, s, a, 0);
    } else if OfEnding(a) {
      EndingQuiet(cfg, s, a, 0);
    } else if OfHandler(a) {
      HandlerSends(cfg, s, a);
    } else if !OfClient(a) {
      CancelQuiet(cfg, s, a, 0);
    }
  }

  lemma OneTagStep(cfg: Config, s: State, a: Action)
    requires Inv(cfg, s) && Enabled(cfg, s, a) && OneTag(s.sent)
    ensures OneTag(Apply(cfg, s, a).sent)
  {
    if a.SendRoot? {
      OneTagMore(cfg, s, a.c, []);
    } else if a.Send? {
      HandlerSends(cfg, s, a);
      OneTagMore(cfg, s, a.c, s.msgs[a.m].req.stack + [s.msgs[a.m].req.id]);
    } else {
      SentOnly(cfg, s, a);
    }
  }

  lemma {:induction false} RunOneTag(cfg: Config, tr: seq<State>, acts: seq<Action>, i: nat)
    requires IsRun(cfg, tr, acts) && i < |tr|
    ensures OneTag(tr[i].sent)
  {
    if i > 0 {
      RunInv(cfg, tr, acts, i - 1);
      RunOneTag(cfg, tr, acts, i - 1);
      assert RunStep(cfg, tr, acts, i - 1);
      OneTagStep(cfg, tr[i - 1], acts[i - 1]);
    }
  }

  // ----- the index and the stacks

  /** What is known of the state in every run. */
  ghost predicate IndexOk(cfg: Config, s: State) {
    Inv(cfg, s) && OneTag(s.sent) && forall c {:trigger Placed(s, c)} :: Placed(s, c)
  }

  lemma RunIndex(cfg: Config, tr: seq<State>, acts: seq<Action>, i: nat)
    requires IsRun(cfg, tr, acts) && i < |tr|
    ensures IndexOk(cfg, tr[i])
  {
    RunInv(cfg, tr, acts, i);
    RunOneTag(cfg, tr, acts, i);
    forall c ensures Placed(tr[i], c) {
      RunPlaced(cfg, tr, acts, i, c);
    }
  }

  /** A child that was sent was sent later, and its stack is its parent's stack and its parent. */
  lemma EdgeUp(cfg: Config, s: State, p: Id, c: Id)
    requires IndexOk(cfg, s) && c in Kids(s.children, p)
    ensures p in s.sent
    ensures c in s.sent ==> s.sent[p].tag < s.sent[c].tag && s.sent[c].stack == s.sent[p].stack + [p]
  {
    assert Placed(s, c);
    if c in s.sent {
      assert LineOk(s, c);
    }
  }

  /** Along a path of the index to a request that was sent, the stack grows by just the ids passed. */
  lemma {:induction false} PathIsStack(cfg: Config, s: State, path: seq<Id>)
    requires IndexOk(cfg, s) && IsPath(s.children, Everything, path) && path[|path| - 1] in s.sent
    ensures path[0] in s.sent && s.sent[path[0]].tag <= s.sent[path[|path| - 1]].tag
    ensures |path| > 1 ==> s.sent[path[0]].tag < s.sent[path[|path| - 1]].tag
    ensures s.sent[path[|path| - 1]].stack == s.sent[path[0]].stack + path[..|path| - 1]
  {
    if |path| > 1 {
      PathIsStack(cfg, s, path[1..]);
      assert path[0 + 1] in Kids(s.children, path[0]);
      EdgeUp(cfg, s, path[0], path[1]);
      assert path[..|path| - 1] == [path[0]] + path[1..][..|path| - 2];
    }
  }

  lemma BelowMore(children: Index, a: Id, p: Id, c: Id)
    requires Below(children, a, p) && c in Kids(children, p)
    ensures Below(children, a, c)
  {
    var d :| d in Kids(children, a) && Reaches(children, Everything, d, p);
    var path :| IsPath(children, Everything, path) && Joins(path, d, p);
    assert IsPath(children, Everything, path + [c]) && Joins(path + [c], d, c);
  }

  lemma {:induction false} StackIsBelow(cfg: Config, s: State, a: Id, c: Id)
    requires IndexOk(cfg, s) && c in s.sent && a in s.sent[c].stack
    ensures Below(s.children, a, c)
    decreases |s.sent[c].stack|
  {
    assert LineOk(s, c) && Placed(s, c);
    var p := s.rows[c].parent.value;
    if a == p {
      KidsBelow(s.children, p, c);
    } else {
      StackIsBelow(cfg, s, a, p);
      BelowMore(s.children, a, p, c);
    }
  }

  /** In every run the index has no cycle: a forced revoke and a deletion with children end. */
  lemma IndexIsAcyclic(cfg: Config, tr: seq<State>, acts: seq<Action>, i: nat)
    requires IsRun(cfg, tr, acts) && i < |tr|
    ensures Acyclic(tr[i].children)
  {
    var s := tr[i];
    RunIndex(cfg, tr, acts, i);
    forall a ensures !Below(s.children, a, a) {
      if Below(s.children, a, a) {
        var d :| d in Kids(s.children, a) && Reaches(s.children, Everything, d, a);
        var path :| IsPath(s.children, Everything, path) && Joins(path, d, a);
        EdgeUp(cfg, s, a, d);
        PathIsStack(cfg, s, path);
        assert false;
      }
    }
  }

  /** In every run no id is a child of two requests, and every stored result is in the index under its parent. */
  lemma IndexIsForest(cfg: Config, tr: seq<State>, acts: seq<Action>, i: nat, c: Id)
    requires IsRun(cfg, tr, acts) && i < |tr|
    ensures forall p, q | c in Kids(tr[i].children, p) && c in Kids(tr[i].children, q) :: p == q
    ensures c in tr[i].rows && tr[i].rows[c].parent.Some? ==> c in Kids(tr[i].children, tr[i].rows[c].parent.value)
  {
    RunIndex(cfg, tr, acts, i);
    assert Placed(tr[i], c);
  }

  /**
   In every run, a request that was sent is below exactly the ids of its stack: what revoking an ancestor visits
   is what the gates look for.
   */
  lemma BelowIffStack(cfg: Config, tr: seq<State>, acts: seq<Action>, i: nat, a: Id, c: Id)
    requires IsRun(cfg, tr, acts) && i < |tr| && c in tr[i].sent
    ensures Below(tr[i].children, a, c) <==> a in tr[i].sent[c].stack
  {
    var s := tr[i];
    RunIndex(cfg, tr, acts, i);
    if Below(s.children, a, c) {
      var d :| d in Kids(s.children, a) && Reaches(s.children, Everything, d, c);
      var path :| IsPath(s.children, Everything, path) && Joins(path, d, c);
      PathIsStack(cfg, s, path);
      EdgeUp(cfg, s, a, d);
    } else if a in s.sent[c].stack {
      StackIsBelow(cfg, s, a, c);
    }
  }

  /**
   In every run, a forced revoke that nothing interrupts finds just those sent requests that have its root in
   their stacks, at whatever depth, and the root; and all of them are REVOKED then.
   */
  lemma RevokeFindsStack(cfg: Config, tr: seq<State>, acts: seq<Action>, i: nat, a: Id, log: seq<Id>,
                         after: map<Id, Row>, c: Id)
    requires IsRun(cfg, tr, acts) && i < |tr| && c in tr[i].sent
    requires AppModel.RevokeEffect(tr[i].children, tr[i].rows, a, true, log, after)
    ensures c in log <==> c == a || a in tr[i].sent[c].stack
    ensures c == a || a in tr[i].sent[c].stack ==> c in after && after[c].state.REVOKED?
  {
    var children := tr[i].children;
    BelowIffStack(cfg, tr, acts, i, a, c);
    AppModel.RevokeMeans(children, tr[i].rows, a, true, log, after, c);
    ReachAndDescendants(children, a);
    ReachIff(children, Everything, a, c);
    if Below(children, a, c) {
      var d :| d in Kids(children, a) && Reaches(children, Everything, d, c);
      Prepend(children, Everything, a, d, c);
    }
    assert c in AppModel.Ids(log) <==> c in log;
  }
}
