/** What every action keeps, revocations included. */
module LifecycleInvariants {
  import opened Types
  import opened ResultModel
  import opened Settlement
  import opened WorkerModel
  import opened ContextModel
  import opened Lifecycle

  /** The result is stored before the message is sent, and ids are picked before either. */
  ghost predicate IdsOk(s: State) {
    s.sent.Keys <= s.stored && s.stored <= s.used.Keys && s.stored <= s.rows.Keys
  }

  /** A message is the one sent for its request; a live process holds it under its id. */
  ghost predicate MessageOk(s: State, m: Tag)
    requires m in s.msgs
  {
    var req := s.msgs[m].req;
    && m < s.next
    && req.id in s.sent && s.sent[req.id] == Post(req.stack, m)
    && req.id in s.rows
    && (s.msgs[m].Held? ==> HeldOk(s, m))
  }

  /** The process keeps the holder until a pause or a cancellation drops it. */
  ghost predicate HeldOk(s: State, m: Tag)
    requires IsHeld(s, m)
  {
    var id, t, d := s.msgs[m].req.id, s.msgs[m].task, DeliveryOf(s, m);
    && t.worker in s.workers && d.number < s.deliveries
    && (!t.Pausing? && d !in s.cancels ==> id in s.workers[t.worker].running && s.workers[t.worker].running[id] == m)
    && (d in s.cancels ==>
          s.cancels[d].worker == t.worker && s.cancels[d].id == id && !t.Pausing? && id !in s.workers[t.worker].running)
    && (t.Copy().Some? ==> id in s.rows && t.Copy().value.parent == s.rows[id].parent)
    && (t.Ended? ==> t.outcome.Ready())
    && (t.Running? ==>
          && (forall c | c in t.subs :: SubmissionOk(s, m, c))
          && (forall c | c in t.deps :: DepOk(s, m, c)))
  }

  /** A submission under way belongs to the handler that picked the child, and is not sent yet. */
  ghost predicate SubmissionOk(s: State, m: Tag, c: Id)
    requires Submits(s, m, c)
  {
    && c in s.used && s.used[c] == Some(m) && c !in s.sent
    && (c in s.stored <==> s.msgs[m].task.subs[c].Stored?)
    && (c in s.stored ==> c in s.rows && s.rows[c].parent == Some(s.msgs[m].req.id))
  }

  /** A dependency is being submitted, or was sent as a child. */
  ghost predicate DepOk(s: State, m: Tag, c: Id)
    requires Busy(s, m)
  {
    c in s.msgs[m].task.subs || (c in s.sent && c in s.rows && s.rows[c].parent == Some(s.msgs[m].req.id))
  }

  /** A live process: running_tasks names messages that it holds, and the broker's limit mirrors the prefetch. */
  ghost predicate WorkerOk(cfg: Config, s: State, w: Id)
    requires w in s.workers
  {
    && w !in s.gone
    && Tuned(cfg, s.workers[w])
    && (forall id | id in s.workers[w].running :: RunsOk(s, w, id))
  }

  ghost predicate RunsOk(s: State, w: Id, id: Id)
    requires w in s.workers && id in s.workers[w].running
  {
    var m := s.workers[w].running[id];
    HeldBy(s, m, w) && !s.msgs[m].task.Pausing? && s.msgs[m].req.id == id && DeliveryOf(s, m) !in s.cancels
  }

  ghost predicate Tuned(cfg: Config, w: WorkerState) {
    w.limit == w.prefetch && (w.consuming ==> w.prefetch == Target(cfg, |w.waiting|))
  }

  /**
   A cancellation is for a delivery of its request to a live process: one that stopped consuming, or of a
   revoked request. The delivery is still under way, unless it was acknowledged, or failed.
   */
  ghost predicate CancelOk(s: State, d: Delivery)
    requires d in s.cancels
  {
    var c := s.cancels[d];
    && d.number < s.deliveries && d.tag < s.next && c.worker in s.workers
    && c.id in s.sent && s.sent[c.id].tag == d.tag && c.id in s.rows
    && (c.stage.Copied? || c.stage.Outlived? ==> c.stage.row.parent == s.rows[c.id].parent)
    && (c.over || c.stage.Outlived? ==> !Ours(s, d))
    && (!c.over && !c.stage.Outlived? ==> Ours(s, d) || d.tag !in s.msgs)
    && (if c.verb.Nack? then !s.workers[c.worker].consuming else c.id in s.revoking)
  }

  /** A sent request has a tag of its own, and its stack is its parent's stack and its parent. */
  ghost predicate LineOk(s: State, c: Id)
    requires c in s.sent
  {
    && c in s.rows
    && s.sent[c].tag < s.next && (s.sent[c].tag in s.msgs ==> s.msgs[s.sent[c].tag].req.id == c)
    && match s.rows[c].parent
       case None => s.sent[c].stack == []
       case Some(p) => p in s.sent && s.sent[c].stack == s.sent[p].stack + [p]
  }

  ghost predicate Inv(cfg: Config, s: State) {
    && IdsOk(s)
    && (forall m {:trigger MessageOk(s, m)} | m in s.msgs :: MessageOk(s, m))
    && (forall w {:trigger WorkerOk(cfg, s, w)} | w in s.workers :: WorkerOk(cfg, s, w))
    && (forall c {:trigger LineOk(s, c)} | c in s.sent :: LineOk(s, c))
    && (forall d {:trigger CancelOk(s, d)} | d in s.cancels :: CancelOk(s, d))
  }

  /** Whatever was fine before a step has to be fine after it, piece by piece. */
  lemma Frame(cfg: Config, s: State, s': State)
    requires Inv(cfg, s) && IdsOk(s')
    requires forall m {:trigger MessageOk(s', m)} | m in s'.msgs ::
               (m in s.msgs ==> MessageOk(s, m)) ==> MessageOk(s', m)
    requires forall w {:trigger WorkerOk(cfg, s', w)} | w in s'.workers ::
               (w in s.workers ==> WorkerOk(cfg, s, w)) ==> WorkerOk(cfg, s', w)
    requires forall c {:trigger LineOk(s', c)} | c in s'.sent :: (c in s.sent ==> LineOk(s, c)) ==> LineOk(s', c)
    requires forall d {:trigger CancelOk(s', d)} | d in s'.cancels ::
               (d in s.cancels ==> CancelOk(s, d)) ==> CancelOk(s', d)
    ensures Inv(cfg, s')
  {
    forall m | m in s'.msgs ensures MessageOk(s', m) {
      assert m in s.msgs ==> MessageOk(s, m);
    }
    forall w | w in s'.workers ensures WorkerOk(cfg, s', w) {
      assert w in s.workers ==> WorkerOk(cfg, s, w);
    }
    forall c | c in s'.sent ensures LineOk(s', c) {
      assert c in s.sent ==> LineOk(s, c);
    }
    forall d | d in s'.cancels ensures CancelOk(s', d) {
      assert d in s.cancels ==> CancelOk(s, d);
    }
  }

  // ----- parts of a step

  /** A handler's task changes. */
  lemma KeepTask(cfg: Config, s: State, m: Tag, t: Task)
    requires Inv(cfg, s) && OnWorker(s, m) && !s.msgs[m].task.Pausing?
    requires t.worker == s.msgs[m].task.worker && !t.Pausing?
    requires HeldOk(s.(msgs := With(s.msgs, m, t)), m)
    ensures Inv(cfg, s.(msgs := With(s.msgs, m, t)))
  {
    Frame(cfg, s, s.(msgs := With(s.msgs, m, t)));
  }

  /** Results change or appear, but stored ones keep their parents. */
  lemma KeepRows(cfg: Config, s: State, rows: map<Id, Row>)
    requires Inv(cfg, s)
    requires forall c | c in s.rows :: c in rows && (c in s.stored ==> rows[c].parent == s.rows[c].parent)
    ensures Inv(cfg, s.(rows := rows))
  {
    Frame(cfg, s, s.(rows := rows));
  }

  /** A worker's waiting set or its wish to consume changes, and its prefetch follows. */
  lemma KeepWaiting(cfg: Config, s: State, w: Id, ws: WorkerState)
    requires Inv(cfg, s) && w in s.workers
    requires ws.running == s.workers[w].running && Tuned(cfg, ws) && (ws.consuming ==> s.workers[w].consuming)
    ensures Inv(cfg, s.(workers := s.workers[w := ws]))
  {
    Frame(cfg, s, s.(workers := s.workers[w := ws]));
  }

  /** A fresh id is picked for a request. */
  lemma KeepUsed(cfg: Config, s: State, c: Id, owner: Option<Tag>)
    requires Inv(cfg, s) && c !in s.used
    ensures Inv(cfg, s.(used := s.used[c := owner]))
  {
    Frame(cfg, s, s.(used := s.used[c := owner]));
  }

  lemma FreshTag(cfg: Config, s: State)
    requires Inv(cfg, s)
    ensures s.next !in s.msgs
  {
    assert s.next in s.msgs ==> MessageOk(s, s.next);
  }

  /** A request whose result is stored is sent, with its parent's stack and its parent. */
  lemma KeepPublish(cfg: Config, s: State, req: Request)
    requires Inv(cfg, s) && req.id in s.stored && req.id !in s.sent
    requires forall m | Busy(s, m) :: req.id !in s.msgs[m].task.subs
    requires match s.rows[req.id].parent
             case None => req.stack == []
             case Some(p) => p in s.sent && req.stack == s.sent[p].stack + [p]
    ensures Inv(cfg, Publish(s, req))
  {
    FreshTag(cfg, s);
    Frame(cfg, s, Publish(s, req));
  }

  /** A delivery ends: it is settled and its holder forgotten. */
  lemma KeepAck(cfg: Config, s: State, m: Tag, asked: seq<Verb>)
    requires Inv(cfg, s) && OnWorker(s, m) && Effect(asked) == Some(Ack)
    ensures Inv(cfg, DoSettle(s, m, asked))
  {
    assert MessageOk(s, m);
    Frame(cfg, s, DoSettle(s, m, asked));
  }

  /** The message goes back after a pause, whose holder is gone. */
  lemma KeepRequeue(cfg: Config, s: State, m: Tag)
    requires Inv(cfg, s) && OnWorker(s, m) && s.msgs[m].task.Pausing?
    ensures Inv(cfg, DoSettle(s, m, [Nack, Ack]))
  {
    assert MessageOk(s, m);
    Frame(cfg, s, DoSettle(s, m, [Nack, Ack]));
  }

  lemma KeepFatal(cfg: Config, s: State, m: Tag)
    requires Inv(cfg, s) && OnWorker(s, m) && !s.msgs[m].task.Pausing?
    ensures Inv(cfg, DoFatal(s, m))
  {
    var d := DeliveryOf(s, m);
    assert MessageOk(s, m) && (d in s.cancels ==> CancelOk(s, d));
    Frame(cfg, s, DoFatal(s, m));
  }

  lemma KeepEnterRun(cfg: Config, s: State, m: Tag, t: Task, c: Id)
    requires Inv(cfg, s) && OnWorker(s, m) && Busy(s, m)
    requires t.Running? && t.worker == s.msgs[m].task.worker && HeldOk(s.(msgs := With(s.msgs, m, t)), m)
    requires c in t.subs
    ensures Inv(cfg, EnterRun(cfg, s, m, t, c))
  {
    var id, w := s.msgs[m].req.id, t.worker;
    var t1 := t.(deps := t.deps + {c});
    KeepTask(cfg, s, m, t1);
    if t.deps == {} {
      var s1 := s.(msgs := With(s.msgs, m, t1));
      KeepRows(cfg, s1, SuspendRow(s.rows, id));
      assert WorkerOk(cfg, s, w);
      KeepWaiting(cfg, s1.(rows := SuspendRow(s.rows, id)), w, AddWaiting(cfg, s.workers[w], id));
    }
  }

  lemma KeepLeaveRun(cfg: Config, s: State, m: Tag, t: Task, c: Id)
    requires Inv(cfg, s) && OnWorker(s, m) && Busy(s, m)
    requires t.Running? && t.worker == s.msgs[m].task.worker
    requires HeldOk(s.(msgs := With(s.msgs, m, t.(deps := t.deps - {c}))), m)
    ensures Inv(cfg, LeaveRun(cfg, s, m, t, c))
  {
    var id, w := s.msgs[m].req.id, t.worker;
    var t1 := t.(deps := t.deps - {c});
    KeepTask(cfg, s, m, t1);
    if t1.deps == {} {
      var s1 := s.(msgs := With(s.msgs, m, t1));
      KeepRows(cfg, s1, ResumeRow(s.rows, id));
      assert WorkerOk(cfg, s, w);
      KeepWaiting(cfg, s1.(rows := ResumeRow(s.rows, id)), w, RemoveSuspended(cfg, s.workers[w], id));
    }
  }

  // ----- the actions that are more than one part

  lemma KeepJoin(cfg: Config, s: State, w: Id)
    requires Inv(cfg, s) && w !in s.workers && w !in s.gone
    ensures Inv(cfg, s.(workers := s.workers[w := Fresh(cfg)]))
  {
    Frame(cfg, s, s.(workers := s.workers[w := Fresh(cfg)]));
  }

  lemma KeepCrash(cfg: Config, s: State, w: Id)
    requires Inv(cfg, s) && w in s.workers
    ensures Inv(cfg, DoCrash(s, w))
  {
    forall d | d in s.cancels && Ours(s, d) ensures CancelOk(s, d) && MessageOk(s, d.tag) {
    }
    Frame(cfg, s, DoCrash(s, w));
  }

  lemma KeepCancel(cfg: Config, s: State, w: Id, id: Id, verb: Verb)
    requires Inv(cfg, s) && CancelCan(s, Cancel(w, id, verb))
    ensures Inv(cfg, DoCancel(s, w, id, verb))
  {
    assert WorkerOk(cfg, s, w) && RunsOk(s, w, id) && MessageOk(s, s.workers[w].running[id]);
    Frame(cfg, s, DoCancel(s, w, id, verb));
  }

  lemma KeepCancelRead(cfg: Config, s: State, d: Delivery)
    requires Inv(cfg, s) && CancelCan(s, CancelRead(d))
    ensures Inv(cfg, DoCancelRead(s, d))
    ensures DoCancelRead(s, d).rows == s.rows
  {
    assert CancelOk(s, d);
    Frame(cfg, s, DoCancelRead(s, d));
  }

  lemma KeepCancelWrite(cfg: Config, s: State, d: Delivery)
    requires Inv(cfg, s) && CancelCan(s, CancelWrite(d))
    ensures Inv(cfg, DoCancelWrite(s, d))
  {
    assert CancelOk(s, d);
    var rows := DoCancelWrite(s, d).rows;
    KeepRows(cfg, s, rows);
    Frame(cfg, s.(rows := rows), DoCancelWrite(s, d));
  }

  lemma KeepCancelLand(cfg: Config, s: State, d: Delivery)
    requires Inv(cfg, s) && CancelCan(s, CancelLand(d))
    ensures Inv(cfg, DoCancelLand(s, d))
  {
    assert CancelOk(s, d);
    var rows := DoCancelLand(s, d).rows;
    KeepRows(cfg, s, rows);
    Frame(cfg, s.(rows := rows), DoCancelLand(s, d));
  }

  /** The broker's side of it. */
  lemma KeepSettled(cfg: Config, s: State, d: Delivery)
    requires Inv(cfg, s) && d in s.cancels
    ensures Inv(cfg, AtBroker(s, d))
  {
    assert Ours(s, d) ==> MessageOk(s, d.tag);
    Frame(cfg, s, AtBroker(s, d));
  }

  lemma KeepCancelSettle(cfg: Config, s: State, d: Delivery)
    requires Inv(cfg, s) && d in s.cancels
    ensures Inv(cfg, DoCancelSettle(cfg, s, d))
  {
    var s1 := AtBroker(s, d);
    KeepSettled(cfg, s, d);
    if Completes(s, d) {
      var w := s.msgs[d.tag].task.worker;
      assert WorkerOk(cfg, s, w);
      KeepWaiting(cfg, s1, w, RemoveSuspended(cfg, s.workers[w], s.msgs[d.tag].req.id));
    } else {
      KeepHistory(cfg, s1, s.children, s.unheld, DoCancelSettle(cfg, s, d).leaked);
    }
  }

  lemma KeepStoreRoot(cfg: Config, s: State, c: Id)
    requires Inv(cfg, s) && c !in s.used
    ensures Inv(cfg, DoStoreRoot(s, c))
  {
    Frame(cfg, s, DoStoreRoot(s, c));
  }

  lemma KeepDeliver(cfg: Config, s: State, w: Id, m: Tag)
    requires Inv(cfg, s) && w in s.workers && IsQueued(s, m)
    ensures Inv(cfg, DoDeliver(s, w, m))
  {
    assert MessageOk(s, m) && WorkerOk(cfg, s, w);
    assert Delivery(m, s.deliveries) in s.cancels ==> CancelOk(s, Delivery(m, s.deliveries));
    Frame(cfg, s, DoDeliver(s, w, m));
  }

  lemma KeepStart(cfg: Config, s: State, m: Tag, row: Row, unheld: set<Id>)
    requires Inv(cfg, s) && OnWorker(s, m) && !s.msgs[m].task.Pausing?
    requires s.msgs[m].req.id in s.rows && row.parent == s.rows[s.msgs[m].req.id].parent
    ensures Inv(cfg, s.(msgs := With(s.msgs, m, Running(s.msgs[m].task.worker, row, {}, map[])),
                        rows := s.rows[s.msgs[m].req.id := row], unheld := unheld))
  {
    var w, id := s.msgs[m].task.worker, s.msgs[m].req.id;
    assert MessageOk(s, m);
    KeepRows(cfg, s, s.rows[id := row]);
    var s1 := s.(rows := s.rows[id := row]);
    KeepTask(cfg, s1, m, Running(w, row, {}, map[]));
    KeepHistory(cfg, s1.(msgs := With(s.msgs, m, Running(w, row, {}, map[]))), s.children, unheld, s.leaked);
  }

  lemma KeepGate(cfg: Config, s: State, m: Tag, late: bool, unknown: bool)
    requires Inv(cfg, s) && Unjudged(s, m)
    ensures Inv(cfg, DoGate(cfg, s, m, late, unknown))
  {
    var req, w, s' := s.msgs[m].req, s.msgs[m].task.worker, DoGate(cfg, s, m, late, unknown);
    assert MessageOk(s, m);
    var v := Judge(cfg, s.rows, req, late, unknown);
    var row := Sentence(v, s.rows[req.id], w);
    if v.Start? {
      KeepStart(cfg, s, m, row, s'.unheld);
    } else {
      KeepWritten(cfg, s, m, row, Written(w, None, false), s'.unheld);
    }
  }

  lemma KeepSpawn(cfg: Config, s: State, m: Tag, c: Id, awaited: bool)
    requires Inv(cfg, s) && OnWorker(s, m) && Busy(s, m) && c !in s.used
    ensures Inv(cfg, DoSpawn(cfg, s, m, c, awaited))
  {
    assert MessageOk(s, m);
    KeepUsed(cfg, s, c, Some(m));
    var s1 := s.(used := s.used[c := Some(m)]);
    var t := s.msgs[m].task.(subs := s.msgs[m].task.subs[c := Chosen]);
    if awaited {
      KeepEnterRun(cfg, s1, m, t, c);
    } else {
      KeepTask(cfg, s1, m, t);
    }
  }

  lemma KeepIndex(cfg: Config, s: State, m: Tag, c: Id)
    requires Inv(cfg, s) && OnWorker(s, m) && SubmitsAt(s, m, c, Chosen)
    ensures Inv(cfg, DoIndex(s, m, c))
  {
    assert MessageOk(s, m);
    var t := s.msgs[m].task;
    var s1 := s.(children := DoIndex(s, m, c).children);
    KeepHistory(cfg, s, s1.children, s.unheld, s.leaked);
    KeepTask(cfg, s1, m, t.(subs := t.subs[c := Indexed]));
  }

  /** No invariant here looks at the children index, or at how handlers ended. */
  lemma KeepHistory(cfg: Config, s: State, children: map<Id, set<Id>>, unheld: set<Id>, leaked: set<Id>)
    requires Inv(cfg, s)
    ensures Inv(cfg, s.(children := children, unheld := unheld, leaked := leaked))
  {
    Frame(cfg, s, s.(children := children, unheld := unheld, leaked := leaked));
  }

  lemma KeepStore(cfg: Config, s: State, m: Tag, c: Id)
    requires Inv(cfg, s) && OnWorker(s, m) && SubmitsAt(s, m, c, Indexed)
    ensures Inv(cfg, DoStore(s, m, c))
  {
    var s' := DoStore(s, m, c);
    assert MessageOk(s, m);
    Frame(cfg, s, s');
  }

  lemma KeepSend(cfg: Config, s: State, m: Tag, c: Id)
    requires Inv(cfg, s) && OnWorker(s, m) && SubmitsAt(s, m, c, Stored)
    ensures Inv(cfg, DoSend(s, m, c))
  {
    assert MessageOk(s, m) && SubmissionOk(s, m, c);
    FreshTag(cfg, s);
    Frame(cfg, s, DoSend(s, m, c));
  }

  lemma KeepSendRoot(cfg: Config, s: State, c: Id)
    requires Inv(cfg, s) && c in s.stored && c !in s.sent && c in s.rows && s.rows[c].parent.None?
    ensures Inv(cfg, Publish(s, Request(c, [])))
  {
    forall n | Busy(s, n) ensures c !in s.msgs[n].task.subs {
      assert MessageOk(s, n);
      assert c in s.msgs[n].task.subs ==> SubmissionOk(s, n, c);
    }
    KeepPublish(cfg, s, Request(c, []));
  }

  lemma KeepSubmitFails(cfg: Config, s: State, m: Tag, c: Id)
    requires Inv(cfg, s) && OnWorker(s, m) && Submits(s, m, c)
    ensures Inv(cfg, DoSubmitFails(cfg, s, m, c))
  {
    assert MessageOk(s, m);
    var t := s.msgs[m].task.(subs := s.msgs[m].task.subs - {c});
    if c in t.deps {
      KeepLeaveRun(cfg, s, m, t, c);
    } else {
      KeepTask(cfg, s, m, t);
    }
  }

  /** The end of a delivery past its gate or its handler is written. */
  lemma KeepWritten(cfg: Config, s: State, m: Tag, row: Row, t: Task, unheld: set<Id>)
    requires Inv(cfg, s) && OnWorker(s, m) && !s.msgs[m].task.Pausing?
    requires s.msgs[m].req.id in s.rows && row.parent == s.rows[s.msgs[m].req.id].parent
    requires t.Written? && t.worker == s.msgs[m].task.worker && t.again in {None, Some(row)}
    ensures Inv(cfg, s.(msgs := With(s.msgs, m, t), rows := s.rows[s.msgs[m].req.id := row], unheld := unheld))
  {
    var id := s.msgs[m].req.id;
    assert MessageOk(s, m);
    KeepRows(cfg, s, s.rows[id := row]);
    KeepTask(cfg, s.(rows := s.rows[id := row]), m, t);
    KeepHistory(cfg, s.(rows := s.rows[id := row], msgs := With(s.msgs, m, t)), s.children, unheld, s.leaked);
  }

  lemma KeepWrite(cfg: Config, s: State, m: Tag)
    requires Inv(cfg, s) && OnWorker(s, m) && s.msgs[m].task.Ended?
    ensures Inv(cfg, DoWrite(s, m))
  {
    var t, s' := s.msgs[m].task, DoWrite(s, m);
    assert MessageOk(s, m);
    KeepWritten(cfg, s, m, t.local.Ended(t.outcome), s'.msgs[m].task, s'.unheld);
  }

  /** A delivery moves on towards its end. */
  lemma KeepEnd(cfg: Config, s: State, m: Tag, t: Task, unheld: set<Id>, leaked: set<Id>)
    requires Inv(cfg, s) && OnWorker(s, m) && t.worker == s.msgs[m].task.worker
    requires !s.msgs[m].task.Pausing? && s.msgs[m].req.id in s.rows
    requires (t.Ended? && t.outcome.Ready() && t.local.parent == s.rows[s.msgs[m].req.id].parent) || t.Finished?
    ensures Inv(cfg, s.(msgs := With(s.msgs, m, t), unheld := unheld, leaked := leaked))
  {
    assert MessageOk(s, m);
    KeepTask(cfg, s, m, t);
    KeepHistory(cfg, s.(msgs := With(s.msgs, m, t)), s.children, unheld, leaked);
  }

  lemma KeepFinish(cfg: Config, s: State, m: Tag, outcome: ResultState)
    requires Inv(cfg, s) && OnWorker(s, m) && Busy(s, m) && outcome.Ready()
    ensures Inv(cfg, DoFinish(s, m, outcome))
  {
    assert MessageOk(s, m);
    var s' := DoFinish(s, m, outcome);
    KeepEnd(cfg, s, m, s'.msgs[m].task, s'.unheld, s'.leaked);
  }

  lemma KeepWriteFails(cfg: Config, s: State, m: Tag, counted: bool)
    requires Inv(cfg, s) && OnWorker(s, m) && s.msgs[m].task.Ended?
    ensures Inv(cfg, DoWriteFails(s, m, counted))
  {
    assert MessageOk(s, m);
    var s' := DoWriteFails(s, m, counted);
    KeepEnd(cfg, s, m, s'.msgs[m].task, s'.unheld, s'.leaked);
  }

  lemma KeepCompleteFails(cfg: Config, s: State, m: Tag)
    requires Inv(cfg, s) && EndingCan(s, CompleteFails(m))
    ensures Inv(cfg, DoCompleteFails(s, m))
  {
    assert MessageOk(s, m);
    KeepEnd(cfg, s, m, DoCompleteFails(s, m).msgs[m].task, s.unheld, DoCompleteFails(s, m).leaked);
  }

  lemma KeepComplete(cfg: Config, s: State, m: Tag)
    requires Inv(cfg, s) && OnWorker(s, m) && s.msgs[m].task.Written?
    ensures Inv(cfg, DoComplete(cfg, s, m))
  {
    var w, id := s.msgs[m].task.worker, s.msgs[m].req.id;
    assert MessageOk(s, m) && WorkerOk(cfg, s, w);
    KeepEnd(cfg, s, m, Finished(w), s.unheld, s.leaked);
    KeepWaiting(cfg, s.(msgs := With(s.msgs, m, Finished(w))), w, RemoveSuspended(cfg, s.workers[w], id));
  }

  lemma KeepPauseHeld(cfg: Config, s: State, m: Tag)
    requires Inv(cfg, s) && OnWorker(s, m) && Busy(s, m) && s.msgs[m].req.id in s.workers[s.msgs[m].task.worker].running
    ensures Inv(cfg, DoPause(s, m))
  {
    var rows := s.rows[s.msgs[m].req.id := s.msgs[m].task.local.Suspended()];
    assert MessageOk(s, m);
    KeepRows(cfg, s, rows);
    Frame(cfg, s.(rows := rows), DoPause(s, m));
  }

  lemma KeepPause(cfg: Config, s: State, m: Tag)
    requires Inv(cfg, s) && OnWorker(s, m) && Busy(s, m)
    ensures Inv(cfg, DoPause(s, m))
  {
    var id, t := s.msgs[m].req.id, s.msgs[m].task;
    if id in s.workers[t.worker].running {
      KeepPauseHeld(cfg, s, m);
    } else {
      assert MessageOk(s, m);
      KeepEnd(cfg, s, m, Finished(t.worker), s.unheld + {id}, LeakedWith(s, m));
    }
  }

  // ----- every step, every run

  lemma StepProcess(cfg: Config, s: State, a: Action)
    requires Inv(cfg, s) && ProcessCan(s, a)
    ensures Inv(cfg, ApplyProcess(cfg, s, a))
  {
    match a
    case Join(w) => KeepJoin(cfg, s, w);
    case StopConsuming(w) =>
      assert WorkerOk(cfg, s, w);
      KeepWaiting(cfg, s, w, s.workers[w].(consuming := false));
    case Crash(w) => KeepCrash(cfg, s, w);
  }

  lemma StepClient(cfg: Config, s: State, a: Action)
    requires Inv(cfg, s) && ClientCan(s, a)
    ensures Inv(cfg, ApplyClient(s, a))
  {
    match a
    case StoreRoot(c) => KeepStoreRoot(cfg, s, c);
    case SendRoot(c) => KeepSendRoot(cfg, s, c);
    case Revoke(id, force) => KeepRevoke(cfg, s, id, force);
  }

  lemma StepDelivery(cfg: Config, s: State, a: Action)
    requires Inv(cfg, s) && DeliveryCan(s, a)
    ensures Inv(cfg, ApplyDelivery(cfg, s, a))
  {
    match a
    case Deliver(w, m) => KeepDeliver(cfg, s, w, m);
    case Gate(m, late, unknown) => KeepGate(cfg, s, m, late, unknown);
    case Fatal(m) => KeepFatal(cfg, s, m);
    case Requeue(m) => KeepRequeue(cfg, s, m);
    case Acknowledge(m) => KeepAck(cfg, s, m, [Ack]);
  }

  lemma StepHandler(cfg: Config, s: State, a: Action)
    requires Inv(cfg, s) && HandlerCan(s, a)
    ensures Inv(cfg, ApplyHandler(cfg, s, a))
  {
    match a
    case Spawn(m, c, awaited) => KeepSpawn(cfg, s, m, c, awaited);
    case Index(m, c) => KeepIndex(cfg, s, m, c);
    case Store(m, c) => KeepStore(cfg, s, m, c);
    case Send(m, c) => KeepSend(cfg, s, m, c);
    case SubmitFails(m, c) => KeepSubmitFails(cfg, s, m, c);
    case Release(m, c) =>
      assert MessageOk(s, m);
      KeepLeaveRun(cfg, s, m, s.msgs[m].task, c);
  }

  lemma StepEnding(cfg: Config, s: State, a: Action)
    requires Inv(cfg, s) && EndingCan(s, a)
    ensures Inv(cfg, ApplyEnding(cfg, s, a))
  {
    match a
    case Finish(m, outcome) => KeepFinish(cfg, s, m, outcome);
    case Pause(m) => KeepPause(cfg, s, m);
    case Write(m) => KeepWrite(cfg, s, m);
    case WriteFails(m, counted) => KeepWriteFails(cfg, s, m, counted);
    case Complete(m) => KeepComplete(cfg, s, m);
    case CompleteFails(m) => KeepCompleteFails(cfg, s, m);
  }

  lemma StepCancel(cfg: Config, s: State, a: Action)
    requires Inv(cfg, s) && CancelCan(s, a)
    ensures Inv(cfg, ApplyCancel(cfg, s, a))
  {
    match a
    case Cancel(w, id, verb) => KeepCancel(cfg, s, w, id, verb);
    case CancelRead(d) => KeepCancelRead(cfg, s, d);
    case CancelWrite(d) => KeepCancelWrite(cfg, s, d);
    case CancelSettle(d) => KeepCancelSettle(cfg, s, d);
    case CancelLand(d) => KeepCancelLand(cfg, s, d);
  }

  lemma Step(cfg: Config, s: State, a: Action)
    requires Inv(cfg, s) && Enabled(cfg, s, a)
    ensures Inv(cfg, Apply(cfg, s, a))
  {
    if OfProcess(a) {
      StepProcess(cfg, s, a);
    } else if OfClient(a) {
      StepClient(cfg, s, a);
    } else if OfDelivery(a) {
      StepDelivery(cfg, s, a);
    } else if OfHandler(a) {
      StepHandler(cfg, s, a);
    } else if OfEnding(a) {
      StepEnding(cfg, s, a);
    } else {
      StepCancel(cfg, s, a);
    }
  }

  lemma KeepRevoke(cfg: Config, s: State, id: Id, force: bool)
    requires Inv(cfg, s)
    ensures Inv(cfg, DoRevoke(s, id, force))
  {
    if force || !RowOrNew(s.rows, id).Done() {
      KeepRevoked(cfg, s, id, RowOrNew(s.rows, id).Ended(REVOKED));
    }
  }

  lemma KeepRevoked(cfg: Config, s: State, id: Id, row: Row)
    requires Inv(cfg, s) && row.parent == RowOrNew(s.rows, id).parent
    ensures Inv(cfg, s.(rows := s.rows[id := row], revoking := s.revoking + {id}))
  {
    KeepRows(cfg, s, s.rows[id := row]);
    Frame(cfg, s.(rows := s.rows[id := row]), s.(rows := s.rows[id := row], revoking := s.revoking + {id}));
  }

  lemma {:induction false} RunInv(cfg: Config, tr: seq<State>, acts: seq<Action>, i: nat)
    requires IsRun(cfg, tr, acts) && i < |tr|
    ensures Inv(cfg, tr[i])
  {
    if i > 0 {
      RunInv(cfg, tr, acts, i - 1);
      assert RunStep(cfg, tr, acts, i - 1);
      Step(cfg, tr[i - 1], acts[i - 1]);
    }
  }
}
