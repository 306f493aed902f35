/** The waiting set of each process, in every run. */
module LifecycleWaiting {
  import opened Types
  import opened ResultModel
  import opened Settlement
  import opened WorkerModel
  import opened Lifecycle
  import opened LifecycleInvariants

  /** The process holds the request's message, whose handler waits, or ended waiting and is not complete. */
  ghost predicate WaitsAt(s: State, w: Id, id: Id) {
    id in s.sent && HeldBy(s, s.sent[id].tag, w) && Listed(s, s.sent[id].tag)
  }

  /**
   An id is in the waiting set of a process exactly while its handler waits there, but that a fatal error or a
   cancellation may leave it behind.
   */
  ghost predicate Waits(s: State, w: Id, id: Id) {
    w in s.workers ==>
      && (WaitsAt(s, w, id) ==> id in s.workers[w].waiting)
      && (id in s.workers[w].waiting ==> WaitsAt(s, w, id) || id in s.leaked)
  }

  /** Only one message changes, and that is not of `id`. */
  lemma OtherWaits(s: State, m: Tag, s': State, w: Id, id: Id)
    requires s'.msgs - {m} == s.msgs - {m} && s'.sent == s.sent && (id in s.sent ==> s.sent[id].tag != m)
    ensures WaitsAt(s', w, id) <==> WaitsAt(s, w, id)
  {
    if id in s.sent {
      var n := s.sent[id].tag;
      assert n in s.msgs <==> n in s.msgs - {m};
      assert n in s'.msgs <==> n in s'.msgs - {m};
      assert n in s.msgs ==> (s.msgs - {m})[n] == (s'.msgs - {m})[n];
    }
  }

  /** One held message changes, and its id is to be in the waiting set as before. */
  lemma WaitSame(cfg: Config, s: State, m: Tag, s': State, w: Id, id: Id)
    requires Inv(cfg, s) && Waits(s, w, id) && IsHeld(s, m) && IsHeld(s', m)
    requires s'.msgs == s.msgs[m := s'.msgs[m]] && s'.sent == s.sent && s'.leaked == s.leaked
    requires s'.workers.Keys == s.workers.Keys && (w in s.workers ==> s'.workers[w].waiting == s.workers[w].waiting)
    requires s'.msgs[m].task.worker == s.msgs[m].task.worker && (Listed(s', m) <==> Listed(s, m))
    ensures Waits(s', w, id)
  {
  }

  /** A handler waits no longer, and its id leaves the waiting set. */
  lemma WaitRemoved(cfg: Config, s: State, m: Tag, s': State, w: Id, id: Id)
    requires Inv(cfg, s) && Waits(s, w, id) && OnWorker(s, m) && !Listed(s', m)
    requires s'.msgs - {m} == s.msgs - {m}
    requires s'.sent == s.sent && s'.leaked == s.leaked
    requires var v := s.msgs[m].task.worker;
             s'.workers == s.workers[v := RemoveSuspended(cfg, s.workers[v], s.msgs[m].req.id)]
    ensures Waits(s', w, id)
  {
    assert MessageOk(s, m) && (id in s.sent ==> LineOk(s, id));
    if id in s.sent ==> s.sent[id].tag != m {
      OtherWaits(s, m, s', w, id);
    }
  }

  /** A delivery ends: its id is not to be in the waiting set, or is noted as left there. */
  lemma WaitLeft(cfg: Config, s: State, m: Tag, s': State, w: Id, id: Id)
    requires Inv(cfg, s) && Waits(s, w, id) && OnWorker(s, m) && !Listed(s', m)
    requires s'.msgs - {m} == s.msgs - {m}
    requires s'.sent == s.sent && s'.leaked == LeakedWith(s, m)
    requires s'.workers.Keys == s.workers.Keys && (w in s.workers ==> s'.workers[w].waiting == s.workers[w].waiting)
    ensures Waits(s', w, id)
  {
    assert MessageOk(s, m) && (id in s.sent ==> LineOk(s, id));
    if id in s.sent ==> s.sent[id].tag != m {
      OtherWaits(s, m, s', w, id);
    }
  }

  // ----- one lemma a group of actions

  lemma WaitProcess(cfg: Config, s: State, a: Action, w: Id, id: Id)
    requires Inv(cfg, s) && Waits(s, w, id) && ProcessCan(s, a)
    ensures Waits(ApplyProcess(cfg, s, a), w, id)
  {
    if id in s.sent && HeldBy(s, s.sent[id].tag, w) {
      assert MessageOk(s, s.sent[id].tag);
    }
  }

  lemma WaitClient(cfg: Config, s: State, a: Action, w: Id, id: Id)
    requires Inv(cfg, s) && Waits(s, w, id) && ClientCan(s, a)
    ensures Waits(ApplyClient(s, a), w, id)
  {
    FreshTag(cfg, s);
    assert id in s.sent ==> LineOk(s, id);
  }

  lemma WaitDeliver(cfg: Config, s: State, v: Id, m: Tag, w: Id, id: Id)
    requires Inv(cfg, s) && Waits(s, w, id) && v in s.workers && IsQueued(s, m)
    ensures Waits(DoDeliver(s, v, m), w, id)
  {
  }

  lemma WaitGate(cfg: Config, s: State, m: Tag, late: bool, unknown: bool, w: Id, id: Id)
    requires Inv(cfg, s) && Waits(s, w, id) && Unjudged(s, m)
    ensures Waits(DoGate(cfg, s, m, late, unknown), w, id)
  {
    WaitSame(cfg, s, m, DoGate(cfg, s, m, late, unknown), w, id);
  }

  lemma WaitDelivery(cfg: Config, s: State, a: Action, w: Id, id: Id)
    requires Inv(cfg, s) && Waits(s, w, id) && DeliveryCan(s, a)
    ensures Waits(ApplyDelivery(cfg, s, a), w, id)
  {
    match a
    case Deliver(v, m) => WaitDeliver(cfg, s, v, m, w, id);
    case Gate(m, late, unknown) => WaitGate(cfg, s, m, late, unknown, w, id);
    case Fatal(m) => WaitLeft(cfg, s, m, DoFatal(s, m), w, id);
    case Requeue(m) => WaitLeft(cfg, s, m, DoSettle(s, m, [Nack, Ack]), w, id);
    case Acknowledge(m) => WaitLeft(cfg, s, m, DoSettle(s, m, [Ack]), w, id);
  }

  lemma WaitSleeps(cfg: Config, s: State, m: Tag, t: Task, c: Id, w: Id, id: Id)
    requires Inv(cfg, s) && Waits(s, w, id) && OnWorker(s, m) && IsActive(s, m)
    requires SameTask(s, m, t)
    ensures Waits(EnterRun(cfg, s, m, t, c), w, id)
  {
    assert MessageOk(s, m) && (id in s.sent ==> LineOk(s, id));
    assert c in t.deps + {c};
  }

  lemma WaitEnterRun(cfg: Config, s: State, m: Tag, t: Task, c: Id, w: Id, id: Id)
    requires Inv(cfg, s) && Waits(s, w, id) && OnWorker(s, m) && Busy(s, m)
    requires SameTask(s, m, t)
    ensures Waits(EnterRun(cfg, s, m, t, c), w, id)
  {
    if t.deps == {} {
      WaitSleeps(cfg, s, m, t, c, w, id);
    } else {
      WaitSame(cfg, s, m, EnterRun(cfg, s, m, t, c), w, id);
    }
  }

  lemma WaitWakes(cfg: Config, s: State, m: Tag, t: Task, c: Id, w: Id, id: Id)
    requires Inv(cfg, s) && Waits(s, w, id) && OnWorker(s, m) && Busy(s, m)
    requires SameTask(s, m, t) && t.deps - {c} == {}
    ensures Waits(LeaveRun(cfg, s, m, t, c), w, id)
  {
    WaitRemoved(cfg, s, m, LeaveRun(cfg, s, m, t, c), w, id);
  }

  lemma WaitLeaveRun(cfg: Config, s: State, m: Tag, t: Task, c: Id, w: Id, id: Id)
    requires Inv(cfg, s) && Waits(s, w, id) && OnWorker(s, m) && Busy(s, m)
    requires SameTask(s, m, t) && c in t.deps
    ensures Waits(LeaveRun(cfg, s, m, t, c), w, id)
  {
    if t.deps - {c} == {} {
      WaitWakes(cfg, s, m, t, c, w, id);
    } else {
      WaitSame(cfg, s, m, LeaveRun(cfg, s, m, t, c), w, id);
    }
  }

  lemma WaitSpawn(cfg: Config, s: State, m: Tag, c: Id, awaited: bool, w: Id, id: Id)
    requires Inv(cfg, s) && Waits(s, w, id) && OnWorker(s, m) && Busy(s, m)
    ensures Waits(DoSpawn(cfg, s, m, c, awaited), w, id)
  {
    if awaited {
      WaitEnterRun(cfg, s, m, s.msgs[m].task.(subs := s.msgs[m].task.subs[c := Chosen]), c, w, id);
    } else {
      WaitSame(cfg, s, m, DoSpawn(cfg, s, m, c, awaited), w, id);
    }
  }

  lemma WaitSend(cfg: Config, s: State, m: Tag, c: Id, w: Id, id: Id)
    requires Inv(cfg, s) && Waits(s, w, id) && OnWorker(s, m) && Submits(s, m, c) && c !in s.sent
    ensures Waits(DoSend(s, m, c), w, id)
  {
    FreshTag(cfg, s);
    assert id in s.sent ==> LineOk(s, id);
  }

  lemma WaitSubmitFails(cfg: Config, s: State, m: Tag, c: Id, w: Id, id: Id)
    requires Inv(cfg, s) && Waits(s, w, id) && OnWorker(s, m) && Submits(s, m, c)
    ensures Waits(DoSubmitFails(cfg, s, m, c), w, id)
  {
    var t := s.msgs[m].task.(subs := s.msgs[m].task.subs - {c});
    if c in t.deps {
      WaitLeaveRun(cfg, s, m, t, c, w, id);
    } else {
      WaitSame(cfg, s, m, DoSubmitFails(cfg, s, m, c), w, id);
    }
  }

  lemma WaitHandler(cfg: Config, s: State, a: Action, w: Id, id: Id)
    requires Inv(cfg, s) && Waits(s, w, id) && HandlerCan(s, a)
    ensures Waits(ApplyHandler(cfg, s, a), w, id)
  {
    match a
    case Spawn(m, c, awaited) => WaitSpawn(cfg, s, m, c, awaited, w, id);
    case Index(m, c) => WaitSame(cfg, s, m, DoIndex(s, m, c), w, id);
    case Store(m, c) => WaitSame(cfg, s, m, DoStore(s, m, c), w, id);
    case Send(m, c) =>
      assert MessageOk(s, m) && SubmissionOk(s, m, c);
      WaitSend(cfg, s, m, c, w, id);
    case SubmitFails(m, c) => WaitSubmitFails(cfg, s, m, c, w, id);
    case Release(m, c) => WaitLeaveRun(cfg, s, m, s.msgs[m].task, c, w, id);
  }

  /** The end of a handler moves on, or is not completed, for the holder is gone. */
  lemma WaitFinish(cfg: Config, s: State, m: Tag, outcome: ResultState, w: Id, id: Id)
    requires Inv(cfg, s) && Waits(s, w, id) && OnWorker(s, m) && Busy(s, m)
    ensures Waits(DoFinish(s, m, outcome), w, id)
  {
    if Kept(s, m) || outcome.INVALID? {
      WaitSame(cfg, s, m, DoFinish(s, m, outcome), w, id);
    } else {
      WaitLeft(cfg, s, m, Unwritten(s, m), w, id);
    }
  }

  lemma WaitWriteFails(cfg: Config, s: State, m: Tag, counted: bool, w: Id, id: Id)
    requires Inv(cfg, s) && Waits(s, w, id) && OnWorker(s, m) && s.msgs[m].task.Ended?
    ensures Waits(DoWriteFails(s, m, counted), w, id)
  {
    if Kept(s, m) {
      WaitSame(cfg, s, m, DoWriteFails(s, m, counted), w, id);
    } else {
      WaitLeft(cfg, s, m, Unwritten(s, m), w, id);
    }
  }

  lemma WaitCompleteFails(cfg: Config, s: State, m: Tag, w: Id, id: Id)
    requires Inv(cfg, s) && Waits(s, w, id) && EndingCan(s, CompleteFails(m))
    ensures Waits(DoCompleteFails(s, m), w, id)
  {
    if Kept(s, m) {
      WaitSame(cfg, s, m, DoCompleteFails(s, m), w, id);
    } else {
      WaitLeft(cfg, s, m, DoCompleteFails(s, m), w, id);
    }
  }

  lemma WaitPause(cfg: Config, s: State, m: Tag, w: Id, id: Id)
    requires Inv(cfg, s) && Waits(s, w, id) && OnWorker(s, m) && IsActive(s, m)
    ensures Waits(DoPause(s, m), w, id)
  {
    if Kept(s, m) {
      WaitSame(cfg, s, m, DoPause(s, m), w, id);
    } else {
      WaitLeft(cfg, s, m, Unwritten(s, m), w, id);
    }
  }

  lemma WaitEnding(cfg: Config, s: State, a: Action, w: Id, id: Id)
    requires Inv(cfg, s) && Waits(s, w, id) && EndingCan(s, a)
    ensures Waits(ApplyEnding(cfg, s, a), w, id)
  {
    match a
    case Finish(m, outcome) => WaitFinish(cfg, s, m, outcome, w, id);
    case Pause(m) => WaitPause(cfg, s, m, w, id);
    case Write(m) => WaitSame(cfg, s, m, DoWrite(s, m), w, id);
    case WriteFails(m, counted) => WaitWriteFails(cfg, s, m, counted, w, id);
    case Complete(m) => WaitRemoved(cfg, s, m, DoComplete(cfg, s, m), w, id);
    case CompleteFails(m) => WaitCompleteFails(cfg, s, m, w, id);
  }

  /** A cancellation that settles the delivery lets a completion finish, or leaves the id behind. */
  lemma WaitCancelSettle(cfg: Config, s: State, d: Delivery, w: Id, id: Id)
    requires Inv(cfg, s) && Waits(s, w, id) && CancelCan(s, CancelSettle(d))
    ensures Waits(DoCancelSettle(cfg, s, d), w, id)
  {
    var s' := DoCancelSettle(cfg, s, d);
    if Ours(s, d) {
      assert MessageOk(s, d.tag);
      if Completes(s, d) {
        WaitRemoved(cfg, s, d.tag, s', w, id);
      } else {
        WaitLeft(cfg, s, d.tag, s', w, id);
      }
    }
  }

  lemma WaitCancels(cfg: Config, s: State, a: Action, w: Id, id: Id)
    requires Inv(cfg, s) && Waits(s, w, id) && CancelCan(s, a)
    ensures Waits(ApplyCancel(cfg, s, a), w, id)
  {
    if a.CancelSettle? {
      WaitCancelSettle(cfg, s, a.d, w, id);
    }
  }

  lemma WaitStep(cfg: Config, s: State, a: Action, w: Id, id: Id)
    requires Inv(cfg, s) && Waits(s, w, id) && Enabled(cfg, s, a)
    ensures Waits(Apply(cfg, s, a), w, id)
  {
    if OfProcess(a) {
      WaitProcess(cfg, s, a, w, id);
    } else if OfClient(a) {
      WaitClient(cfg, s, a, w, id);
    } else if OfDelivery(a) {
      WaitDelivery(cfg, s, a, w, id);
    } else if OfHandler(a) {
      WaitHandler(cfg, s, a, w, id);
    } else if OfEnding(a) {
      WaitEnding(cfg, s, a, w, id);
    } else {
      WaitCancels(cfg, s, a, w, id);
    }
  }

  lemma {:induction false} RunWaits(cfg: Config, tr: seq<State>, acts: seq<Action>, i: nat, w: Id, id: Id)
    requires IsRun(cfg, tr, acts) && i < |tr|
    ensures Waits(tr[i], w, id)
  {
    if i > 0 {
      RunWaits(cfg, tr, acts, i - 1, w, id);
      RunInv(cfg, tr, acts, i - 1);
      assert RunStep(cfg, tr, acts, i - 1);
      WaitStep(cfg, tr[i - 1], acts[i - 1], w, id);
    }
  }
}
