/** Prefetch, deadlock freedom and completion. */
module Progress {
  import opened Types
  import opened ResultModel
  import opened Settlement
  import opened WorkerModel
  import opened Lifecycle
  import opened LifecycleInvariants
  import opened LifecycleSafety
  import opened LifecycleTheorems
  import opened LifecycleWaiting

  // ----- prefetch

  /**
   In every run, the prefetch of a process that consumes is the minimum and one more for each waiting task,
   but never above the maximum, and the broker was last told just that.
   */
  lemma PrefetchMirror(cfg: Config, tr: seq<State>, acts: seq<Action>, i: nat, w: Id)
    requires IsRun(cfg, tr, acts) && i < |tr| && Consumes(tr[i], w)
    ensures tr[i].workers[w].prefetch == tr[i].workers[w].limit == Target(cfg, |tr[i].workers[w].waiting|)
    ensures cfg.maximum.None? || |tr[i].workers[w].waiting| + cfg.minimum <= cfg.maximum.value ==>
              tr[i].workers[w].limit == |tr[i].workers[w].waiting| + cfg.minimum
    ensures cfg.maximum.Some? && |tr[i].workers[w].waiting| + cfg.minimum > cfg.maximum.value ==>
              tr[i].workers[w].limit == cfg.maximum.value
  {
    RunInv(cfg, tr, acts, i);
    assert WorkerOk(cfg, tr[i], w);
  }

  /** The deliveries of the process whose handlers wait, or ended waiting and are not complete. */
  function WaitingAt(s: State, w: Id): set<Tag> {
    set m | m in s.msgs && HeldBy(s, m, w) && Listed(s, m)
  }

  /** The ids that fatal errors and cancellations left in its waiting set. */
  function LeakedAt(s: State, w: Id): set<Id>
    requires w in s.workers
  {
    s.workers[w].waiting * s.leaked
  }

  lemma {:induction false} SameSize(f: map<Id, Tag>, ids: set<Id>, tags: set<Tag>)
    requires ids <= f.Keys
    requires forall x, y | x in ids && y in ids && f[x] == f[y] :: x == y
    requires forall x | x in ids :: f[x] in tags
    requires forall t | t in tags :: exists x :: x in ids && f[x] == t
    ensures |ids| == |tags|
  {
    if x :| x in ids {
      SameSize(f, ids - {x}, tags - {f[x]});
    } else {
      assert tags == {};
    }
  }

  /** The waiting sets are as they should. */
  ghost predicate Counted(s: State) {
    forall w, id :: Waits(s, w, id)
  }

  lemma RunCounted(cfg: Config, tr: seq<State>, acts: seq<Action>, i: nat)
    requires IsRun(cfg, tr, acts) && i < |tr|
    ensures Inv(cfg, tr[i]) && Counted(tr[i])
  {
    RunInv(cfg, tr, acts, i);
    forall w, id ensures Waits(tr[i], w, id) {
      RunWaits(cfg, tr, acts, i, w, id);
    }
  }

  /** The waiting set counts the messages whose handlers wait, and what errors and cancellations left there. */
  lemma WaitingCount(cfg: Config, s: State, w: Id)
    requires Inv(cfg, s) && Counted(s) && w in s.workers
    ensures |WaitingAt(s, w)| <= |s.workers[w].waiting| <= |WaitingAt(s, w)| + |LeakedAt(s, w)|
  {
    var tags := map c | c in s.sent :: s.sent[c].tag;
    var there := set c | c in s.sent && WaitsAt(s, w, c);
    forall x | x in there ensures tags[x] in WaitingAt(s, w) && s.msgs[tags[x]].req.id == x {
      assert LineOk(s, x);
    }
    forall t | t in WaitingAt(s, w) ensures exists x :: x in there && tags[x] == t {
      assert MessageOk(s, t);
      assert s.msgs[t].req.id in there;
    }
    SameSize(tags, there, WaitingAt(s, w));
    forall x | x in there ensures x in s.workers[w].waiting {
      assert Waits(s, w, x);
    }
    forall x | x in s.workers[w].waiting ensures x in there + LeakedAt(s, w) {
      assert Waits(s, w, x);
    }
    Within(there, s.workers[w].waiting);
    Within(s.workers[w].waiting, there + LeakedAt(s, w));
  }

  lemma {:induction false} Within(a: set<Id>, b: set<Id>)
    requires a <= b
    ensures |a| <= |b|
  {
    if x :| x in a {
      Within(a - {x}, b - {x});
    }
  }

  /**
   A delivery is admitted only while fewer than `minimum` of the tasks on the process are not waiting; or one
   more for each id that a fatal error or a cancellation left in the waiting set.
   */
  lemma Admission(cfg: Config, tr: seq<State>, acts: seq<Action>, i: nat, w: Id, m: Tag)
    requires IsRun(cfg, tr, acts) && i < |tr|
    requires cfg.HasRoom()
    requires Enabled(cfg, tr[i], Deliver(w, m))
    ensures |Unacked(tr[i], w) - WaitingAt(tr[i], w)| < cfg.minimum + |LeakedAt(tr[i], w)|
  {
    RunCounted(cfg, tr, acts, i);
    PrefetchMirror(cfg, tr, acts, i, w);
    WaitingCount(cfg, tr[i], w);
    assert WaitingAt(tr[i], w) <= Unacked(tr[i], w);
    assert Unacked(tr[i], w) == (Unacked(tr[i], w) - WaitingAt(tr[i], w)) + WaitingAt(tr[i], w);
  }

  /**
   Below the maximum, and with nothing left in the waiting set, a queued message is admitted exactly while fewer
   than `minimum` of the tasks on the process are not waiting.
   */
  lemma AdmissionIff(cfg: Config, tr: seq<State>, acts: seq<Action>, i: nat, w: Id, m: Tag)
    requires IsRun(cfg, tr, acts) && i < |tr| && Consumes(tr[i], w) && IsQueued(tr[i], m)
    requires cfg.minimum > 0 && LeakedAt(tr[i], w) == {}
    requires cfg.maximum.Some? ==> |WaitingAt(tr[i], w)| + cfg.minimum <= cfg.maximum.value
    ensures Enabled(cfg, tr[i], Deliver(w, m)) <==> |Unacked(tr[i], w) - WaitingAt(tr[i], w)| < cfg.minimum
  {
    RunCounted(cfg, tr, acts, i);
    PrefetchMirror(cfg, tr, acts, i, w);
    WaitingCount(cfg, tr[i], w);
    assert |tr[i].workers[w].waiting| == |WaitingAt(tr[i], w)|;
    assert WaitingAt(tr[i], w) <= Unacked(tr[i], w);
    assert Unacked(tr[i], w) == (Unacked(tr[i], w) - WaitingAt(tr[i], w)) + WaitingAt(tr[i], w);
  }

  /** At the maximum, a queued message is admitted exactly while fewer tasks than that are on the process. */
  lemma AdmissionAtMaximum(cfg: Config, tr: seq<State>, acts: seq<Action>, i: nat, w: Id, m: Tag)
    requires IsRun(cfg, tr, acts) && i < |tr| && Consumes(tr[i], w) && IsQueued(tr[i], m)
    requires cfg.maximum.Some? && cfg.maximum.value > 0
    requires |WaitingAt(tr[i], w)| + cfg.minimum >= cfg.maximum.value
    ensures Enabled(cfg, tr[i], Deliver(w, m)) <==> |Unacked(tr[i], w)| < cfg.maximum.value
  {
    RunCounted(cfg, tr, acts, i);
    PrefetchMirror(cfg, tr, acts, i, w);
    WaitingCount(cfg, tr[i], w);
  }

  // ----- deadlock

  /** A step that the system takes by itself; an active handler may return. */
  ghost predicate Advances(s: State, a: Action) {
    || a.Deliver? || a.Gate? || a.Index? || a.Store? || a.Send? || a.Release? || a.Requeue? || a.Acknowledge?
    || a.Write? || a.Complete? || a.CancelRead? || a.CancelWrite? || a.CancelSettle? || a.CancelLand?
    || (a.Finish? && IsActive(s, a.m))
  }

  ghost predicate CanMove(cfg: Config, s: State) {
    exists a :: Advances(s, a) && Enabled(cfg, s, a)
  }

  /** The handler waits, and only for children that were sent and are not ready. */
  ghost predicate WaitsForUnready(s: State, m: Tag)
    requires m in s.msgs
  {
    && IsWaiting(s, m) && s.msgs[m].task.subs == map[]
    && forall d | d in s.msgs[m].task.deps :: d in s.sent && d in s.rows && !s.rows[d].Done()
  }

  ghost predicate AllWait(s: State) {
    forall m | m in s.msgs && s.msgs[m].Held? :: WaitsForUnready(s, m)
  }

  /** Every process that consumes has reached the maximum with waiting tasks alone. */
  ghost predicate Saturated(cfg: Config, s: State) {
    forall w | w in s.workers && s.workers[w].consuming ::
      cfg.maximum.Some? && |WaitingAt(s, w)| >= cfg.maximum.value
  }

  predicate NothingQueued(s: State) {
    forall m | m in s.msgs :: s.msgs[m].Held?
  }

  /** An accepted request that is not ready. */
  predicate Unready(s: State, c: Id) {
    c in s.sent && c in s.rows && !s.rows[c].Done()
  }

  /** Every accepted request that is not ready still has its message. */
  ghost predicate NoneLost(s: State) {
    forall c | Unready(s, c) :: HasMessage(s, c)
  }

  lemma HeldWaits(cfg: Config, s: State, m: Tag)
    requires Inv(cfg, s) && !CanMove(cfg, s) && IsHeld(s, m)
    ensures IsWaiting(s, m)
  {
    assert MessageOk(s, m);
    var a := match s.msgs[m].task
             case Delivered(_) => Gate(m, false, false)
             case Running(_, _, _, _) => Finish(m, SUCCESS)
             case Pausing(_) => Requeue(m)
             case Ended(_, _, _, _) => Write(m)
             case Written(_, _, _) => Complete(m)
             case Finished(_) => Acknowledge(m);
    assert Advances(s, a) ==> !Enabled(cfg, s, a);
  }

  lemma SubmissionMoves(cfg: Config, s: State, m: Tag)
    requires Inv(cfg, s) && Busy(s, m) && s.msgs[m].task.subs != map[]
    ensures CanMove(cfg, s)
  {
    assert MessageOk(s, m);
    var c :| c in s.msgs[m].task.subs;
    var a := match s.msgs[m].task.subs[c]
             case Chosen => Index(m, c)
             case Indexed => Store(m, c)
             case Stored => Send(m, c);
    assert Advances(s, a) && Enabled(cfg, s, a);
  }

  lemma HeldMoves(cfg: Config, s: State, m: Tag)
    requires Inv(cfg, s) && !CanMove(cfg, s) && IsHeld(s, m)
    ensures WaitsForUnready(s, m)
  {
    HeldWaits(cfg, s, m);
    assert s.msgs[m].task.subs != map[] ==> CanMove(cfg, s) by {
      if s.msgs[m].task.subs != map[] {
        SubmissionMoves(cfg, s, m);
      }
    }
    assert MessageOk(s, m);
    forall d | d in s.msgs[m].task.deps ensures d in s.sent && d in s.rows && !s.rows[d].Done() {
      assert DepOk(s, m, d);
      assert Advances(s, Release(m, d)) ==> !Enabled(cfg, s, Release(m, d));
    }
  }

  lemma CancelMoves(cfg: Config, s: State)
    requires s.cancels != map[]
    ensures CanMove(cfg, s)
  {
    var d :| d in s.cancels;
    var a := match s.cancels[d].stage
             case Popped => CancelRead(d)
             case Copied(_, _) => CancelWrite(d)
             case Noted => CancelSettle(d)
             case Outlived(_) => CancelLand(d);
    assert Advances(s, a) && Enabled(cfg, s, a);
  }

  /** Follow the dependencies down: they cannot all be held by waiting handlers, since the stacks grow. */
  lemma {:induction false} SomeQueued(cfg: Config, s: State, m: Tag, above: set<Tag>) returns (q: Tag)
    requires Inv(cfg, s) && AllWait(s) && NoneLost(s) && m in s.msgs
    requires above <= s.msgs.Keys && forall n | n in above :: |s.msgs[n].req.stack| < |s.msgs[m].req.stack|
    ensures q in s.msgs && s.msgs[q].Queued?
    decreases |s.msgs.Keys - above|
  {
    if s.msgs[m].Queued? {
      return m;
    }
    assert WaitsForUnready(s, m);
    var d :| d in s.msgs[m].task.deps;
    assert MessageOk(s, m) && DepOk(s, m, d) && LineOk(s, d) && Unready(s, d);
    var n := s.sent[d].tag;
    assert MessageOk(s, n);
    assert s.msgs.Keys - (above + {m}) < s.msgs.Keys - above;
    q := SomeQueued(cfg, s, n, above + {m});
  }

  /** With everything waiting, a process below its maximum has room for one more message. */
  lemma Room(cfg: Config, s: State, w: Id)
    requires Inv(cfg, s) && Counted(s) && AllWait(s) && cfg.minimum >= 1 && Consumes(s, w)
    requires cfg.maximum.Some? ==> cfg.maximum.value >= 1
    ensures Admits(s.workers[w].limit, |Unacked(s, w)|)
            <==> cfg.maximum.None? || |WaitingAt(s, w)| < cfg.maximum.value
  {
    WaitingCount(cfg, s, w);
    assert WorkerOk(cfg, s, w);
    forall m | m in Unacked(s, w) ensures m in WaitingAt(s, w) {
      assert WaitsForUnready(s, m);
    }
    assert Unacked(s, w) == WaitingAt(s, w);
  }

  lemma StuckShape(cfg: Config, s: State)
    requires Inv(cfg, s) && Counted(s) && cfg.HasRoom()
    requires !CanMove(cfg, s)
    ensures s.cancels == map[] && AllWait(s) && (NothingQueued(s) || Saturated(cfg, s))
  {
    assert s.cancels != map[] ==> CanMove(cfg, s) by {
      if s.cancels != map[] {
        CancelMoves(cfg, s);
      }
    }
    forall m | m in s.msgs && s.msgs[m].Held? ensures WaitsForUnready(s, m) {
      HeldMoves(cfg, s, m);
    }
    if q :| q in s.msgs && !s.msgs[q].Held? {
      forall w | w in s.workers && s.workers[w].consuming
        ensures cfg.maximum.Some? && |WaitingAt(s, w)| >= cfg.maximum.value
      {
        Room(cfg, s, w);
        assert Advances(s, Deliver(w, q));
      }
    }
  }

  /** Waiting handlers take no step. */
  lemma AllWaitStuck(cfg: Config, s: State, a: Action)
    requires s.cancels == map[] && AllWait(s) && Advances(s, a) && !a.Deliver?
    ensures !Enabled(cfg, s, a)
  {
    if OfHandler(a) || OfDelivery(a) || OfEnding(a) {
      assert IsHeld(s, a.m) ==> WaitsForUnready(s, a.m);
    }
  }

  lemma ShapeStuck(cfg: Config, s: State, a: Action)
    requires Inv(cfg, s) && Counted(s) && cfg.HasRoom()
    requires s.cancels == map[] && AllWait(s) && (NothingQueued(s) || Saturated(cfg, s)) && Advances(s, a)
    ensures !Enabled(cfg, s, a)
  {
    if !a.Deliver? {
      AllWaitStuck(cfg, s, a);
    } else if Consumes(s, a.w) {
      Room(cfg, s, a.w);
    }
  }

  /**
   Exactly when the system is stuck: no cancellation is under way, all handlers wait for unready children,
   and either nothing is queued or every consuming process is full of waiting tasks.
   */
  lemma StuckIff(cfg: Config, tr: seq<State>, acts: seq<Action>, i: nat)
    requires IsRun(cfg, tr, acts) && i < |tr|
    requires cfg.HasRoom()
    ensures !CanMove(cfg, tr[i])
      <==> tr[i].cancels == map[] && AllWait(tr[i]) && (NothingQueued(tr[i]) || Saturated(cfg, tr[i]))
  {
    RunCounted(cfg, tr, acts, i);
    if !CanMove(cfg, tr[i]) {
      StuckShape(cfg, tr[i]);
    } else {
      var a :| Advances(tr[i], a) && Enabled(cfg, tr[i], a);
      if tr[i].cancels == map[] && AllWait(tr[i]) && (NothingQueued(tr[i]) || Saturated(cfg, tr[i])) {
        ShapeStuck(cfg, tr[i], a);
      }
    }
  }

  /** While an unready request is there and none was lost, being stuck takes full processes: something is queued. */
  lemma StuckIsFull(cfg: Config, tr: seq<State>, acts: seq<Action>, i: nat, c: Id)
    requires IsRun(cfg, tr, acts) && i < |tr|
    requires cfg.HasRoom()
    requires NoneLost(tr[i]) && Unready(tr[i], c) && !CanMove(cfg, tr[i])
    ensures AllWait(tr[i]) && Saturated(cfg, tr[i])
  {
    StuckIff(cfg, tr, acts, i);
    RunInv(cfg, tr, acts, i);
    var q := SomeQueued(cfg, tr[i], tr[i].sent[c].tag, {});
  }

  /**
   With no maximum and a process that consumes, the system is stuck with an unready request only if one was
   lost: in a cancellation, after it was revoked itself, or after a write for a delivery that was over or had
   not begun.
   */
  lemma StuckIsLost(cfg: Config, tr: seq<State>, acts: seq<Action>, i: nat, c: Id, w: Id)
    requires IsRun(cfg, tr, acts) && i < |tr|
    requires cfg.minimum >= 1 && cfg.maximum.None?
    requires Consumes(tr[i], w) && Unready(tr[i], c) && !CanMove(cfg, tr[i])
    ensures exists d :: Unready(tr[i], d) && !HasMessage(tr[i], d) && (!Orderly(tr[i], d) || Lost(tr, acts, i, d))
  {
    if NoneLost(tr[i]) {
      StuckIsFull(cfg, tr, acts, i, c);
    } else {
      var d :| Unready(tr[i], d) && !HasMessage(tr[i], d);
      if Orderly(tr[i], d) {
        HasOrLost(cfg, tr, acts, i, d);
      }
    }
  }

  predicate Uncancelled(acts: seq<Action>) {
    forall i | 0 <= i < |acts| :: !acts[i].Cancel?
  }

  /** No cancellation is under way, and none left a trace. */
  ghost predicate Whole(s: State) {
    s.cancels == map[] && s.unheld == {} && s.astray == {}
  }

  lemma WholeEnding(cfg: Config, s: State, a: Action)
    requires Inv(cfg, s) && Whole(s) && EndingCan(s, a)
    ensures Whole(ApplyEnding(cfg, s, a))
  {
    assert MessageOk(s, a.m);
  }

  lemma WholeOthers(cfg: Config, s: State, a: Action)
    requires Whole(s) && Enabled(cfg, s, a) && (OfProcess(a) || OfClient(a))
    ensures Whole(Apply(cfg, s, a))
  {
  }

  lemma WholeDelivery(cfg: Config, s: State, a: Action)
    requires Whole(s) && DeliveryCan(s, a)
    ensures Whole(ApplyDelivery(cfg, s, a))
  {
  }

  lemma WholeHandler(cfg: Config, s: State, a: Action)
    requires Inv(cfg, s) && Whole(s) && HandlerCan(s, a)
    ensures Whole(ApplyHandler(cfg, s, a))
  {
    if !a.Send? {
      HandlerKeepsMessages(cfg, s, a);
    }
  }

  lemma WholeStep(cfg: Config, s: State, a: Action)
    requires Inv(cfg, s) && Whole(s) && Enabled(cfg, s, a) && !a.Cancel?
    ensures Whole(Apply(cfg, s, a))
  {
    if OfProcess(a) || OfClient(a) {
      WholeOthers(cfg, s, a);
    } else if OfDelivery(a) {
      WholeDelivery(cfg, s, a);
    } else if OfHandler(a) {
      WholeHandler(cfg, s, a);
    } else if OfEnding(a) {
      WholeEnding(cfg, s, a);
    }
  }

  lemma {:induction false} RunWhole(cfg: Config, tr: seq<State>, acts: seq<Action>, i: nat)
    requires IsRun(cfg, tr, acts) && Uncancelled(acts) && i < |tr|
    ensures Whole(tr[i])
  {
    if i > 0 {
      RunWhole(cfg, tr, acts, i - 1);
      RunInv(cfg, tr, acts, i - 1);
      assert RunStep(cfg, tr, acts, i - 1);
      WholeStep(cfg, tr[i - 1], acts[i - 1]);
    }
  }

  /** Once sent, the request is ready or has its message; and a delivery whose end is written finds it ready. */
  ghost predicate Carried(s: State, c: Id) {
    c in s.sent && !IsDone(s, c) ==>
      && HasMessage(s, c)
      && (MessageOf(s, c).Held? ==> !MessageOf(s, c).task.Written? && !MessageOf(s, c).task.Finished?)
  }

  lemma CarriedProcess(cfg: Config, s: State, a: Action, c: Id)
    requires Inv(cfg, s) && Carried(s, c) && ProcessCan(s, a)
    ensures Carried(ApplyProcess(cfg, s, a), c)
  {
  }

  lemma CarriedClient(cfg: Config, s: State, a: Action, c: Id)
    requires Inv(cfg, s) && Carried(s, c) && ClientCan(s, a)
    ensures Carried(ApplyClient(s, a), c)
  {
    FreshTag(cfg, s);
    assert c in s.sent ==> LineOk(s, c);
  }

  lemma CarriedGate(cfg: Config, s: State, m: Tag, late: bool, unknown: bool, c: Id)
    requires Inv(cfg, s) && Carried(s, c) && Unjudged(s, m)
    ensures Carried(DoGate(cfg, s, m, late, unknown), c)
  {
    assert MessageOk(s, m) && (c in s.sent ==> LineOk(s, c));
  }

  lemma CarriedDelivery(cfg: Config, s: State, a: Action, c: Id)
    requires Inv(cfg, s) && Carried(s, c) && DeliveryCan(s, a)
    ensures Carried(ApplyDelivery(cfg, s, a), c)
  {
    if a.Gate? {
      CarriedGate(cfg, s, a.m, a.late, a.unknown, c);
    } else {
      assert MessageOk(s, a.m) && (c in s.sent ==> LineOk(s, c));
    }
  }

  /** A handler goes on, and a ready result stays. */
  lemma CarriedTask(cfg: Config, s: State, m: Tag, s': State, c: Id)
    requires Inv(cfg, s) && Carried(s, c) && Busy(s, m) && Busy(s', m)
    requires s'.msgs == s.msgs[m := s'.msgs[m]] && s'.sent == s.sent && (IsDone(s, c) ==> IsDone(s', c))
    ensures Carried(s', c)
  {
  }

  lemma CarriedSend(cfg: Config, s: State, m: Tag, d: Id, c: Id)
    requires Inv(cfg, s) && Carried(s, c) && HandlerCan(s, Send(m, d))
    ensures Carried(DoSend(s, m, d), c)
  {
    FreshTag(cfg, s);
    assert MessageOk(s, m) && SubmissionOk(s, m, d) && (c in s.sent ==> LineOk(s, c));
  }

  lemma CarriedHandler(cfg: Config, s: State, a: Action, c: Id)
    requires Inv(cfg, s) && Carried(s, c) && HandlerCan(s, a)
    ensures Carried(ApplyHandler(cfg, s, a), c)
  {
    if a.Send? {
      CarriedSend(cfg, s, a.m, a.c, c);
    } else {
      if a.Store? {
        assert MessageOk(s, a.m) && SubmissionOk(s, a.m, a.c);
      } else if IsDone(s, c) {
        HandlerKeeps(cfg, s, a, c);
      }
      HandlerKeepsMessages(cfg, s, a);
      if c in s.sent {
        CarriedTask(cfg, s, a.m, ApplyHandler(cfg, s, a), c);
      }
    }
  }

  lemma CarriedEnding(cfg: Config, s: State, a: Action, c: Id)
    requires Inv(cfg, s) && Whole(s) && Carried(s, c) && EndingCan(s, a)
    ensures Carried(ApplyEnding(cfg, s, a), c)
  {
    assert MessageOk(s, a.m) && (c in s.sent ==> LineOk(s, c));
    EndingIsOne(cfg, s, a);
  }

  lemma CarriedStep(cfg: Config, s: State, a: Action, c: Id)
    requires Inv(cfg, s) && Whole(s) && Carried(s, c) && Enabled(cfg, s, a) && !a.Cancel?
    ensures Carried(Apply(cfg, s, a), c)
  {
    if OfProcess(a) {
      CarriedProcess(cfg, s, a, c);
    } else if OfClient(a) {
      CarriedClient(cfg, s, a, c);
    } else if OfDelivery(a) {
      CarriedDelivery(cfg, s, a, c);
    } else if OfHandler(a) {
      CarriedHandler(cfg, s, a, c);
    } else if OfEnding(a) {
      CarriedEnding(cfg, s, a, c);
    }
  }

  lemma {:induction false} RunCarried(cfg: Config, tr: seq<State>, acts: seq<Action>, i: nat, c: Id)
    requires IsRun(cfg, tr, acts) && Uncancelled(acts) && i < |tr|
    ensures Carried(tr[i], c)
  {
    if i > 0 {
      RunCarried(cfg, tr, acts, i - 1, c);
      RunInv(cfg, tr, acts, i - 1);
      RunWhole(cfg, tr, acts, i - 1);
      assert RunStep(cfg, tr, acts, i - 1);
      CarriedStep(cfg, tr[i - 1], acts[i - 1], c);
    }
  }

  /** Without a cancellation no request is lost, whatever is revoked, crashes, pauses and fails. */
  lemma NothingLost(cfg: Config, tr: seq<State>, acts: seq<Action>, i: nat)
    requires IsRun(cfg, tr, acts) && Uncancelled(acts) && i < |tr|
    ensures NoneLost(tr[i])
  {
    forall c | Unready(tr[i], c) ensures HasMessage(tr[i], c) {
      RunCarried(cfg, tr, acts, i, c);
    }
  }

  /** With no maximum, recursive tasks never deadlock as long as one process consumes and none is cancelled. */
  lemma NeverStuck(cfg: Config, tr: seq<State>, acts: seq<Action>, i: nat, c: Id, w: Id)
    requires IsRun(cfg, tr, acts) && Uncancelled(acts) && i < |tr|
    requires cfg.minimum >= 1 && cfg.maximum.None?
    requires Consumes(tr[i], w) && Unready(tr[i], c)
    ensures CanMove(cfg, tr[i])
  {
    NothingLost(cfg, tr, acts, i);
    if !CanMove(cfg, tr[i]) {
      StuckIsFull(cfg, tr, acts, i, c);
    }
  }

  // ----- completion

  /** The work left in one message. */
  function MessageWork(msg: Message): nat {
    match msg
    case Queued(_) => 7
    case Held(_, _, Delivered(_)) => 6
    case Held(_, _, Running(_, _, deps, subs)) => 5 + |deps| + SubsWork(subs)
    case Held(_, _, Pausing(_)) => 8
    case Held(_, _, Ended(_, _, _, _)) => 4
    case Held(_, _, Written(_, _, _)) => 3
    case Held(_, _, Finished(_)) => 2
  }

  function Staged(subs: map<Id, Stage>, stage: Stage): set<Id> {
    set c | c in subs && subs[c] == stage
  }

  function SubsWork(subs: map<Id, Stage>): nat {
    |subs.Keys| + 11 * |Staged(subs, Chosen)| + 10 * |Staged(subs, Indexed)|
  }

  ghost function MessagesWork(msgs: map<Tag, Message>): nat
    decreases |msgs|
  {
    if msgs == map[] then 0
    else
      var m :| m in msgs;
      MessageWork(msgs[m]) + MessagesWork(msgs - {m})
  }

  /** The sum may start with any message. */
  lemma {:induction false} PickWork(msgs: map<Tag, Message>, m: Tag)
    requires m in msgs
    ensures MessagesWork(msgs) == MessageWork(msgs[m]) + MessagesWork(msgs - {m})
    decreases |msgs|
  {
    var n :| n in msgs && MessagesWork(msgs) == MessageWork(msgs[n]) + MessagesWork(msgs - {n});
    if n != m {
      PickWork(msgs - {n}, m);
      PickWork(msgs - {m}, n);
      assert msgs - {n} - {m} == msgs - {m} - {n};
    }
  }

  lemma ReplaceWork(msgs: map<Tag, Message>, m: Tag, msg: Message)
    ensures MessagesWork(msgs[m := msg]) + (if m in msgs then MessageWork(msgs[m]) else 0)
            == MessagesWork(msgs) + MessageWork(msg)
  {
    PickWork(msgs[m := msg], m);
    if m in msgs {
      PickWork(msgs, m);
      assert msgs[m := msg] - {m} == msgs - {m};
    } else {
      assert msgs[m := msg] - {m} == msgs;
    }
  }

  function Rest(a: set<Id>, b: set<Id>): set<Id> {
    set x | x in a && x !in b
  }

  /** The work left when all requests are picked from the finite set `ids`. */
  ghost function Work(s: State, ids: set<Id>): nat {
    RequestsWork(s, ids) + MessagesWork(s.msgs)
  }

  /** The ids not picked yet, and the stored requests without a message. */
  ghost function RequestsWork(s: State, ids: set<Id>): nat {
    20 * |Rest(ids, s.used.Keys)| + 9 * |Rest(s.stored, s.sent.Keys)|
  }

  /** No crash, no pause, no cancellation, no error before a start; fresh ids come from `ids`. */
  predicate Productive(a: Action, ids: set<Id>) {
    match a
    case Spawn(_, c, _) => c in ids
    case StoreRoot(c) => c in ids
    case Join(_) => false
    case StopConsuming(_) => false
    case Crash(_) => false
    case Fatal(_) => false
    case Pause(_) => false
    case Revoke(_, _) => false
    case Cancel(_, _, _) => false
    case CancelRead(_) => false
    case CancelWrite(_) => false
    case CancelSettle(_) => false
    case CancelLand(_) => false
    case WriteFails(_, _) => false
    case CompleteFails(_) => false
    case _ => true
  }

  /** One message changes: compare its work before and after, and the ids not picked and not sent. */
  lemma Cheaper(s: State, s': State, m: Tag, msg: Message, ids: set<Id>)
    requires s'.msgs == s.msgs[m := msg]
    requires RequestsWork(s', ids) + MessageWork(msg)
             < RequestsWork(s, ids) + (if m in s.msgs then MessageWork(s.msgs[m]) else 0)
    ensures Work(s', ids) < Work(s, ids)
  {
    ReplaceWork(s.msgs, m, msg);
  }

  lemma CheaperTask(s: State, s': State, m: Tag, msg: Message, ids: set<Id>)
    requires m in s.msgs && MessageWork(msg) < MessageWork(s.msgs[m])
    requires OnlyTask(s, s', m, msg)
    ensures Work(s', ids) < Work(s, ids)
  {
    Cheaper(s, s', m, msg, ids);
  }

  function StageWeight(stage: Stage): nat {
    match stage case Chosen => 12 case Indexed => 11 case Stored => 1
  }

  /** A submission moves on to a stage, or ends. */
  lemma StageWork(subs: map<Id, Stage>, c: Id)
    requires c in subs
    ensures SubsWork(subs) == SubsWork(subs - {c}) + StageWeight(subs[c])
  {
    assert (subs - {c}).Keys == subs.Keys - {c};
    assert Staged(subs - {c}, Chosen) == Staged(subs, Chosen) - {c};
    assert Staged(subs - {c}, Indexed) == Staged(subs, Indexed) - {c};
  }

  lemma RestageWork(subs: map<Id, Stage>, c: Id, stage: Stage)
    ensures SubsWork(subs[c := stage]) == SubsWork(subs - {c}) + StageWeight(stage)
  {
    StageWork(subs[c := stage], c);
    assert subs[c := stage] - {c} == subs - {c};
  }

  /** The step changes one message, and no id is picked, stored or sent. */
  ghost predicate OnlyTask(s: State, s': State, m: Tag, msg: Message) {
    s'.msgs == s.msgs[m := msg] && s'.used == s.used && s'.stored == s.stored && s'.sent == s.sent
  }

  predicate Gated(t: Task) {
    t.Written? || (t.Running? && t.deps == {} && t.subs == map[])
  }

  lemma GateOnly(cfg: Config, s: State, m: Tag, late: bool, unknown: bool) returns (t: Task)
    requires OnWorker(s, m)
    ensures Gated(t) && OnlyTask(s, DoGate(cfg, s, m, late, unknown), m, s.msgs[m].(task := t))
  {
    t := DoGate(cfg, s, m, late, unknown).msgs[m].task;
  }

  lemma LeaveOnly(cfg: Config, s: State, m: Tag, t: Task, d: Id)
    requires IsHeld(s, m) && t.Running? && t.worker in s.workers
    ensures OnlyTask(s, LeaveRun(cfg, s, m, t, d), m, s.msgs[m].(task := t.(deps := t.deps - {d})))
  {
  }

  /** The task of a handler that picks `c`. */
  function Picks(t: Task, c: Id, awaited: bool): Task
    requires t.Running?
  {
    t.(subs := t.subs[c := Chosen], deps := if awaited then t.deps + {c} else t.deps)
  }

  lemma PicksWork(msg: Message, c: Id, awaited: bool)
    requires msg.Held? && msg.task.Running? && c !in msg.task.subs
    ensures MessageWork(msg.(task := Picks(msg.task, c, awaited))) <= MessageWork(msg) + 13
  {
    var t := msg.task;
    RestageWork(t.subs, c, Chosen);
    assert t.subs - {c} == t.subs;
    assert |t.deps + {c}| <= |t.deps| + 1 by {
      OneMore(t.deps, {}, c);
      assert Rest(t.deps, {}) == t.deps && Rest(t.deps + {c}, {}) == t.deps + {c};
    }
  }

  lemma PickedId(used: map<Id, Option<Tag>>, c: Id, owner: Option<Tag>, ids: set<Id>)
    requires c in ids && c !in used
    ensures |Rest(ids, used[c := owner].Keys)| == |Rest(ids, used.Keys)| - 1
  {
    assert Rest(ids, used[c := owner].Keys) == Rest(ids, used.Keys) - {c};
  }

  lemma WorkPicks(s: State, s': State, m: Tag, c: Id, awaited: bool, ids: set<Id>)
    requires Busy(s, m) && c !in s.used && c in ids && c !in s.msgs[m].task.subs
    requires OnlyTask(s.(used := s.used[c := Some(m)]), s', m, s.msgs[m].(task := Picks(s.msgs[m].task, c, awaited)))
    ensures Work(s', ids) < Work(s, ids)
  {
    PicksWork(s.msgs[m], c, awaited);
    PickedId(s.used, c, Some(m), ids);
    Cheaper(s, s', m, s.msgs[m].(task := Picks(s.msgs[m].task, c, awaited)), ids);
  }

  lemma WorkSpawn(cfg: Config, s: State, m: Tag, c: Id, awaited: bool, ids: set<Id>)
    requires OnWorker(s, m) && Busy(s, m) && c !in s.used && c in ids && c !in s.msgs[m].task.subs
    ensures Work(DoSpawn(cfg, s, m, c, awaited), ids) < Work(s, ids)
  {
    WorkPicks(s, DoSpawn(cfg, s, m, c, awaited), m, c, awaited, ids);
  }

  lemma WorkIndex(s: State, m: Tag, c: Id, ids: set<Id>)
    requires SubmitsAt(s, m, c, Chosen)
    ensures Work(DoIndex(s, m, c), ids) < Work(s, ids)
  {
    var t := s.msgs[m].task;
    StageWork(t.subs, c);
    RestageWork(t.subs, c, Indexed);
    CheaperTask(s, DoIndex(s, m, c), m, s.msgs[m].(task := t.(subs := t.subs[c := Indexed])), ids);
  }

  lemma WorkStore(s: State, m: Tag, c: Id, ids: set<Id>)
    requires SubmitsAt(s, m, c, Indexed)
    ensures Work(DoStore(s, m, c), ids) < Work(s, ids)
  {
    var t, s' := s.msgs[m].task, DoStore(s, m, c);
    StageWork(t.subs, c);
    RestageWork(t.subs, c, Stored);
    OneMore(s.stored, s.sent.Keys, c);
    Cheaper(s, s', m, s.msgs[m].(task := t.(subs := t.subs[c := Stored])), ids);
  }

  lemma OneMore(a: set<Id>, b: set<Id>, c: Id)
    ensures |Rest(a + {c}, b)| <= |Rest(a, b)| + 1
  {
    if c in a || c in b {
      assert Rest(a + {c}, b) == Rest(a, b);
    } else {
      assert Rest(a + {c}, b) == Rest(a, b) + {c};
    }
  }

  lemma WorkPublish(s: State, req: Request, ids: set<Id>)
    requires s.next !in s.msgs && req.id in s.stored && req.id !in s.sent
    ensures Work(Publish(s, req), ids) < Work(s, ids)
  {
    var s' := Publish(s, req);
    assert Rest(s'.stored, s'.sent.Keys) == Rest(s.stored, s.sent.Keys) - {req.id};
    Cheaper(s, s', s.next, Queued(req), ids);
  }

  lemma WorkSubs(s: State, m: Tag, c: Id, ids: set<Id>)
    requires Submits(s, m, c)
    ensures var t := s.msgs[m].task.(subs := s.msgs[m].task.subs - {c});
            Work(s.(msgs := With(s.msgs, m, t)), ids) < Work(s, ids)
  {
    var t := s.msgs[m].task.(subs := s.msgs[m].task.subs - {c});
    StageWork(s.msgs[m].task.subs, c);
    CheaperTask(s, s.(msgs := With(s.msgs, m, t)), m, s.msgs[m].(task := t), ids);
  }

  lemma WorkSend(s: State, m: Tag, c: Id, ids: set<Id>)
    requires Submits(s, m, c) && s.next !in s.msgs && c in s.stored && c !in s.sent
    ensures Work(DoSend(s, m, c), ids) < Work(s, ids)
  {
    var t := s.msgs[m].task.(subs := s.msgs[m].task.subs - {c});
    WorkSubs(s, m, c, ids);
    WorkPublish(s.(msgs := With(s.msgs, m, t)), Request(c, s.msgs[m].req.stack + [s.msgs[m].req.id]), ids);
  }

  lemma WorkLeave(cfg: Config, s: State, m: Tag, t: Task, d: Id, ids: set<Id>)
    requires OnWorker(s, m) && Busy(s, m) && t.Running? && t.worker in s.workers && d in t.deps
    requires t.deps == s.msgs[m].task.deps && SubsWork(t.subs) <= SubsWork(s.msgs[m].task.subs)
    ensures Work(LeaveRun(cfg, s, m, t, d), ids) < Work(s, ids)
  {
    LeaveOnly(cfg, s, m, t, d);
    CheaperTask(s, LeaveRun(cfg, s, m, t, d), m, s.msgs[m].(task := t.(deps := t.deps - {d})), ids);
  }

  lemma WorkSubmitFails(cfg: Config, s: State, m: Tag, c: Id, ids: set<Id>)
    requires OnWorker(s, m) && Submits(s, m, c)
    ensures Work(DoSubmitFails(cfg, s, m, c), ids) < Work(s, ids)
  {
    var t := s.msgs[m].task.(subs := s.msgs[m].task.subs - {c});
    if c in t.deps {
      StageWork(s.msgs[m].task.subs, c);
      WorkLeave(cfg, s, m, t, c, ids);
    } else {
      WorkSubs(s, m, c, ids);
    }
  }

  lemma WorkDeliver(s: State, w: Id, m: Tag, ids: set<Id>)
    requires w in s.workers && IsQueued(s, m)
    ensures Work(DoDeliver(s, w, m), ids) < Work(s, ids)
  {
    CheaperTask(s, DoDeliver(s, w, m), m, Held(s.msgs[m].req, s.deliveries, Delivered(w)), ids);
  }

  lemma WorkGate(cfg: Config, s: State, m: Tag, late: bool, unknown: bool, ids: set<Id>)
    requires Unjudged(s, m)
    ensures Work(DoGate(cfg, s, m, late, unknown), ids) < Work(s, ids)
  {
    var t := GateOnly(cfg, s, m, late, unknown);
    assert SubsWork(map[]) == 0 by {
      assert Staged(map[], Chosen) == {} && Staged(map[], Indexed) == {};
    }
    CheaperTask(s, DoGate(cfg, s, m, late, unknown), m, s.msgs[m].(task := t), ids);
  }

  /** A handler ends, its end is written or complete. */
  lemma WorkEnding(cfg: Config, s: State, a: Action, ids: set<Id>)
    requires EndingCan(s, a) && Productive(a, ids)
    ensures Work(ApplyEnding(cfg, s, a), ids) < Work(s, ids)
  {
    EndingIsOne(cfg, s, a);
    CheaperTask(s, ApplyEnding(cfg, s, a), a.m, ApplyEnding(cfg, s, a).msgs[a.m], ids);
  }

  lemma WorkRequeue(s: State, m: Tag, ids: set<Id>)
    requires OnWorker(s, m) && s.msgs[m].task.Pausing?
    ensures Work(DoSettle(s, m, [Nack, Ack]), ids) < Work(s, ids)
  {
    CheaperTask(s, DoSettle(s, m, [Nack, Ack]), m, Queued(s.msgs[m].req), ids);
  }

  lemma WorkAcknowledge(s: State, m: Tag, ids: set<Id>)
    requires OnWorker(s, m)
    ensures Work(DoSettle(s, m, [Ack]), ids) < Work(s, ids)
  {
    PickWork(s.msgs, m);
  }

  lemma WorkStoreRoot(s: State, c: Id, ids: set<Id>)
    requires c !in s.used && c in ids
    ensures Work(DoStoreRoot(s, c), ids) < Work(s, ids)
  {
    var s' := DoStoreRoot(s, c);
    PickedId(s.used, c, None, ids);
    OneMore(s.stored, s.sent.Keys, c);
  }

  lemma WorkClient(cfg: Config, s: State, a: Action, ids: set<Id>)
    requires Inv(cfg, s) && ClientCan(s, a) && Productive(a, ids)
    ensures Work(ApplyClient(s, a), ids) < Work(s, ids)
  {
    FreshTag(cfg, s);
    match a
    case StoreRoot(c) => WorkStoreRoot(s, c, ids);
    case SendRoot(c) => WorkPublish(s, Request(c, []), ids);
  }

  lemma WorkDelivery(cfg: Config, s: State, a: Action, ids: set<Id>)
    requires DeliveryCan(s, a) && Productive(a, ids)
    ensures Work(ApplyDelivery(cfg, s, a), ids) < Work(s, ids)
  {
    match a
    case Deliver(w, m) => WorkDeliver(s, w, m, ids);
    case Gate(m, late, unknown) => WorkGate(cfg, s, m, late, unknown, ids);
    case Requeue(m) => WorkRequeue(s, m, ids);
    case Acknowledge(m) => WorkAcknowledge(s, m, ids);
  }

  lemma WorkHandler(cfg: Config, s: State, a: Action, ids: set<Id>)
    requires Inv(cfg, s) && HandlerCan(s, a) && Productive(a, ids)
    ensures Work(ApplyHandler(cfg, s, a), ids) < Work(s, ids)
  {
    FreshTag(cfg, s);
    assert MessageOk(s, a.m);
    match a
    case Spawn(m, c, awaited) =>
      assert c in s.msgs[m].task.subs ==> SubmissionOk(s, m, c);
      WorkSpawn(cfg, s, m, c, awaited, ids);
    case Index(m, c) => WorkIndex(s, m, c, ids);
    case Store(m, c) => WorkStore(s, m, c, ids);
    case Send(m, c) =>
      assert SubmissionOk(s, m, c);
      WorkSend(s, m, c, ids);
    case SubmitFails(m, c) => WorkSubmitFails(cfg, s, m, c, ids);
    case Release(m, c) => WorkLeave(cfg, s, m, s.msgs[m].task, c, ids);
  }

  lemma WorkDecreases(cfg: Config, s: State, a: Action, ids: set<Id>)
    requires Inv(cfg, s) && Enabled(cfg, s, a) && Productive(a, ids)
    ensures Work(Apply(cfg, s, a), ids) < Work(s, ids)
  {
    if OfClient(a) {
      WorkClient(cfg, s, a, ids);
    } else if OfDelivery(a) {
      WorkDelivery(cfg, s, a, ids);
    } else if OfHandler(a) {
      WorkHandler(cfg, s, a, ids);
    } else {
      WorkEnding(cfg, s, a, ids);
    }
  }

  /** The same, in a run. */
  lemma WorkDecreasesIn(cfg: Config, tr: seq<State>, acts: seq<Action>, k: nat, ids: set<Id>)
    requires IsRun(cfg, tr, acts) && k < |acts| && Productive(acts[k], ids)
    ensures Work(tr[k + 1], ids) < Work(tr[k], ids)
  {
    RunInv(cfg, tr, acts, k);
    assert RunStep(cfg, tr, acts, k);
    WorkDecreases(cfg, tr[k], acts[k], ids);
  }

  lemma {:induction false} Descend(works: seq<nat>, i: nat, j: nat)
    requires i <= j < |works|
    requires forall k | i <= k < j :: works[k + 1] < works[k]
    decreases j - i
    ensures (j - i) + works[j] <= works[i]
  {
    if i < j {
      Descend(works, i + 1, j);
    }
  }

  ghost function Works(tr: seq<State>, ids: set<Id>): (works: seq<nat>)
    ensures |works| == |tr| && forall k | 0 <= k < |tr| :: works[k] == Work(tr[k], ids)
  {
    seq(|tr|, k requires 0 <= k < |tr| => Work(tr[k], ids))
  }

  /**
   From any point of a run on there are at most `Work` productive steps in a row, so no run takes
   them for ever; `Completion` says where they end.
   */
  lemma Bounded(cfg: Config, tr: seq<State>, acts: seq<Action>, i: nat, j: nat, ids: set<Id>)
    requires IsRun(cfg, tr, acts) && i <= j < |tr|
    requires forall k | i <= k < j :: Productive(acts[k], ids)
    ensures j - i <= Work(tr[i], ids)
  {
    var works := Works(tr, ids);
    forall k | i <= k < j ensures works[k + 1] < works[k] {
      WorkDecreasesIn(cfg, tr, acts, k, ids);
    }
    Descend(works, i, j);
  }

  lemma AwaitedChild(s: State) returns (c: Id)
    requires AllWait(s) && NothingQueued(s) && s.msgs != map[]
    ensures Unready(s, c)
  {
    var m :| m in s.msgs;
    assert WaitsForUnready(s, m);
    c :| c in s.msgs[m].task.deps;
  }

  /**
   With no maximum and a process that consumes, when nothing can move and no request was lost, as without any
   cancellation, all accepted requests are ready, all messages acknowledged, and every prefetch is back at
   the minimum but for what fatal errors and cancellations left behind.
   */
  lemma Completion(cfg: Config, tr: seq<State>, acts: seq<Action>, i: nat, w: Id)
    requires IsRun(cfg, tr, acts) && i < |tr|
    requires cfg.minimum >= 1 && cfg.maximum.None? && (Uncancelled(acts) || NoneLost(tr[i]))
    requires Consumes(tr[i], w) && !CanMove(cfg, tr[i])
    ensures forall c | c in tr[i].sent :: IsDone(tr[i], c)
    ensures tr[i].msgs == map[]
    ensures forall v | v in tr[i].workers && tr[i].workers[v].consuming ::
              tr[i].workers[v].prefetch == cfg.minimum + |LeakedAt(tr[i], v)|
  {
    var s := tr[i];
    RunCounted(cfg, tr, acts, i);
    StuckIff(cfg, tr, acts, i);
    if Uncancelled(acts) {
      NothingLost(cfg, tr, acts, i);
    }
    forall c | c in s.sent ensures IsDone(s, c) {
      assert LineOk(s, c);
      if Unready(s, c) {
        StuckIsFull(cfg, tr, acts, i, c);
      }
    }
    if s.msgs != map[] {
      var c := AwaitedChild(s);
    }
    forall v | v in s.workers && s.workers[v].consuming
      ensures s.workers[v].prefetch == cfg.minimum + |LeakedAt(s, v)|
    {
      WaitingCount(cfg, s, v);
      assert WaitingAt(s, v) == {};
      Within(LeakedAt(s, v), s.workers[v].waiting);
      assert WorkerOk(cfg, s, v);
    }
  }
}
