/** What holds of every run. Claims about one request are for requests that were never revoked themselves. */
module LifecycleTheorems {
  import opened Types
  import opened ResultModel
  import opened WorkerModel
  import opened Lifecycle
  import opened LifecycleInvariants
  import opened LifecycleSafety

  function Copies(s: State, id: Id): set<Tag> {
    set m | m in s.msgs && s.msgs[m].req.id == id
  }

  /** Whatever happens, no request has two messages. */
  lemma NeverTwoMessages(cfg: Config, tr: seq<State>, acts: seq<Action>, i: nat, id: Id)
    requires IsRun(cfg, tr, acts) && i < |tr|
    ensures |Copies(tr[i], id)| <= 1
  {
    var s := tr[i];
    RunInv(cfg, tr, acts, i);
    if m :| m in Copies(s, id) {
      forall n | n in Copies(s, id) ensures n == m {
        assert MessageOk(s, m) && MessageOk(s, n);
      }
      assert Copies(s, id) == {m};
    } else {
      assert Copies(s, id) == {};
    }
  }

  // ----- ready results

  /** A cancellation writes SUSPENDED over whatever the result says by now. */
  ghost predicate Overturns(s: State, a: Action, c: Id) {
    a.CancelWrite? && Cancels(s, a.d, c) && s.cancels[a.d].Suspends()
  }

  /** The end of the handler of `c` is stored. */
  ghost predicate Writes(s: State, a: Action, c: Id) {
    a.Write? && OnWorker(s, a.m) && s.msgs[a.m].task.Ended? && IsFor(s, a.m, c)
  }

  /** A write that outlived its delivery changes the result. */
  ghost predicate Lands(s: State, a: Action, c: Id) {
    && a.CancelLand? && Cancels(s, a.d, c) && s.cancels[a.d].stage.Outlived?
    && Lookup(s.rows, c) != Some(s.cancels[a.d].stage.row)
  }

  /** What a step does to a ready result, and to the note on how its handler ended. */
  ghost predicate Kindly(s: State, a: Action, s': State, c: Id)
    requires IsDone(s, c)
  {
    && c in s'.rows
    && (s'.rows[c] != s.rows[c] <==> Overturns(s, a, c) || Writes(s, a, c) || Lands(s, a, c))
    && (Overturns(s, a, c) ==> c in s.unheld || c in s'.astray)
    && (Writes(s, a, c) ==> s.rows[c].state.SUCCESS? && s'.rows[c].state.FAILURE? && c !in s.unheld)
    && (Lands(s, a, c) ==> c in s'.astray)
    && (c in s'.unheld && c !in s.unheld ==> Writes(s, a, c))
  }

  lemma LeaveKeeps(cfg: Config, s: State, m: Tag, t: Task, d: Id, c: Id)
    requires IsHeld(s, m) && t.Running? && t.worker in s.workers && IsDone(s, c)
    ensures c in LeaveRun(cfg, s, m, t, d).rows && LeaveRun(cfg, s, m, t, d).rows[c] == s.rows[c]
  {
  }

  lemma DeliveryKeeps(cfg: Config, s: State, a: Action, c: Id)
    requires Inv(cfg, s) && DeliveryCan(s, a) && IsDone(s, c)
    ensures c in ApplyDelivery(cfg, s, a).rows && ApplyDelivery(cfg, s, a).rows[c] == s.rows[c]
  {
    assert a.Gate? ==> MessageOk(s, a.m);
  }

  lemma FinalDelivery(cfg: Config, s: State, a: Action, c: Id)
    requires Inv(cfg, s) && DeliveryCan(s, a) && IsDone(s, c)
    ensures Kindly(s, a, ApplyDelivery(cfg, s, a), c)
  {
    DeliveryKeeps(cfg, s, a, c);
    DeliveryTurns(cfg, s, a);
  }

  /** Only the storing of a new result writes what does not wait or resume. */
  lemma HandlerKeeps(cfg: Config, s: State, a: Action, c: Id)
    requires HandlerCan(s, a) && !a.Store? && IsDone(s, c)
    ensures c in ApplyHandler(cfg, s, a).rows && ApplyHandler(cfg, s, a).rows[c] == s.rows[c]
  {
    match a
    case SubmitFails(m, d) => LeaveKeeps(cfg, s, m, s.msgs[m].task.(subs := s.msgs[m].task.subs - {d}), d, c);
    case Release(m, d) => LeaveKeeps(cfg, s, m, s.msgs[m].task, d, c);
    case _ =>
  }

  lemma FinalHandler(cfg: Config, s: State, a: Action, c: Id, h: int)
    requires Inv(cfg, s) && Calm(cfg, s, c, h) && Orderly(s, c) && HandlerCan(s, a) && IsDone(s, c)
    ensures Kindly(s, a, ApplyHandler(cfg, s, a), c)
  {
    if a.Store? {
      assert MessageOk(s, a.m) && SubmissionOk(s, a.m, a.c) && ResultOk(s, c);
    } else {
      HandlerKeeps(cfg, s, a, c);
    }
    HandlerTurns(cfg, s, a);
  }

  /** A ready result is stored again only as a failure over a success. */
  lemma FinalEnd(cfg: Config, s: State, a: Action, c: Id, h: int)
    requires Inv(cfg, s) && Calm(cfg, s, c, h) && Orderly(s, c) && EndingCan(s, a) && IsDone(s, c)
    ensures Kindly(s, a, ApplyEnding(cfg, s, a), c)
  {
    if IsFor(s, a.m, c) {
      FinalOwnEnd(cfg, s, a, c, h);
    } else {
      EndingIsOne(cfg, s, a);
    }
  }

  lemma FinalOwnEnd(cfg: Config, s: State, a: Action, c: Id, h: int)
    requires Inv(cfg, s) && Calm(cfg, s, c, h) && Orderly(s, c) && EndingCan(s, a) && IsDone(s, c) && IsFor(s, a.m, c)
    ensures Kindly(s, a, ApplyEnding(cfg, s, a), c)
  {
    assert MessageOk(s, a.m);
    Known(cfg, s, c, h);
    assert !a.Finish? && !a.Pause? && !a.WriteFails?;
  }

  /** The steps of a cancellation but its writes change no result. */
  lemma CancelKeeps(cfg: Config, s: State, a: Action)
    requires Inv(cfg, s) && !a.CancelWrite? && !a.CancelLand? && CancelCan(s, a)
    ensures ApplyCancel(cfg, s, a).rows == s.rows
  {
    if a.CancelRead? {
      KeepCancelRead(cfg, s, a.d);
    }
  }

  lemma FinalCancel(cfg: Config, s: State, a: Action, c: Id, h: int)
    requires Inv(cfg, s) && Calm(cfg, s, c, h) && Orderly(s, c) && CancelCan(s, a) && IsDone(s, c)
    ensures Kindly(s, a, ApplyCancel(cfg, s, a), c)
  {
    if a.CancelWrite? {
      Known(cfg, s, c, h);
      assert Cancels(s, a.d, c) ==> CancelCalm(s, c, a.d, h);
      assert Overturns(s, a, c) ==> ApplyCancel(cfg, s, a).rows[c].state.SUSPENDED?;
    } else if !a.CancelLand? {
      CancelKeeps(cfg, s, a);
    }
  }

  lemma ProcessKeeps(cfg: Config, s: State, a: Action)
    requires ProcessCan(s, a)
    ensures ApplyProcess(cfg, s, a).rows == s.rows
  {
  }

  lemma FinalClient(cfg: Config, s: State, a: Action, c: Id, h: int)
    requires Inv(cfg, s) && Calm(cfg, s, c, h) && ClientCan(s, a) && IsDone(s, c)
    requires Orderly(s, c) && !(a.Revoke? && a.id == c && a.force)
    ensures Kindly(s, a, ApplyClient(s, a), c)
  {
    assert ResultOk(s, c);
  }

  lemma FinalStep(cfg: Config, s: State, a: Action, c: Id, h: int)
    requires Inv(cfg, s) && Calm(cfg, s, c, h) && Orderly(s, c) && Enabled(cfg, s, a) && IsDone(s, c)
    requires !(a.Revoke? && a.id == c && a.force)
    ensures Kindly(s, a, Apply(cfg, s, a), c)
  {
    if OfProcess(a) {
      ProcessKeeps(cfg, s, a);
    } else if OfClient(a) {
      FinalClient(cfg, s, a, c, h);
    } else if OfDelivery(a) {
      FinalDelivery(cfg, s, a, c);
    } else if OfHandler(a) {
      FinalHandler(cfg, s, a, c, h);
    } else if OfEnding(a) {
      FinalEnd(cfg, s, a, c, h);
    } else {
      FinalCancel(cfg, s, a, c, h);
    }
  }

  /**
   Exactly when a ready result changes in a step, up to the first write for a delivery that was over or had
   not begun: a cancellation that read it RUNNING on its node writes now; or a handler that returned has
   failed to complete, and SUCCESS becomes FAILURE; or a write that outlived its delivery lands. The first
   needs a handler whose end was stored when its holder was gone, or a cancellation that is out of time.
   */
  lemma ReadyChanges(cfg: Config, tr: seq<State>, acts: seq<Action>, i: nat, c: Id)
    requires IsRun(cfg, tr, acts) && i < |acts| && Orderly(tr[i], c) && c !in tr[i + 1].revoking
    requires IsDone(tr[i], c)
    ensures Kindly(tr[i], acts[i], tr[i + 1], c)
  {
    RunCalm(cfg, tr, acts, i, c);
    assert RunStep(cfg, tr, acts, i);
    FinalStep(cfg, tr[i], acts[i], c, Unanswered(tr, acts, i, c));
  }

  /** The action calls the handler of `c`. */
  ghost predicate Starts(cfg: Config, s: State, a: Action, c: Id) {
    a.Gate? && a.m in s.msgs && s.msgs[a.m].req.id == c && Judge(cfg, s.rows, s.msgs[a.m].req, a.late, a.unknown).Start?
  }

  /** What is noted stays noted. */
  lemma NotesGrow(cfg: Config, tr: seq<State>, acts: seq<Action>, i: nat)
    requires IsRun(cfg, tr, acts) && i < |acts|
    ensures tr[i].revoking <= tr[i + 1].revoking && tr[i].astray <= tr[i + 1].astray
  {
    RunInv(cfg, tr, acts, i);
    assert RunStep(cfg, tr, acts, i);
    StepTurns(cfg, tr[i], acts[i]);
  }

  /** The handler of `c` ended, and its end is about to be stored. */
  ghost predicate AtEnd(s: State, c: Id) {
    HasMessage(s, c) && MessageOf(s, c).Held? && MessageOf(s, c).task.Ended?
  }

  /** _on_complete fails for a handler of `c` that returned. */
  ghost predicate CompletionFails(s: State, a: Action, c: Id) {
    a.CompleteFails? && IsFor(s, a.m, c)
  }

  lemma EndingStaysStored(cfg: Config, s: State, a: Action, c: Id, h: int)
    requires Inv(cfg, s) && Calm(cfg, s, c, h) && Orderly(s, c) && EndingCan(s, a) && IsDone(s, c)
    requires !AtEnd(s, c) && !CompletionFails(s, a, c)
    ensures !AtEnd(ApplyEnding(cfg, s, a), c)
  {
    Known(cfg, s, c, h);
    assert MessageOk(s, a.m);
    EndingIsOne(cfg, s, a);
  }

  lemma ProcessStaysStored(cfg: Config, s: State, a: Action, c: Id)
    requires ProcessCan(s, a) && !AtEnd(s, c)
    ensures !AtEnd(ApplyProcess(cfg, s, a), c)
  {
  }

  lemma ClientStaysStored(cfg: Config, s: State, a: Action, c: Id)
    requires Inv(cfg, s) && ClientCan(s, a) && c in s.sent && !AtEnd(s, c)
    ensures !AtEnd(ApplyClient(s, a), c)
  {
    FreshTag(cfg, s);
    assert LineOk(s, c);
  }

  lemma DeliveryStaysStored(cfg: Config, s: State, a: Action, c: Id)
    requires DeliveryCan(s, a) && !AtEnd(s, c)
    ensures !AtEnd(ApplyDelivery(cfg, s, a), c)
  {
  }

  lemma SettleStaysStored(cfg: Config, s: State, d: Delivery, c: Id)
    requires d in s.cancels && !AtEnd(s, c)
    ensures !AtEnd(DoCancelSettle(cfg, s, d), c)
  {
    assert !AtEnd(AtBroker(s, d), c);
  }

  lemma CancelStaysStored(cfg: Config, s: State, a: Action, c: Id)
    requires CancelCan(s, a) && !AtEnd(s, c)
    ensures !AtEnd(ApplyCancel(cfg, s, a), c)
  {
    if a.CancelSettle? {
      SettleStaysStored(cfg, s, a.d, c);
    }
  }

  lemma HandlerStaysStored(cfg: Config, s: State, a: Action, c: Id)
    requires Inv(cfg, s) && HandlerCan(s, a) && c in s.sent && !AtEnd(s, c)
    ensures !AtEnd(ApplyHandler(cfg, s, a), c)
  {
    if a.Send? {
      FreshTag(cfg, s);
      assert MessageOk(s, a.m) && SubmissionOk(s, a.m, a.c) && LineOk(s, c);
    } else {
      HandlerKeepsMessages(cfg, s, a);
    }
  }

  /** Once the end of its handler is stored, only a failing completion has it stored again. */
  lemma StaysStored(cfg: Config, s: State, a: Action, c: Id, h: int)
    requires Inv(cfg, s) && Calm(cfg, s, c, h) && Orderly(s, c) && Enabled(cfg, s, a) && IsDone(s, c)
    requires !AtEnd(s, c) && !CompletionFails(s, a, c) && c in s.sent
    ensures !AtEnd(Apply(cfg, s, a), c)
  {
    if OfProcess(a) {
      ProcessStaysStored(cfg, s, a, c);
    } else if OfClient(a) {
      ClientStaysStored(cfg, s, a, c);
    } else if OfDelivery(a) {
      DeliveryStaysStored(cfg, s, a, c);
    } else if OfHandler(a) {
      HandlerStaysStored(cfg, s, a, c);
    } else if OfEnding(a) {
      EndingStaysStored(cfg, s, a, c, h);
    } else {
      CancelStaysStored(cfg, s, a, c);
    }
  }

  lemma StoredNext(cfg: Config, tr: seq<State>, acts: seq<Action>, i: nat, c: Id)
    requires IsRun(cfg, tr, acts) && i < |acts| && Orderly(tr[i], c) && IsDone(tr[i], c)
    requires !AtEnd(tr[i], c) && !CompletionFails(tr[i], acts[i], c)
    ensures !AtEnd(tr[i + 1], c) && !Writes(tr[i], acts[i], c)
  {
    RunCalm(cfg, tr, acts, i, c);
    assert RunStep(cfg, tr, acts, i);
    assert ResultOk(tr[i], c);
    assert acts[i].Write? ==> MessageOk(tr[i], acts[i].m);
    StaysStored(cfg, tr[i], acts[i], c, Unanswered(tr, acts, i, c));
  }

  /**
   A result that is ready, with no other end about to be stored, never changes again and its handler is never
   called again, unless its completion fails or, if its handler had lost its holder before the end was stored,
   a cancellation overturns it.
   */
  lemma {:induction false} SingleOutcome(cfg: Config, tr: seq<State>, acts: seq<Action>, i: nat, j: nat, c: Id)
    requires IsRun(cfg, tr, acts) && i <= j < |tr| && Orderly(tr[j], c)
    requires IsDone(tr[i], c) && !AtEnd(tr[i], c)
    requires forall k | i <= k < j :: !CompletionFails(tr[k], acts[k], c)
    requires c in tr[i].unheld ==> forall k | i <= k < j :: !Overturns(tr[k], acts[k], c)
    ensures c in tr[j].rows && tr[j].rows[c] == tr[i].rows[c] && !AtEnd(tr[j], c)
    ensures c in tr[j].unheld ==> c in tr[i].unheld
    ensures j < |acts| ==> !Starts(cfg, tr[j], acts[j], c)
    decreases j
  {
    if i < j {
      NotesGrow(cfg, tr, acts, j - 1);
      SingleOutcome(cfg, tr, acts, i, j - 1, c);
      ReadyChanges(cfg, tr, acts, j - 1, c);
      StoredNext(cfg, tr, acts, j - 1, c);
    }
  }

  // ----- message conservation

  /** The message of `c` is acknowledged although its last handler ended when its holder was gone. */
  ghost predicate LostAt(s: State, a: Action, c: Id) {
    a.Acknowledge? && c in s.sent && a.m == s.sent[c].tag && c in s.unheld
  }

  ghost predicate Lost(tr: seq<State>, acts: seq<Action>, i: nat, c: Id)
    requires i <= |acts| && |tr| == |acts| + 1
  {
    exists k :: 0 <= k < i && LostAt(tr[k], acts[k], c)
  }

  /** What a step does to the set of messages, to the requests sent and to the notes. */
  ghost predicate Turnover(s: State, a: Action, s': State) {
    && s.revoking <= s'.revoking && (a.Revoke? || s'.revoking == s.revoking) && s.astray <= s'.astray
    && ( || (s'.sent == s.sent && s'.msgs.Keys <= s.msgs.Keys)
         || (exists id: Id, post: Post :: id !in s.sent && post.tag == s.next
               && s'.sent == s.sent[id := post] && s'.msgs.Keys == s.msgs.Keys + {s.next}))
    && (forall t | t in s.msgs && t !in s'.msgs ::
          a == Acknowledge(t) || (a.CancelSettle? && a.d.tag == t && a.d in s.cancels && s.cancels[a.d].verb.Ack?))
    && (forall id: Id | id in s'.unheld && id !in s.unheld :: OfEnding(a) && IsFor(s, a.m, id))
  }

  lemma HandlerTurns(cfg: Config, s: State, a: Action)
    requires Inv(cfg, s) && HandlerCan(s, a)
    ensures Turnover(s, a, ApplyHandler(cfg, s, a))
  {
    if a.Send? {
      assert MessageOk(s, a.m) && SubmissionOk(s, a.m, a.c);
    } else {
      HandlerKeepsMessages(cfg, s, a);
    }
  }

  /** The handler of `m` goes on, and nobody else: the requests sent, the cancellations and the notes are the same. */
  ghost predicate SameMessages(s: State, s': State, m: Tag) {
    && m in s.msgs && Busy(s', m) && s'.msgs == s.msgs[m := s'.msgs[m]]
    && s'.sent == s.sent && s'.cancels == s.cancels
    && s'.revoking == s.revoking && s'.astray == s.astray && s'.unheld == s.unheld
  }

  lemma EnterSame(cfg: Config, s: State, m: Tag, t: Task, d: Id)
    requires IsHeld(s, m) && t.Running? && t.worker in s.workers
    ensures SameMessages(s, EnterRun(cfg, s, m, t, d), m)
  {
  }

  lemma WakeSame(cfg: Config, s: State, m: Tag, t: Task, d: Id)
    requires IsHeld(s, m) && t.Running? && t.worker in s.workers && t.deps - {d} == {}
    ensures SameMessages(s, LeaveRun(cfg, s, m, t, d), m)
  {
  }

  lemma LeaveSame(cfg: Config, s: State, m: Tag, t: Task, d: Id)
    requires IsHeld(s, m) && t.Running? && t.worker in s.workers
    ensures SameMessages(s, LeaveRun(cfg, s, m, t, d), m)
  {
    if t.deps - {d} == {} {
      WakeSame(cfg, s, m, t, d);
    }
  }

  lemma SubmitSame(cfg: Config, s: State, a: Action)
    requires (a.Index? || a.Store?) && HandlerCan(s, a)
    ensures SameMessages(s, ApplyHandler(cfg, s, a), a.m)
  {
  }

  lemma HandlerKeepsMessages(cfg: Config, s: State, a: Action)
    requires HandlerCan(s, a) && !a.Send?
    ensures SameMessages(s, ApplyHandler(cfg, s, a), a.m)
  {
    if a.Index? || a.Store? {
      SubmitSame(cfg, s, a);
    } else if a.Spawn? {
      EnterSame(cfg, s, a.m, s.msgs[a.m].task.(subs := s.msgs[a.m].task.subs[a.c := Chosen]), a.c);
    } else if a.SubmitFails? {
      LeaveSame(cfg, s, a.m, s.msgs[a.m].task.(subs := s.msgs[a.m].task.subs - {a.c}), a.c);
    } else {
      LeaveSame(cfg, s, a.m, s.msgs[a.m].task, a.c);
    }
  }

  lemma ClientTurns(s: State, a: Action)
    requires ClientCan(s, a)
    ensures Turnover(s, a, ApplyClient(s, a))
  {
  }

  lemma DeliveryTurns(cfg: Config, s: State, a: Action)
    requires DeliveryCan(s, a)
    ensures Turnover(s, a, ApplyDelivery(cfg, s, a))
  {
  }

  lemma ProcessTurns(cfg: Config, s: State, a: Action)
    requires ProcessCan(s, a)
    ensures Turnover(s, a, ApplyProcess(cfg, s, a))
  {
  }

  lemma EndingTurns(cfg: Config, s: State, a: Action)
    requires EndingCan(s, a)
    ensures Turnover(s, a, ApplyEnding(cfg, s, a))
  {
    EndingIsOne(cfg, s, a);
  }

  lemma SettleTurns(cfg: Config, s: State, d: Delivery)
    requires d in s.cancels
    ensures Turnover(s, CancelSettle(d), DoCancelSettle(cfg, s, d))
  {
    assert Turnover(s, CancelSettle(d), AtBroker(s, d));
  }

  lemma CancelTurns(cfg: Config, s: State, a: Action)
    requires CancelCan(s, a)
    ensures Turnover(s, a, ApplyCancel(cfg, s, a))
  {
    if a.CancelSettle? {
      SettleTurns(cfg, s, a.d);
    }
  }

  lemma StepTurns(cfg: Config, s: State, a: Action)
    requires Inv(cfg, s) && Enabled(cfg, s, a)
    ensures Turnover(s, a, Apply(cfg, s, a))
  {
    if OfProcess(a) {
      ProcessTurns(cfg, s, a);
    } else if OfClient(a) {
      ClientTurns(s, a);
    } else if OfDelivery(a) {
      DeliveryTurns(cfg, s, a);
    } else if OfHandler(a) {
      HandlerTurns(cfg, s, a);
    } else if OfEnding(a) {
      EndingTurns(cfg, s, a);
    } else {
      CancelTurns(cfg, s, a);
    }
  }

  lemma GoneTurns(cfg: Config, s: State, a: Action, s': State, c: Id)
    requires Inv(cfg, s) && Turnover(s, a, s') && c in s.sent && !HasMessage(s, c)
    ensures c in s'.sent && !HasMessage(s', c) && (c !in s.unheld ==> c !in s'.unheld)
  {
    assert LineOk(s, c);
    forall m | m in s.msgs ensures s.msgs[m].req.id != c {
      assert MessageOk(s, m);
    }
  }

  /** Once gone, a message stays gone, and nobody ends a handler of it. */
  lemma StaysGone(cfg: Config, s: State, a: Action, c: Id)
    requires Inv(cfg, s) && Enabled(cfg, s, a) && c in s.sent && !HasMessage(s, c)
    ensures c in Apply(cfg, s, a).sent && !HasMessage(Apply(cfg, s, a), c)
    ensures c !in s.unheld ==> c !in Apply(cfg, s, a).unheld
  {
    StepTurns(cfg, s, a);
    GoneTurns(cfg, s, a, Apply(cfg, s, a), c);
  }

  lemma AckTurns(cfg: Config, s: State, a: Action, s': State, c: Id)
    requires Inv(cfg, s) && Turnover(s, a, s') && c !in s.revoking && HasMessage(s, c)
    requires a != Acknowledge(s.sent[c].tag)
    ensures HasMessage(s', c)
  {
    assert LineOk(s, c);
    if a.CancelSettle? && a.d in s.cancels {
      assert CancelOk(s, a.d) && LineOk(s, s.cancels[a.d].id);
    }
  }

  /** Only an acknowledgement ends the message of a request that is not revoked. */
  lemma EndsByAck(cfg: Config, s: State, a: Action, c: Id)
    requires Inv(cfg, s) && Enabled(cfg, s, a) && c !in s.revoking && HasMessage(s, c)
    requires a != Acknowledge(s.sent[c].tag)
    ensures HasMessage(Apply(cfg, s, a), c)
  {
    StepTurns(cfg, s, a);
    AckTurns(cfg, s, a, Apply(cfg, s, a), c);
  }

  /** Its message is gone and its result is ready, from a handler that ended with its holder: that is how it stays. */
  ghost predicate Closed(s: State, c: Id) {
    c in s.sent && !HasMessage(s, c) && IsDone(s, c) && c !in s.unheld
  }

  lemma ClosedStays(cfg: Config, s: State, a: Action, c: Id, h: int)
    requires Inv(cfg, s) && Calm(cfg, s, c, h) && Orderly(s, c) && Enabled(cfg, s, a)
    requires Orderly(Apply(cfg, s, a), c) && Closed(s, c)
    ensures Closed(Apply(cfg, s, a), c) && Apply(cfg, s, a).rows[c] == s.rows[c]
  {
    StaysGone(cfg, s, a, c);
    FinalStep(cfg, s, a, c, h);
    forall m | m in s.msgs ensures !IsFor(s, m, c) {
      assert MessageOk(s, m);
    }
  }

  /** One step of a request that has its message, or is closed. */
  lemma MessageStep(cfg: Config, s: State, a: Action, c: Id, h: int)
    requires Inv(cfg, s) && Calm(cfg, s, c, h) && Orderly(s, c) && Enabled(cfg, s, a) && Orderly(Apply(cfg, s, a), c)
    requires HasMessage(s, c) || Closed(s, c)
    ensures HasMessage(Apply(cfg, s, a), c) || Closed(Apply(cfg, s, a), c) || LostAt(s, a, c)
  {
    if Closed(s, c) {
      ClosedStays(cfg, s, a, c, h);
    } else if a != Acknowledge(s.sent[c].tag) {
      EndsByAck(cfg, s, a, c);
    } else {
      Known(cfg, s, c, h);
    }
  }

  /** The same in a run, where a request may also be sent now. */
  lemma MessageNext(cfg: Config, tr: seq<State>, acts: seq<Action>, i: nat, c: Id)
    requires IsRun(cfg, tr, acts) && i < |acts| && c in tr[i + 1].sent && Orderly(tr[i + 1], c)
    requires c in tr[i].sent ==> HasMessage(tr[i], c) || Closed(tr[i], c)
    ensures HasMessage(tr[i + 1], c) || Closed(tr[i + 1], c) || LostAt(tr[i], acts[i], c)
  {
    RunCalm(cfg, tr, acts, i, c);
    assert RunStep(cfg, tr, acts, i);
    StepTurns(cfg, tr[i], acts[i]);
    if c in tr[i].sent {
      MessageStep(cfg, tr[i], acts[i], c, Unanswered(tr, acts, i, c));
    }
  }

  /** Once sent, a request that was never revoked has its message, or is closed, or was lost. */
  lemma {:induction false} HasOrLost(cfg: Config, tr: seq<State>, acts: seq<Action>, i: nat, c: Id)
    requires IsRun(cfg, tr, acts) && i < |tr| && c in tr[i].sent && Orderly(tr[i], c)
    ensures HasMessage(tr[i], c) || Closed(tr[i], c) || Lost(tr, acts, i, c)
  {
    if i > 0 {
      if c in tr[i - 1].sent {
        NotesGrow(cfg, tr, acts, i - 1);
        HasOrLost(cfg, tr, acts, i - 1, c);
      }
      if !Lost(tr, acts, i - 1, c) {
        MessageNext(cfg, tr, acts, i - 1, c);
      }
      assert LostAt(tr[i - 1], acts[i - 1], c) ==> Lost(tr, acts, i, c);
    }
  }

  /** A request whose message is acknowledged, ready from a handler that kept its holder, stays as it is. */
  lemma {:induction false} ClosedForGood(cfg: Config, tr: seq<State>, acts: seq<Action>, i: nat, j: nat, c: Id)
    requires IsRun(cfg, tr, acts) && i <= j < |tr| && Orderly(tr[j], c) && Closed(tr[i], c)
    ensures Closed(tr[j], c) && tr[j].rows[c] == tr[i].rows[c]
    decreases j
  {
    if i < j {
      NotesGrow(cfg, tr, acts, j - 1);
      ClosedForGood(cfg, tr, acts, i, j - 1, c);
      RunCalm(cfg, tr, acts, j - 1, c);
      assert RunStep(cfg, tr, acts, j - 1);
      ClosedStays(cfg, tr[j - 1], acts[j - 1], c, Unanswered(tr, acts, j - 1, c));
    }
  }

  lemma {:induction false} LostIsGone(cfg: Config, tr: seq<State>, acts: seq<Action>, k: nat, i: nat, c: Id)
    requires IsRun(cfg, tr, acts) && k < i < |tr| && LostAt(tr[k], acts[k], c)
    ensures c in tr[i].sent && !HasMessage(tr[i], c)
  {
    RunInv(cfg, tr, acts, i - 1);
    assert RunStep(cfg, tr, acts, i - 1);
    if k < i - 1 {
      LostIsGone(cfg, tr, acts, k, i - 1, c);
      StaysGone(cfg, tr[i - 1], acts[i - 1], c);
    }
  }

  /**
   In every run, with any number of pauses, crashes, errors and cancellations, an accepted request that is
   orderly and not ready has exactly one message, held by a live process if any; except that it has none
   exactly if its message was acknowledged after a handler whose end was stored, or not stored at all, when a
   cancellation had dropped its holder.
   */
  lemma MessageConservation(cfg: Config, tr: seq<State>, acts: seq<Action>, i: nat, c: Id)
    requires IsRun(cfg, tr, acts) && i < |tr| && Orderly(tr[i], c)
    requires c in tr[i].sent && c in tr[i].rows && !tr[i].rows[c].Done()
    ensures |Copies(tr[i], c)| == if Lost(tr, acts, i, c) then 0 else 1
    ensures forall m | m in Copies(tr[i], c) && tr[i].msgs[m].Held? :: tr[i].msgs[m].task.worker in tr[i].workers
  {
    var s := tr[i];
    RunInv(cfg, tr, acts, i);
    HasOrLost(cfg, tr, acts, i, c);
    NeverTwoMessages(cfg, tr, acts, i, c);
    assert LineOk(s, c);
    forall m | m in Copies(s, c)
      ensures m == s.sent[c].tag && (s.msgs[m].Held? ==> s.msgs[m].task.worker in s.workers)
    {
      assert MessageOk(s, m);
    }
    if Lost(tr, acts, i, c) {
      var k :| 0 <= k < i && LostAt(tr[k], acts[k], c);
      LostIsGone(cfg, tr, acts, k, i, c);
      assert Copies(s, c) == {};
    } else {
      assert s.sent[c].tag in Copies(s, c);
    }
  }

  // ----- crash accounting

  /**
   In every run, the starts that no stop answered of an orderly result that is not ready are the crashes, the
   cancellations and the fatal errors that took its message from a process on which it said RUNNING, less
   the cancellations before the gate that suspended it for such a start, and one more while it says RUNNING
   and does not wait at a gate.
   */
  lemma CrashAccounting(cfg: Config, tr: seq<State>, acts: seq<Action>, i: nat, c: Id)
    requires IsRun(cfg, tr, acts) && i < |tr| && Orderly(tr[i], c)
    ensures c in tr[i].rows && !tr[i].rows[c].Done() ==>
      tr[i].rows[c].starts - tr[i].rows[c].stops
      == Crashes(tr, acts, i, c) + Drops(tr, acts, i, c) - Pardons(tr, acts, i, c) + if Begun(tr[i], c) then 1 else 0
    ensures Crashes(tr, acts, i, c) + Drops(tr, acts, i, c) - Pardons(tr, acts, i, c) <= cfg.maxRetries + 1
  {
    RunCalm(cfg, tr, acts, i, c);
  }

  /** While no cancellation of it is under way, a result under a handler says RUNNING exactly while that is active. */
  lemma RunningIsActive(cfg: Config, tr: seq<State>, acts: seq<Action>, i: nat, c: Id)
    requires IsRun(cfg, tr, acts) && i < |tr| && Orderly(tr[i], c) && InHandler(tr[i], c)
    requires forall d :: !Cancels(tr[i], d, c)
    ensures c in tr[i].rows && (tr[i].rows[c].state.RUNNING? <==> IsActive(tr[i], tr[i].sent[c].tag))
    ensures !IsActive(tr[i], tr[i].sent[c].tag) ==> tr[i].rows[c].state.SUSPENDED?
  {
    RunCalm(cfg, tr, acts, i, c);
    Known(cfg, tr[i], c, Unanswered(tr, acts, i, c));
  }

  /** Until a request is sent, its stored result is as it was submitted. */
  lemma UntouchedUntilSent(cfg: Config, tr: seq<State>, acts: seq<Action>, i: nat, c: Id)
    requires IsRun(cfg, tr, acts) && i < |tr| && Orderly(tr[i], c) && c in tr[i].rows && c !in tr[i].sent
    ensures var row := tr[i].rows[c]; row.state.PENDING? && row.starts == 0 && row.stops == 0 && row.node.None?
    ensures c in tr[i].stored
  {
    RunCalm(cfg, tr, acts, i, c);
  }

  /** A request is given up for its retries exactly when these are max_retries + 1. */
  lemma GivenUpForRetries(cfg: Config, tr: seq<State>, acts: seq<Action>, i: nat, m: Tag, late: bool, unknown: bool)
    requires IsRun(cfg, tr, acts) && i < |tr| && Enabled(cfg, tr[i], Gate(m, late, unknown))
    requires var c := tr[i].msgs[m].req.id; Orderly(tr[i], c) && c in tr[i].rows && !tr[i].rows[c].Done()
    ensures var c := tr[i].msgs[m].req.id;
            Judge(cfg, tr[i].rows, tr[i].msgs[m].req, late, unknown).TooManyRetries?
            <==> Crashes(tr, acts, i, c) + Drops(tr, acts, i, c) - Pardons(tr, acts, i, c) == cfg.maxRetries + 1
  {
    RunCalm(cfg, tr, acts, i, tr[i].msgs[m].req.id);
    assert MessageOk(tr[i], m);
  }

  // ----- ancestors, revocations included

  /** `chain` is the ancestry of `c` by the stored parent ids, root first. */
  ghost predicate IsChain(rows: map<Id, Row>, c: Id, chain: seq<Id>)
    decreases |chain|
  {
    && c in rows
    && match rows[c].parent
       case None => chain == []
       case Some(p) => chain != [] && chain[|chain| - 1] == p && IsChain(rows, p, chain[..|chain| - 1])
  }

  lemma {:induction false} OneChain(rows: map<Id, Row>, c: Id, chain: seq<Id>, other: seq<Id>)
    requires IsChain(rows, c, chain) && IsChain(rows, c, other)
    ensures chain == other
    decreases |chain|
  {
    if chain != [] {
      OneChain(rows, chain[|chain| - 1], chain[..|chain| - 1], other[..|other| - 1]);
      assert chain == chain[..|chain| - 1] + [chain[|chain| - 1]];
      assert other == other[..|other| - 1] + [other[|other| - 1]];
    }
  }

  lemma {:induction false} StackIsChain(cfg: Config, s: State, c: Id)
    requires Inv(cfg, s) && c in s.sent
    ensures IsChain(s.rows, c, s.sent[c].stack)
    decreases |s.sent[c].stack|
  {
    assert LineOk(s, c);
    if s.rows[c].parent.Some? {
      var p := s.rows[c].parent.value;
      StackIsChain(cfg, s, p);
      assert s.sent[c].stack[..|s.sent[c].stack| - 1] == s.sent[p].stack;
    }
  }

  /** In every run each message carries the ancestry of its request, and only that. */
  lemma StackIsAncestry(cfg: Config, tr: seq<State>, acts: seq<Action>, i: nat, m: Tag, chain: seq<Id>)
    requires IsRun(cfg, tr, acts) && i < |tr| && m in tr[i].msgs
    ensures IsChain(tr[i].rows, tr[i].msgs[m].req.id, chain) <==> chain == tr[i].msgs[m].req.stack
  {
    RunInv(cfg, tr, acts, i);
    assert MessageOk(tr[i], m);
    StackIsChain(cfg, tr[i], tr[i].msgs[m].req.id);
    if IsChain(tr[i].rows, tr[i].msgs[m].req.id, chain) {
      OneChain(tr[i].rows, tr[i].msgs[m].req.id, chain, tr[i].msgs[m].req.stack);
    }
  }

  /**
   In every run, a handler that starts has at most `maxRecursion` ancestors, and at that moment each
   of them has a result that is not REVOKED. So while an ancestor's result stays REVOKED no descendant
   starts, at whatever distance and whenever it was submitted.
   */
  lemma AncestorGate(cfg: Config, tr: seq<State>, acts: seq<Action>, i: nat, c: Id, chain: seq<Id>, k: nat)
    requires IsRun(cfg, tr, acts) && i < |acts| && Starts(cfg, tr[i], acts[i], c)
    requires IsChain(tr[i].rows, c, chain) && k < |chain|
    ensures |chain| <= cfg.maxRecursion
    ensures chain[k] in tr[i].rows && !tr[i].rows[chain[k]].state.REVOKED?
  {
    StackIsAncestry(cfg, tr, acts, i, acts[i].m, chain);
    AncestorsIff(tr[i].rows, chain);
    assert GoodAncestor(tr[i].rows, chain[k]);
  }
}
