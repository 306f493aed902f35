/**
 One request that is never itself revoked, in any run: what its result, its message and the cancellations
 of it say of each other, and how the counters of its result add up.
 */
module LifecycleSafety {
  import opened Types
  import opened ResultModel
  import opened Settlement
  import opened WorkerModel
  import opened Lifecycle
  import opened LifecycleInvariants

  // ----- views of one request

  predicate HasMessage(s: State, c: Id) {
    c in s.sent && s.sent[c].tag in s.msgs
  }

  function MessageOf(s: State, c: Id): Message
    requires HasMessage(s, c)
  {
    s.msgs[s.sent[c].tag]
  }

  /** Its message waits for a process, or for the gate there. */
  predicate AtGate(s: State, c: Id) {
    HasMessage(s, c) && (MessageOf(s, c).Queued? || MessageOf(s, c).task.Delivered?)
  }

  predicate InHandler(s: State, c: Id) {
    HasMessage(s, c) && MessageOf(s, c).Held? && MessageOf(s, c).task.Running?
  }

  /** Its result says RUNNING, and its message does not wait at a gate. */
  predicate Begun(s: State, c: Id) {
    c in s.rows && s.rows[c].state.RUNNING? && !AtGate(s, c)
  }

  predicate Cancels(s: State, d: Delivery, c: Id) {
    d in s.cancels && s.cancels[d].id == c
  }

  /** It was never revoked itself, and its result never written for a delivery that was over or had not begun. */
  predicate Orderly(s: State, c: Id) {
    c !in s.revoking && c !in s.astray
  }

  // ----- what holds of it

  /**
   A running handler and its result: SUSPENDED while it waits and, until a cancellation drops its holder,
   RUNNING while it does not. Its own copy is one start ahead of the `h` starts that nothing answers.
   */
  ghost predicate RowOk(s: State, c: Id, h: int)
    requires c in s.rows && InHandler(s, c)
  {
    var row, t := s.rows[c], MessageOf(s, c).task;
    && row.node == Some(t.worker)
    && (row.state.RUNNING? || row.state.SUSPENDED?)
    && (t.deps != {} ==> row.state.SUSPENDED?)
    && (t.deps == {} && !Cancels(s, DeliveryOf(s, s.sent[c].tag), c) ==> row.state.RUNNING?)
    && t.local.Net() == h + 1
    && c !in s.unheld
  }

  /** The handler ended, and its end is to be stored: for the first time, or as a failure after a success. */
  ghost predicate EndOk(s: State, c: Id)
    requires c in s.rows && HasMessage(s, c) && MessageOf(s, c).Held? && MessageOf(s, c).task.Ended?
  {
    var row, t := s.rows[c], MessageOf(s, c).task;
    && c !in s.unheld
    && ( || ((row.state.RUNNING? || row.state.SUSPENDED?) && row.node == Some(t.worker))
         || (row.state.SUCCESS? && t.outcome.FAILURE?))
  }

  /** The end is stored. A cancellation may have suspended the result after all, if it dropped the holder before. */
  ghost predicate WrittenOk(s: State, c: Id)
    requires c in s.rows && HasMessage(s, c) && MessageOf(s, c).Held? && MessageOf(s, c).task.Written?
  {
    && (s.rows[c].Done() || (c in s.unheld && s.rows[c].state.SUSPENDED?))
    && (MessageOf(s, c).task.again.Some? ==>
          if c in s.unheld then Cancels(s, DeliveryOf(s, s.sent[c].tag), c) else s.rows[c].state.SUCCESS?)
  }

  /** What the stored result says, phase by phase. */
  ghost predicate PhaseOk(s: State, c: Id, h: int)
    requires c in s.rows && HasMessage(s, c)
  {
    match MessageOf(s, c)
    case Queued(_) => true
    case Held(_, _, Delivered(_)) => true
    case Held(_, _, Running(_, _, _, _)) => RowOk(s, c, h)
    case Held(_, _, Pausing(_)) => s.rows[c].state.SUSPENDED?
    case Held(_, _, Ended(_, _, _, _)) => EndOk(s, c)
    case Held(_, _, Written(_, _, _)) => WrittenOk(s, c)
    case Held(_, _, Finished(w)) =>
      s.rows[c].Done() || (c in s.unheld && (s.rows[c].state.RUNNING? ==> s.rows[c].node == Some(w)))
  }

  /**
   Before a request is sent its result is untouched; until it is ready its message exists, unless its last
   handler ended unheld.
   */
  ghost predicate ResultOk(s: State, c: Id)
    requires c in s.rows
  {
    && c in s.stored
    && (c !in s.sent ==> s.rows[c] == Submitted(s.rows[c].parent))
    && (c in s.sent && !s.rows[c].Done() ==> HasMessage(s, c) || c in s.unheld)
  }

  /**
   A cancellation that is about to suspend the result in time. Before the gate the result is as it was read.
   Otherwise the copy is one start ahead, and the handler runs or is about to store its end, or ended unheld.
   */
  ghost predicate CancelCalm(s: State, c: Id, d: Delivery, h: int)
    requires Cancels(s, d, c)
  {
    && c in s.rows
    && (s.cancels[d].Suspends() && Timely(s, d) ==>
          var row := s.cancels[d].stage.row;
          if s.cancels[d].stage.early then s.rows[c] == row
          else
            && row.Net() == h + 1
            && ( || (Ours(s, d) && s.msgs[d.tag].task.Running?)
                 || (Ours(s, d) && s.msgs[d.tag].task.Ended? && !s.rows[c].Done())
                 || (c in s.unheld && (Ours(s, d) ==> s.msgs[d.tag].task.Written? || s.msgs[d.tag].task.Finished?))))
  }

  /** The books of one request with `h` starts that nothing answers, but for a handler that is under way. */
  ghost predicate Booked(cfg: Config, s: State, c: Id, h: int) {
    && (c !in s.stored ==> h == 0)
    && (c in s.rows && !s.rows[c].Done() ==> s.rows[c].Net() == h + if Begun(s, c) then 1 else 0)
    && h <= (if InHandler(s, c) || Begun(s, c) then cfg.maxRetries else cfg.maxRetries + 1)
  }

  ghost predicate Calm(cfg: Config, s: State, c: Id, h: int) {
    Orderly(s, c) ==>
      && Booked(cfg, s, c, h)
      && (c in s.rows ==> ResultOk(s, c))
      && (c in s.rows && HasMessage(s, c) ==> PhaseOk(s, c, h))
      && (forall d {:trigger CancelCalm(s, c, d, h)} | Cancels(s, d, c) :: CancelCalm(s, c, d, h))
  }

  /** The step takes the message of `c` from a process on which its result says RUNNING: a crash ... */
  ghost predicate CrashOf(s: State, a: Action, c: Id) {
    a.Crash? && Begun(s, c) && HasMessage(s, c) && HeldBy(s, s.sent[c].tag, a.w)
  }

  /** ... or a cancellation, or a fatal error. */
  ghost predicate DropOf(s: State, a: Action, c: Id) {
    && Begun(s, c) && HasMessage(s, c)
    && ((a.CancelSettle? && Ours(s, a.d) && a.d.tag == s.sent[c].tag) || a == Fatal(s.sent[c].tag))
  }

  /** A cancellation before the gate suspends a result that still says RUNNING on its node: an old start is answered. */
  ghost predicate PardonOf(s: State, a: Action, c: Id) {
    a.CancelWrite? && Cancels(s, a.d, c) && s.cancels[a.d].Suspends() && s.cancels[a.d].stage.early && Timely(s, a.d)
  }

  ghost function After(s: State, a: Action, c: Id, h: int): int {
    if CrashOf(s, a, c) || DropOf(s, a, c) then h + 1 else if PardonOf(s, a, c) then h - 1 else h
  }

  // ----- steps that are not about it

  function Lookup<V>(m: map<nat, V>, k: nat): Option<V> {
    if k in m then Some(m[k]) else None
  }

  /** The step leaves the request alone. */
  ghost predicate Aside(s: State, s': State, c: Id) {
    && s.revoking <= s'.revoking && s.astray <= s'.astray
    && Lookup(s'.rows, c) == Lookup(s.rows, c) && Lookup(s'.sent, c) == Lookup(s.sent, c)
    && (c in s'.stored <==> c in s.stored) && (c in s'.unheld <==> c in s.unheld)
    && (c in s.sent ==> Lookup(s'.msgs, s.sent[c].tag) == Lookup(s.msgs, s.sent[c].tag))
    && (forall d {:trigger Cancels(s', d, c)} :: Cancels(s', d, c) <==> Cancels(s, d, c))
    && (forall d | Cancels(s, d, c) && Cancels(s', d, c) :: s'.cancels[d] == s.cancels[d])
  }

  lemma CalmAside(cfg: Config, s: State, s': State, c: Id, h: int)
    requires Inv(cfg, s) && Calm(cfg, s, c, h) && Aside(s, s', c)
    ensures Calm(cfg, s', c, h)
  {
    if Orderly(s', c) {
      assert c in s.sent ==> LineOk(s, c);
      forall d | Cancels(s', d, c) ensures CancelCalm(s', c, d, h) {
        assert Cancels(s, d, c) && CancelOk(s, d);
        assert CancelCalm(s, c, d, h);
      }
    }
  }

  /** The message is not that of `c`. */
  lemma OtherMessage(cfg: Config, s: State, m: Tag, c: Id)
    requires Inv(cfg, s) && m in s.msgs && !IsFor(s, m, c)
    ensures c in s.sent ==> s.sent[c].tag != m
  {
    assert c in s.sent ==> LineOk(s, c);
  }

  // ----- one lemma an action

  /** What is known of the request before a step of its own. */
  lemma Known(cfg: Config, s: State, c: Id, h: int)
    requires Inv(cfg, s) && Calm(cfg, s, c, h) && Orderly(s, c)
    ensures c in s.sent ==> LineOk(s, c)
    ensures HasMessage(s, c) ==>
      MessageOk(s, s.sent[c].tag) && MessageOf(s, c).req.id == c && c in s.rows && PhaseOk(s, c, h)
    ensures c in s.rows ==> ResultOk(s, c)
    ensures forall d | Cancels(s, d, c) ::
              CancelOk(s, d) && s.cancels[d].verb.Nack? && d.tag == s.sent[c].tag && CancelCalm(s, c, d, h)
  {
    assert c in s.sent ==> LineOk(s, c);
    if HasMessage(s, c) {
      assert MessageOk(s, s.sent[c].tag);
    }
    forall d | Cancels(s, d, c)
      ensures CancelOk(s, d) && s.cancels[d].verb.Nack? && d.tag == s.sent[c].tag && CancelCalm(s, c, d, h)
    {
      assert CancelOk(s, d);
    }
  }

  lemma CalmCrash(cfg: Config, s: State, w: Id, c: Id, h: int)
    requires Inv(cfg, s) && Calm(cfg, s, c, h) && w in s.workers
    ensures Calm(cfg, DoCrash(s, w), c, After(s, Crash(w), c, h))
  {
    var s' := DoCrash(s, w);
    if Orderly(s, c) {
      Known(cfg, s, c, h);
      forall d | Cancels(s', d, c) ensures CancelCalm(s', c, d, After(s, Crash(w), c, h)) {
        assert Cancels(s, d, c);
      }
    }
  }

  lemma CalmCancelOwn(cfg: Config, s: State, w: Id, c: Id, verb: Verb, h: int)
    requires Inv(cfg, s) && Calm(cfg, s, c, h) && CancelCan(s, Cancel(w, c, verb)) && Orderly(s, c)
    ensures Calm(cfg, DoCancel(s, w, c, verb), c, h)
  {
    var s' := DoCancel(s, w, c, verb);
    assert WorkerOk(cfg, s, w) && RunsOk(s, w, c) && MessageOk(s, s.workers[w].running[c]);
    Known(cfg, s, c, h);
    forall d | Cancels(s', d, c) ensures CancelCalm(s', c, d, h) {
      assert Cancels(s, d, c) || d == DeliveryOf(s, s.workers[w].running[c]);
    }
  }

  lemma CalmCancel(cfg: Config, s: State, w: Id, id: Id, verb: Verb, c: Id, h: int)
    requires Inv(cfg, s) && Calm(cfg, s, c, h) && CancelCan(s, Cancel(w, id, verb))
    ensures Calm(cfg, DoCancel(s, w, id, verb), c, h)
  {
    if id != c {
      assert WorkerOk(cfg, s, w) && RunsOk(s, w, id) && MessageOk(s, s.workers[w].running[id]);
      CalmAside(cfg, s, DoCancel(s, w, id, verb), c, h);
    } else if Orderly(s, c) {
      CalmCancelOwn(cfg, s, w, c, verb, h);
    }
  }

  lemma CalmCancelRead(cfg: Config, s: State, d: Delivery, c: Id, h: int)
    requires Inv(cfg, s) && Calm(cfg, s, c, h) && CancelCan(s, CancelRead(d))
    ensures Calm(cfg, DoCancelRead(s, d), c, h)
  {
    var s' := DoCancelRead(s, d);
    KeepCancelRead(cfg, s, d);
    if Orderly(s, c) {
      Known(cfg, s, c, h);
      forall e ensures Cancels(s', e, c) <==> Cancels(s, e, c) {
      }
      forall e | Cancels(s', e, c) ensures CancelCalm(s', c, e, h) {
        assert Cancels(s, e, c) && CancelCalm(s, c, e, h);
      }
    }
  }

  lemma CalmCancelWrite(cfg: Config, s: State, d: Delivery, c: Id, h: int)
    requires Inv(cfg, s) && Calm(cfg, s, c, h) && CancelCan(s, CancelWrite(d))
    ensures Calm(cfg, DoCancelWrite(s, d), c, After(s, CancelWrite(d), c, h))
  {
    if s.cancels[d].id != c {
      CalmAside(cfg, s, DoCancelWrite(s, d), c, h);
    } else if Orderly(DoCancelWrite(s, d), c) {
      CalmWriteOwn(cfg, s, d, c, h);
    }
  }

  lemma CalmWriteOwn(cfg: Config, s: State, d: Delivery, c: Id, h: int)
    requires Inv(cfg, s) && Calm(cfg, s, c, h) && Cancels(s, d, c) && CancelCan(s, CancelWrite(d))
    requires Orderly(DoCancelWrite(s, d), c)
    ensures Calm(cfg, DoCancelWrite(s, d), c, After(s, CancelWrite(d), c, h))
  {
    var s' := DoCancelWrite(s, d);
    Known(cfg, s, c, h);
    forall e ensures Cancels(s', e, c) <==> Cancels(s, e, c) {
    }
    forall e | Cancels(s', e, c) ensures CancelCalm(s', c, e, After(s, CancelWrite(d), c, h)) {
      assert Cancels(s, e, c) && CancelCalm(s, c, e, h);
    }
  }

  /** Nothing here looks at the children index, the ids picked, the workers or the waiting sets. */
  lemma CalmHistory(cfg: Config, s: State, s': State, c: Id, h: int)
    requires Calm(cfg, s, c, h)
    requires s' == s.(children := s'.children, used := s'.used, workers := s'.workers, leaked := s'.leaked)
    ensures Calm(cfg, s', c, h)
  {
    if Orderly(s, c) {
      forall e | Cancels(s', e, c) ensures CancelCalm(s', c, e, h) {
        assert Cancels(s, e, c);
        assert CancelCalm(s, c, e, h);
      }
    }
  }

  lemma CalmAtBroker(cfg: Config, s: State, d: Delivery, c: Id, h: int)
    requires Inv(cfg, s) && Calm(cfg, s, c, h) && CancelCan(s, CancelSettle(d))
    ensures Calm(cfg, AtBroker(s, d), c, After(s, CancelSettle(d), c, h))
  {
    if s.cancels[d].id != c {
      assert CancelOk(s, d) && LineOk(s, s.cancels[d].id) && (c in s.sent ==> LineOk(s, c));
      CalmAside(cfg, s, AtBroker(s, d), c, h);
    } else if Orderly(s, c) {
      CalmSettleOwn(cfg, s, d, c, h);
    }
  }

  lemma SettleBesides(cfg: Config, s: State, d: Delivery)
    requires d in s.cancels
    ensures var s' := DoCancelSettle(cfg, s, d);
            s' == AtBroker(s, d).(children := s'.children, used := s'.used, workers := s'.workers, leaked := s'.leaked)
  {
  }

  lemma CalmCancelSettle(cfg: Config, s: State, d: Delivery, c: Id, h: int)
    requires Inv(cfg, s) && Calm(cfg, s, c, h) && CancelCan(s, CancelSettle(d))
    ensures Calm(cfg, DoCancelSettle(cfg, s, d), c, After(s, CancelSettle(d), c, h))
  {
    CalmAtBroker(cfg, s, d, c, h);
    SettleBesides(cfg, s, d);
    CalmHistory(cfg, AtBroker(s, d), DoCancelSettle(cfg, s, d), c, After(s, CancelSettle(d), c, h));
  }

  lemma CalmSettleOwn(cfg: Config, s: State, d: Delivery, c: Id, h: int)
    requires Inv(cfg, s) && Calm(cfg, s, c, h) && Orderly(s, c) && Cancels(s, d, c)
    requires CancelCan(s, CancelSettle(d))
    ensures Calm(cfg, AtBroker(s, d), c, After(s, CancelSettle(d), c, h))
  {
    var s' := AtBroker(s, d);
    Known(cfg, s, c, h);
    assert CancelCalm(s, c, d, h) && (Ours(s, d) ==> MessageOk(s, d.tag));
    forall e | Cancels(s', e, c) ensures CancelCalm(s', c, e, After(s, CancelSettle(d), c, h)) {
      assert Cancels(s, e, c) && CancelCalm(s, c, e, h);
    }
  }

  lemma CalmCancelLand(cfg: Config, s: State, d: Delivery, c: Id, h: int)
    requires Inv(cfg, s) && Calm(cfg, s, c, h) && CancelCan(s, CancelLand(d))
    ensures Calm(cfg, DoCancelLand(s, d), c, h)
  {
    if s.cancels[d].id != c {
      CalmAside(cfg, s, DoCancelLand(s, d), c, h);
    }
  }

  /** A delivery that ended is acknowledged, or a paused one given back. */
  lemma CalmSettle(cfg: Config, s: State, m: Tag, asked: seq<Verb>, c: Id, h: int)
    requires Inv(cfg, s) && Calm(cfg, s, c, h) && OnWorker(s, m)
    requires || (Effect(asked) == Some(Ack) && s.msgs[m].task.Finished?)
             || (Effect(asked) == Some(Nack) && s.msgs[m].task.Pausing?)
    ensures Calm(cfg, DoSettle(s, m, asked), c, h)
  {
    var s' := DoSettle(s, m, asked);
    assert MessageOk(s, m) && (c in s.sent ==> LineOk(s, c));
    if s.msgs[m].req.id != c {
      CalmAside(cfg, s, s', c, h);
    } else if Orderly(s, c) {
      Known(cfg, s, c, h);
      forall e | Cancels(s', e, c) ensures CancelCalm(s', c, e, h) {
        assert Cancels(s, e, c) && CancelCalm(s, c, e, h);
      }
    }
  }

  /** A fatal error gives the message back. */
  lemma CalmFatal(cfg: Config, s: State, m: Tag, c: Id, h: int)
    requires Inv(cfg, s) && Calm(cfg, s, c, h) && DeliveryCan(s, Fatal(m))
    ensures Calm(cfg, DoFatal(s, m), c, After(s, Fatal(m), c, h))
  {
    var s' := DoFatal(s, m);
    assert MessageOk(s, m) && (c in s.sent ==> LineOk(s, c));
    if s.msgs[m].req.id != c {
      FatalAside(cfg, s, m, c);
      CalmAside(cfg, s, s', c, h);
    } else if Orderly(s, c) {
      Known(cfg, s, c, h);
      forall e | Cancels(s', e, c) ensures CancelCalm(s', c, e, After(s, Fatal(m), c, h)) {
        assert Cancels(s, e, c) && CancelCalm(s, c, e, h);
      }
    }
  }

  lemma FatalAside(cfg: Config, s: State, m: Tag, c: Id)
    requires Inv(cfg, s) && OnWorker(s, m) && !IsFor(s, m, c)
    ensures Aside(s, DoFatal(s, m), c)
  {
    OtherMessage(cfg, s, m, c);
    assert MessageOk(s, m);
  }

  lemma CalmStoreRoot(cfg: Config, s: State, d: Id, c: Id, h: int)
    requires Inv(cfg, s) && Calm(cfg, s, c, h) && d !in s.used
    ensures Calm(cfg, DoStoreRoot(s, d), c, h)
  {
    var s' := DoStoreRoot(s, d);
    assert c in s.sent ==> LineOk(s, c);
    if c != d {
      CalmAside(cfg, s, s', c, h);
    } else if Orderly(s, c) {
      Known(cfg, s, c, h);
      forall e ensures !Cancels(s', e, c) {
        assert Cancels(s', e, c) ==> Cancels(s, e, c);
      }
    }
  }

  lemma CalmPublish(cfg: Config, s: State, req: Request, c: Id, h: int)
    requires Inv(cfg, s) && Calm(cfg, s, c, h) && req.id in s.stored && req.id !in s.sent
    ensures Calm(cfg, Publish(s, req), c, h)
  {
    var s' := Publish(s, req);
    FreshTag(cfg, s);
    assert c in s.sent ==> LineOk(s, c);
    if c != req.id {
      CalmAside(cfg, s, s', c, h);
    } else if Orderly(s, c) {
      Known(cfg, s, c, h);
      forall e ensures !Cancels(s', e, c) {
        assert Cancels(s', e, c) ==> Cancels(s, e, c);
      }
    }
  }

  lemma CalmDeliver(cfg: Config, s: State, w: Id, m: Tag, c: Id, h: int)
    requires Inv(cfg, s) && Calm(cfg, s, c, h)
    requires Consumes(s, w) && IsQueued(s, m)
    ensures Calm(cfg, DoDeliver(s, w, m), c, h)
  {
    var s' := DoDeliver(s, w, m);
    assert MessageOk(s, m) && (c in s.sent ==> LineOk(s, c));
    if s.msgs[m].req.id != c {
      CalmAside(cfg, s, s', c, h);
    } else if Orderly(s, c) {
      Known(cfg, s, c, h);
      forall e | Cancels(s', e, c) ensures CancelCalm(s', c, e, h) {
        assert Cancels(s, e, c) && CancelCalm(s, c, e, h) && CancelOk(s, e);
      }
    }
  }

  lemma CalmStart(cfg: Config, s: State, m: Tag, late: bool, unknown: bool, h: int)
    requires Inv(cfg, s) && Unjudged(s, m)
    requires Judge(cfg, s.rows, s.msgs[m].req, late, unknown).Start?
    requires Calm(cfg, s, s.msgs[m].req.id, h)
    ensures Calm(cfg, DoGate(cfg, s, m, late, unknown), s.msgs[m].req.id, h)
  {
    var c, s' := s.msgs[m].req.id, DoGate(cfg, s, m, late, unknown);
    if Orderly(s, c) {
      assert MessageOk(s, m);
      Known(cfg, s, c, h);
      forall e | Cancels(s', e, c) ensures CancelCalm(s', c, e, h) {
        assert Cancels(s, e, c) && CancelCalm(s, c, e, h);
      }
    }
  }

  lemma CalmDiscard(cfg: Config, s: State, m: Tag, late: bool, unknown: bool, h: int)
    requires Inv(cfg, s) && Unjudged(s, m)
    requires !Judge(cfg, s.rows, s.msgs[m].req, late, unknown).Start?
    requires Calm(cfg, s, s.msgs[m].req.id, h)
    ensures Calm(cfg, DoGate(cfg, s, m, late, unknown), s.msgs[m].req.id, h)
  {
    var c, s' := s.msgs[m].req.id, DoGate(cfg, s, m, late, unknown);
    if Orderly(s, c) {
      assert MessageOk(s, m);
      Known(cfg, s, c, h);
      forall e | Cancels(s', e, c) ensures CancelCalm(s', c, e, h) {
        assert Cancels(s, e, c) && CancelCalm(s, c, e, h);
      }
    }
  }

  lemma StartAside(cfg: Config, s: State, m: Tag, late: bool, unknown: bool, c: Id)
    requires OnWorker(s, m) && !IsFor(s, m, c) && (c in s.sent ==> s.sent[c].tag != m)
    requires Judge(cfg, s.rows, s.msgs[m].req, late, unknown).Start?
    ensures Aside(s, DoGate(cfg, s, m, late, unknown), c)
  {
  }

  lemma DiscardAside(cfg: Config, s: State, m: Tag, late: bool, unknown: bool, c: Id)
    requires OnWorker(s, m) && !IsFor(s, m, c) && (c in s.sent ==> s.sent[c].tag != m)
    requires !Judge(cfg, s.rows, s.msgs[m].req, late, unknown).Start?
    ensures Aside(s, DoGate(cfg, s, m, late, unknown), c)
  {
  }

  lemma CalmGateOther(cfg: Config, s: State, m: Tag, late: bool, unknown: bool, c: Id, h: int)
    requires Inv(cfg, s) && Calm(cfg, s, c, h) && OnWorker(s, m) && !IsFor(s, m, c)
    ensures Calm(cfg, DoGate(cfg, s, m, late, unknown), c, h)
  {
    OtherMessage(cfg, s, m, c);
    if Judge(cfg, s.rows, s.msgs[m].req, late, unknown).Start? {
      StartAside(cfg, s, m, late, unknown, c);
    } else {
      DiscardAside(cfg, s, m, late, unknown, c);
    }
    CalmAside(cfg, s, DoGate(cfg, s, m, late, unknown), c, h);
  }

  lemma CalmGate(cfg: Config, s: State, m: Tag, late: bool, unknown: bool, c: Id, h: int)
    requires Inv(cfg, s) && Calm(cfg, s, c, h) && Unjudged(s, m)
    ensures Calm(cfg, DoGate(cfg, s, m, late, unknown), c, h)
  {
    if s.msgs[m].req.id != c {
      CalmGateOther(cfg, s, m, late, unknown, c, h);
    } else if Judge(cfg, s.rows, s.msgs[m].req, late, unknown).Start? {
      CalmStart(cfg, s, m, late, unknown, h);
    } else {
      CalmDiscard(cfg, s, m, late, unknown, h);
    }
  }

  /** A handler's dependencies and submissions change, but not whether it waits. */
  lemma CalmTask(cfg: Config, s: State, m: Tag, t: Task, c: Id, h: int)
    requires Inv(cfg, s) && Calm(cfg, s, c, h) && OnWorker(s, m) && Busy(s, m)
    requires t.Running? && t.worker == s.msgs[m].task.worker && t.local == s.msgs[m].task.local
    requires t.deps == {} <==> s.msgs[m].task.deps == {}
    ensures Calm(cfg, s.(msgs := With(s.msgs, m, t)), c, h)
  {
    var s' := s.(msgs := With(s.msgs, m, t));
    assert MessageOk(s, m) && (c in s.sent ==> LineOk(s, c));
    if s.msgs[m].req.id != c {
      CalmAside(cfg, s, s', c, h);
    } else if Orderly(s, c) {
      Known(cfg, s, c, h);
      forall e | Cancels(s', e, c) ensures CancelCalm(s', c, e, h) {
        assert Cancels(s, e, c) && CancelCalm(s, c, e, h);
      }
    }
  }

  /** A handler begins to wait: it was active, and its result is suspended if it said RUNNING. */
  lemma CalmSleeps(cfg: Config, s: State, m: Tag, t: Task, d: Id, c: Id, h: int)
    requires Inv(cfg, s) && Calm(cfg, s, c, h) && OnWorker(s, m) && IsActive(s, m)
    requires SameTask(s, m, t)
    ensures Calm(cfg, EnterRun(cfg, s, m, t, d), c, h)
  {
    var s' := EnterRun(cfg, s, m, t, d);
    assert t.deps + {d} == {d};
    assert MessageOk(s, m) && (c in s.sent ==> LineOk(s, c));
    if s.msgs[m].req.id != c {
      CalmAside(cfg, s, s', c, h);
    } else if Orderly(s, c) {
      Known(cfg, s, c, h);
      forall e | Cancels(s', e, c) ensures CancelCalm(s', c, e, h) {
        assert Cancels(s, e, c) && CancelCalm(s, c, e, h);
      }
    }
  }

  lemma CalmWakes(cfg: Config, s: State, m: Tag, t: Task, d: Id, c: Id, h: int)
    requires Inv(cfg, s) && Calm(cfg, s, c, h) && OnWorker(s, m) && IsWaiting(s, m)
    requires SameTask(s, m, t) && t.deps - {d} == {}
    ensures Calm(cfg, LeaveRun(cfg, s, m, t, d), c, h)
  {
    var s' := LeaveRun(cfg, s, m, t, d);
    assert MessageOk(s, m) && (c in s.sent ==> LineOk(s, c));
    if s.msgs[m].req.id != c {
      CalmAside(cfg, s, s', c, h);
    } else if Orderly(s, c) {
      Known(cfg, s, c, h);
      forall e | Cancels(s', e, c) ensures CancelCalm(s', c, e, h) {
        assert Cancels(s, e, c) && CancelCalm(s, c, e, h);
      }
    }
  }

  lemma CalmEnterRun(cfg: Config, s: State, m: Tag, t: Task, d: Id, c: Id, h: int)
    requires Inv(cfg, s) && Calm(cfg, s, c, h) && OnWorker(s, m) && Busy(s, m)
    requires SameTask(s, m, t)
    ensures Calm(cfg, EnterRun(cfg, s, m, t, d), c, h)
  {
    if t.deps == {} {
      CalmSleeps(cfg, s, m, t, d, c, h);
    } else {
      CalmTask(cfg, s, m, t.(deps := t.deps + {d}), c, h);
    }
  }

  lemma CalmLeaveRun(cfg: Config, s: State, m: Tag, t: Task, d: Id, c: Id, h: int)
    requires Inv(cfg, s) && Calm(cfg, s, c, h) && OnWorker(s, m) && Busy(s, m)
    requires SameTask(s, m, t) && d in t.deps
    ensures Calm(cfg, LeaveRun(cfg, s, m, t, d), c, h)
  {
    if t.deps - {d} == {} {
      CalmWakes(cfg, s, m, t, d, c, h);
    } else {
      CalmTask(cfg, s, m, t.(deps := t.deps - {d}), c, h);
    }
  }

  lemma CalmStore(cfg: Config, s: State, m: Tag, d: Id, c: Id, h: int)
    requires Inv(cfg, s) && Calm(cfg, s, c, h) && OnWorker(s, m) && SubmitsAt(s, m, d, Indexed)
    ensures Calm(cfg, DoStore(s, m, d), c, h)
  {
    var t := s.msgs[m].task.(subs := s.msgs[m].task.subs[d := Stored]);
    var s1, s' := s.(msgs := With(s.msgs, m, t)), DoStore(s, m, d);
    assert MessageOk(s, m) && SubmissionOk(s, m, d) && (c in s.sent ==> LineOk(s, c));
    KeepStore(cfg, s, m, d);
    CalmTask(cfg, s, m, t, c, h);
    if c != d {
      assert s'.rows == s.rows[d := Submitted(Some(s.msgs[m].req.id))] && s'.stored == s.stored + {d};
      CalmStored(cfg, s, s1, s', c, h);
    } else if Orderly(s, c) {
      Known(cfg, s, c, h);
      forall e ensures !Cancels(s', e, c) {
        assert Cancels(s', e, c) ==> Cancels(s, e, c);
      }
    }
  }

  /** Another result is stored after a handler moved on. */
  lemma CalmStored(cfg: Config, s: State, s1: State, s': State, c: Id, h: int)
    requires Inv(cfg, s) && Calm(cfg, s1, c, h) && s1 == s.(msgs := s1.msgs)
    requires s' == s1.(rows := s'.rows, stored := s'.stored)
    requires (c in s'.rows <==> c in s.rows) && (c in s.rows ==> s'.rows[c] == s.rows[c])
    requires c in s'.stored <==> c in s.stored
    ensures Calm(cfg, s', c, h)
  {
    if Orderly(s, c) {
      forall e | Cancels(s', e, c) ensures CancelCalm(s', c, e, h) {
        assert Cancels(s1, e, c) && CancelOk(s, e);
        assert CancelCalm(s1, c, e, h);
      }
    }
  }

  lemma CalmSend(cfg: Config, s: State, m: Tag, d: Id, c: Id, h: int)
    requires Inv(cfg, s) && Calm(cfg, s, c, h) && OnWorker(s, m) && SubmitsAt(s, m, d, Stored)
    ensures Calm(cfg, DoSend(s, m, d), c, h)
  {
    var s' := DoSend(s, m, d);
    FreshTag(cfg, s);
    assert MessageOk(s, m) && SubmissionOk(s, m, d) && (c in s.sent ==> LineOk(s, c));
    if c == d {
      if Orderly(s, c) {
        Known(cfg, s, c, h);
        forall e ensures !Cancels(s', e, c) {
          assert Cancels(s', e, c) ==> Cancels(s, e, c);
        }
      }
    } else if s.msgs[m].req.id != c {
      CalmAside(cfg, s, s', c, h);
    } else if Orderly(s, c) {
      Known(cfg, s, c, h);
      forall e | Cancels(s', e, c) ensures CancelCalm(s', c, e, h) {
        assert Cancels(s, e, c) && CancelCalm(s, c, e, h);
      }
    }
  }

  lemma CalmIndex(cfg: Config, s: State, m: Tag, d: Id, c: Id, h: int)
    requires Inv(cfg, s) && Calm(cfg, s, c, h) && OnWorker(s, m) && Submits(s, m, d)
    ensures Calm(cfg, DoIndex(s, m, d), c, h)
  {
    CalmTask(cfg, s, m, s.msgs[m].task.(subs := s.msgs[m].task.subs[d := Indexed]), c, h);
    CalmHistory(cfg, s.(msgs := DoIndex(s, m, d).msgs), DoIndex(s, m, d), c, h);
  }

  lemma CalmSpawn(cfg: Config, s: State, m: Tag, d: Id, awaited: bool, c: Id, h: int)
    requires Inv(cfg, s) && Calm(cfg, s, c, h) && OnWorker(s, m) && Busy(s, m)
    ensures Calm(cfg, DoSpawn(cfg, s, m, d, awaited), c, h)
  {
    var t := s.msgs[m].task.(subs := s.msgs[m].task.subs[d := Chosen]);
    var s1 := if awaited then EnterRun(cfg, s, m, t, d) else s.(msgs := With(s.msgs, m, t));
    if awaited {
      CalmEnterRun(cfg, s, m, t, d, c, h);
    } else {
      CalmTask(cfg, s, m, t, c, h);
    }
    CalmHistory(cfg, s1, DoSpawn(cfg, s, m, d, awaited), c, h);
  }

  lemma CalmSubmitFails(cfg: Config, s: State, m: Tag, d: Id, c: Id, h: int)
    requires Inv(cfg, s) && Calm(cfg, s, c, h) && OnWorker(s, m) && Submits(s, m, d)
    ensures Calm(cfg, DoSubmitFails(cfg, s, m, d), c, h)
  {
    var t := s.msgs[m].task.(subs := s.msgs[m].task.subs - {d});
    if d in t.deps {
      CalmLeaveRun(cfg, s, m, t, d, c, h);
    } else {
      CalmTask(cfg, s, m, t, c, h);
    }
  }

  /** The step is about the end of one handler. */
  ghost predicate EndsOne(s: State, s': State, m: Tag) {
    && m in s.msgs && m in s'.msgs && s'.msgs == s.msgs[m := s'.msgs[m]]
    && s' == s.(msgs := s'.msgs, rows := s'.rows, workers := s'.workers, unheld := s'.unheld, leaked := s'.leaked)
    && var id := s.msgs[m].req.id;
    && (s'.rows == s.rows || (id in s'.rows && s'.rows == s.rows[id := s'.rows[id]]))
    && s.unheld <= s'.unheld <= s.unheld + {id}
  }

  lemma FinishIsOne(s: State, m: Tag, outcome: ResultState)
    requires OnWorker(s, m) && Busy(s, m)
    ensures EndsOne(s, DoFinish(s, m, outcome), m) && DoFinish(s, m, outcome).rows == s.rows
  {
  }

  lemma PauseIsOne(s: State, m: Tag)
    requires OnWorker(s, m) && Busy(s, m)
    ensures EndsOne(s, DoPause(s, m), m)
  {
  }

  lemma WriteFailsIsOne(s: State, m: Tag, counted: bool)
    requires OnWorker(s, m) && s.msgs[m].task.Ended?
    ensures EndsOne(s, DoWriteFails(s, m, counted), m) && DoWriteFails(s, m, counted).rows == s.rows
  {
  }

  lemma CompletionIsOne(cfg: Config, s: State, m: Tag)
    requires EndingCan(s, Complete(m))
    ensures EndsOne(s, DoComplete(cfg, s, m), m) && DoComplete(cfg, s, m).rows == s.rows
    ensures EndingCan(s, CompleteFails(m)) ==>
              EndsOne(s, DoCompleteFails(s, m), m) && DoCompleteFails(s, m).rows == s.rows
  {
  }

  lemma EndingIsOne(cfg: Config, s: State, a: Action)
    requires EndingCan(s, a)
    ensures EndsOne(s, ApplyEnding(cfg, s, a), a.m)
  {
    if a.Finish? {
      FinishIsOne(s, a.m, a.outcome);
    } else if a.Pause? {
      PauseIsOne(s, a.m);
    } else if a.WriteFails? {
      WriteFailsIsOne(s, a.m, a.counted);
    } else if !a.Write? {
      CompletionIsOne(cfg, s, a.m);
    }
  }

  lemma EndAside(cfg: Config, s: State, m: Tag, s': State, c: Id)
    requires Inv(cfg, s) && EndsOne(s, s', m) && !IsFor(s, m, c)
    ensures Aside(s, s', c)
  {
    OtherMessage(cfg, s, m, c);
  }

  lemma CalmOwnEnd(cfg: Config, s: State, a: Action, c: Id, h: int)
    requires Inv(cfg, s) && Calm(cfg, s, c, h) && EndingCan(s, a) && IsFor(s, a.m, c)
    ensures Calm(cfg, ApplyEnding(cfg, s, a), c, h)
  {
    if Orderly(s, c) {
      if a.Finish? {
        CalmFinish(cfg, s, a.m, a.outcome, c, h);
      } else if a.Pause? {
        CalmPause(cfg, s, a.m, c, h);
      } else if a.Write? {
        CalmWrite(cfg, s, a.m, c, h);
      } else if a.WriteFails? {
        CalmWriteFails(cfg, s, a.m, a.counted, c, h);
      } else if a.Complete? {
        CalmComplete(cfg, s, a.m, c, h);
      } else {
        CalmCompleteFails(cfg, s, a.m, c, h);
      }
    }
  }

  /** Nothing is written, for the holder is gone. */
  lemma CalmUnwritten(cfg: Config, s: State, m: Tag, c: Id, h: int)
    requires Inv(cfg, s) && Calm(cfg, s, c, h) && Orderly(s, c) && IsFor(s, m, c) && OnWorker(s, m) && !Kept(s, m)
    requires Busy(s, m) || (s.msgs[m].task.Ended? && s.msgs[m].task.outcome.SUCCESS?)
    ensures Calm(cfg, Unwritten(s, m), c, h)
  {
    var s' := Unwritten(s, m);
    Known(cfg, s, c, h);
    assert MessageOk(s, m);
    forall e | Cancels(s', e, c) ensures CancelCalm(s', c, e, h) {
      assert Cancels(s, e, c) && CancelCalm(s, c, e, h);
    }
  }

  lemma CalmFinish(cfg: Config, s: State, m: Tag, outcome: ResultState, c: Id, h: int)
    requires Inv(cfg, s) && Calm(cfg, s, c, h) && Orderly(s, c) && IsFor(s, m, c) && OnWorker(s, m) && Busy(s, m)
    ensures Calm(cfg, DoFinish(s, m, outcome), c, h)
  {
    if Kept(s, m) || outcome.INVALID? {
      var s' := DoFinish(s, m, outcome);
      Known(cfg, s, c, h);
      assert MessageOk(s, m);
      forall e | Cancels(s', e, c) ensures CancelCalm(s', c, e, h) {
        assert Cancels(s, e, c) && CancelCalm(s, c, e, h);
      }
    } else {
      CalmUnwritten(cfg, s, m, c, h);
    }
  }

  lemma CalmPause(cfg: Config, s: State, m: Tag, c: Id, h: int)
    requires Inv(cfg, s) && Calm(cfg, s, c, h) && Orderly(s, c) && IsFor(s, m, c) && OnWorker(s, m) && IsActive(s, m)
    ensures Calm(cfg, DoPause(s, m), c, h)
  {
    if Kept(s, m) {
      var s' := DoPause(s, m);
      Known(cfg, s, c, h);
      assert MessageOk(s, m);
      forall e | Cancels(s', e, c) ensures CancelCalm(s', c, e, h) {
        assert Cancels(s, e, c) && CancelCalm(s, c, e, h);
      }
    } else {
      CalmUnwritten(cfg, s, m, c, h);
    }
  }

  lemma CalmWrite(cfg: Config, s: State, m: Tag, c: Id, h: int)
    requires Inv(cfg, s) && Calm(cfg, s, c, h) && Orderly(s, c) && IsFor(s, m, c) && EndingCan(s, Write(m))
    ensures Calm(cfg, DoWrite(s, m), c, h)
  {
    var s' := DoWrite(s, m);
    Known(cfg, s, c, h);
    assert MessageOk(s, m);
    forall e | Cancels(s', e, c) ensures CancelCalm(s', c, e, h) {
      assert Cancels(s, e, c) && CancelCalm(s, c, e, h);
    }
  }

  lemma CalmWriteFails(cfg: Config, s: State, m: Tag, counted: bool, c: Id, h: int)
    requires Inv(cfg, s) && Calm(cfg, s, c, h) && Orderly(s, c) && IsFor(s, m, c)
    requires EndingCan(s, WriteFails(m, counted))
    ensures Calm(cfg, DoWriteFails(s, m, counted), c, h)
  {
    if Kept(s, m) {
      var s' := DoWriteFails(s, m, counted);
      Known(cfg, s, c, h);
      assert MessageOk(s, m);
      forall e | Cancels(s', e, c) ensures CancelCalm(s', c, e, h) {
        assert Cancels(s, e, c) && CancelCalm(s, c, e, h);
      }
    } else {
      CalmUnwritten(cfg, s, m, c, h);
    }
  }

  lemma CalmComplete(cfg: Config, s: State, m: Tag, c: Id, h: int)
    requires Inv(cfg, s) && Calm(cfg, s, c, h) && Orderly(s, c) && IsFor(s, m, c) && EndingCan(s, Complete(m))
    ensures Calm(cfg, DoComplete(cfg, s, m), c, h)
  {
    var s' := DoComplete(cfg, s, m);
    Known(cfg, s, c, h);
    assert MessageOk(s, m);
    forall e | Cancels(s', e, c) ensures CancelCalm(s', c, e, h) {
      assert Cancels(s, e, c) && CancelCalm(s, c, e, h);
    }
  }

  lemma CalmCompleteFails(cfg: Config, s: State, m: Tag, c: Id, h: int)
    requires Inv(cfg, s) && Calm(cfg, s, c, h) && Orderly(s, c) && IsFor(s, m, c) && EndingCan(s, CompleteFails(m))
    ensures Calm(cfg, DoCompleteFails(s, m), c, h)
  {
    var s' := DoCompleteFails(s, m);
    Known(cfg, s, c, h);
    assert MessageOk(s, m);
    forall e | Cancels(s', e, c) ensures CancelCalm(s', c, e, h) {
      assert Cancels(s, e, c) && CancelCalm(s, c, e, h);
    }
  }

  lemma CalmEnding(cfg: Config, s: State, a: Action, c: Id, h: int)
    requires Inv(cfg, s) && Calm(cfg, s, c, h) && EndingCan(s, a)
    ensures Calm(cfg, ApplyEnding(cfg, s, a), c, h)
  {
    if IsFor(s, a.m, c) {
      CalmOwnEnd(cfg, s, a, c, h);
    } else {
      EndingIsOne(cfg, s, a);
      EndAside(cfg, s, a.m, ApplyEnding(cfg, s, a), c);
      CalmAside(cfg, s, ApplyEnding(cfg, s, a), c, h);
    }
  }

  lemma RevokeAside(s: State, id: Id, force: bool, c: Id)
    requires id != c && (force || !RowOrNew(s.rows, id).Done())
    ensures Aside(s, DoRevoke(s, id, force), c)
  {
  }

  lemma CalmRevoke(cfg: Config, s: State, id: Id, force: bool, c: Id, h: int)
    requires Inv(cfg, s) && Calm(cfg, s, c, h)
    ensures Calm(cfg, DoRevoke(s, id, force), c, h)
  {
    if !force && RowOrNew(s.rows, id).Done() {
      assert DoRevoke(s, id, force) == s;
    } else if id == c {
      assert c in DoRevoke(s, id, force).revoking;
    } else {
      RevokeAside(s, id, force, c);
      CalmAside(cfg, s, DoRevoke(s, id, force), c, h);
    }
  }

  // ----- every step, every run

  lemma CalmProcess(cfg: Config, s: State, a: Action, c: Id, h: int)
    requires Inv(cfg, s) && Calm(cfg, s, c, h) && ProcessCan(s, a)
    ensures Calm(cfg, ApplyProcess(cfg, s, a), c, After(s, a, c, h))
  {
    if a.Crash? {
      CalmCrash(cfg, s, a.w, c, h);
    } else {
      CalmAside(cfg, s, ApplyProcess(cfg, s, a), c, h);
    }
  }

  lemma CalmClient(cfg: Config, s: State, a: Action, c: Id, h: int)
    requires Inv(cfg, s) && Calm(cfg, s, c, h) && ClientCan(s, a)
    ensures Calm(cfg, ApplyClient(s, a), c, h)
  {
    match a
    case StoreRoot(d) => CalmStoreRoot(cfg, s, d, c, h);
    case SendRoot(d) => CalmPublish(cfg, s, Request(d, []), c, h);
    case Revoke(id, force) => CalmRevoke(cfg, s, id, force, c, h);
  }

  lemma CalmDelivery(cfg: Config, s: State, a: Action, c: Id, h: int)
    requires Inv(cfg, s) && Calm(cfg, s, c, h) && DeliveryCan(s, a)
    ensures Calm(cfg, ApplyDelivery(cfg, s, a), c, After(s, a, c, h))
  {
    match a
    case Deliver(w, m) => CalmDeliver(cfg, s, w, m, c, h);
    case Gate(m, late, unknown) => CalmGate(cfg, s, m, late, unknown, c, h);
    case Fatal(m) => CalmFatal(cfg, s, m, c, h);
    case Requeue(m) => CalmSettle(cfg, s, m, [Nack, Ack], c, h);
    case Acknowledge(m) => CalmSettle(cfg, s, m, [Ack], c, h);
  }

  lemma CalmHandler(cfg: Config, s: State, a: Action, c: Id, h: int)
    requires Inv(cfg, s) && Calm(cfg, s, c, h) && HandlerCan(s, a)
    ensures Calm(cfg, ApplyHandler(cfg, s, a), c, h)
  {
    match a
    case Spawn(m, d, awaited) => CalmSpawn(cfg, s, m, d, awaited, c, h);
    case Index(m, d) => CalmIndex(cfg, s, m, d, c, h);
    case Store(m, d) => CalmStore(cfg, s, m, d, c, h);
    case Send(m, d) => CalmSend(cfg, s, m, d, c, h);
    case SubmitFails(m, d) => CalmSubmitFails(cfg, s, m, d, c, h);
    case Release(m, d) => CalmLeaveRun(cfg, s, m, s.msgs[m].task, d, c, h);
  }

  lemma CalmCancels(cfg: Config, s: State, a: Action, c: Id, h: int)
    requires Inv(cfg, s) && Calm(cfg, s, c, h)
    requires CancelCan(s, a)
    ensures Calm(cfg, ApplyCancel(cfg, s, a), c, After(s, a, c, h))
  {
    match a
    case Cancel(w, id, verb) => CalmCancel(cfg, s, w, id, verb, c, h);
    case CancelRead(d) => CalmCancelRead(cfg, s, d, c, h);
    case CancelWrite(d) => CalmCancelWrite(cfg, s, d, c, h);
    case CancelSettle(d) => CalmCancelSettle(cfg, s, d, c, h);
    case CancelLand(d) => CalmCancelLand(cfg, s, d, c, h);
  }

  /** Steps of clients and handlers take no message away. */
  lemma SameBooks(s: State, a: Action, c: Id, h: int)
    requires OfClient(a) || OfHandler(a) || OfEnding(a)
    ensures After(s, a, c, h) == h
  {
  }

  lemma CalmStep(cfg: Config, s: State, a: Action, c: Id, h: int)
    requires Inv(cfg, s) && Calm(cfg, s, c, h) && Enabled(cfg, s, a)
    ensures Calm(cfg, Apply(cfg, s, a), c, After(s, a, c, h))
  {
    if OfProcess(a) {
      CalmProcess(cfg, s, a, c, h);
    } else if OfClient(a) {
      CalmClient(cfg, s, a, c, h);
      SameBooks(s, a, c, h);
    } else if OfDelivery(a) {
      CalmDelivery(cfg, s, a, c, h);
    } else if OfHandler(a) {
      CalmHandler(cfg, s, a, c, h);
      SameBooks(s, a, c, h);
    } else if OfEnding(a) {
      CalmEnding(cfg, s, a, c, h);
      SameBooks(s, a, c, h);
    } else {
      CalmCancels(cfg, s, a, c, h);
    }
  }

  lemma CalmInit(cfg: Config, c: Id)
    ensures Calm(cfg, Init, c, 0)
  {
    assert forall d :: !Cancels(Init, d, c);
  }

  /**
   How often the message of `c` was taken from a process on which its result said RUNNING, by crashes and by
   cancellations and fatal errors, and how often a cancellation answered such a start.
   */
  ghost function Crashes(tr: seq<State>, acts: seq<Action>, i: nat, c: Id): nat
    requires i <= |acts| && |tr| == |acts| + 1
  {
    if i == 0 then 0 else Crashes(tr, acts, i - 1, c) + if CrashOf(tr[i - 1], acts[i - 1], c) then 1 else 0
  }

  ghost function Drops(tr: seq<State>, acts: seq<Action>, i: nat, c: Id): nat
    requires i <= |acts| && |tr| == |acts| + 1
  {
    if i == 0 then 0 else Drops(tr, acts, i - 1, c) + if DropOf(tr[i - 1], acts[i - 1], c) then 1 else 0
  }

  ghost function Pardons(tr: seq<State>, acts: seq<Action>, i: nat, c: Id): nat
    requires i <= |acts| && |tr| == |acts| + 1
  {
    if i == 0 then 0 else Pardons(tr, acts, i - 1, c) + if PardonOf(tr[i - 1], acts[i - 1], c) then 1 else 0
  }

  /** The starts that nothing answered. */
  ghost function Unanswered(tr: seq<State>, acts: seq<Action>, i: nat, c: Id): int
    requires i <= |acts| && |tr| == |acts| + 1
  {
    Crashes(tr, acts, i, c) + Drops(tr, acts, i, c) - Pardons(tr, acts, i, c)
  }

  lemma UnansweredNext(tr: seq<State>, acts: seq<Action>, i: nat, c: Id)
    requires i < |acts| && |tr| == |acts| + 1
    ensures Unanswered(tr, acts, i + 1, c) == After(tr[i], acts[i], c, Unanswered(tr, acts, i, c))
  {
  }

  lemma {:induction false} RunCalm(cfg: Config, tr: seq<State>, acts: seq<Action>, i: nat, c: Id)
    requires IsRun(cfg, tr, acts) && i < |tr|
    ensures Inv(cfg, tr[i]) && Calm(cfg, tr[i], c, Unanswered(tr, acts, i, c))
  {
    RunInv(cfg, tr, acts, i);
    if i == 0 {
      CalmInit(cfg, c);
    } else {
      RunCalm(cfg, tr, acts, i - 1, c);
      assert RunStep(cfg, tr, acts, i - 1);
      CalmStep(cfg, tr[i - 1], acts[i - 1], c, Unanswered(tr, acts, i - 1, c));
      UnansweredNext(tr, acts, i - 1, c);
    }
  }
}
