/**
 What can go wrong between the steps of a cancellation, and when a handler's end can not be completed: one run
 for each of the exceptions that the theorems name.
 */
module Races {
  import opened Types
  import opened ResultModel
  import opened Settlement
  import opened WorkerModel
  import opened Lifecycle
  import opened LifecycleSafety
  import opened Progress
  import opened Saturation

  /** The only process holds the only message, that of the root `c`; a cancellation of it is at `stage`, if any. */
  ghost predicate At(s: State, m: Tag, t: Task, c: Id, row: Row, stage: Option<CancelStage>) {
    && s.workers.Keys == {0} && s.msgs.Keys == {m} && t.worker == 0
    && s.msgs[m].Held? && s.msgs[m].task == t && s.msgs[m].req == Request(c, [])
    && c in s.sent && s.sent[c].tag == m
    && c in s.rows && s.rows[c] == row
    && match stage
       case None =>
         && s.cancels == map[] && s.workers[0].consuming && s.workers[0].limit >= 1
         && c in s.workers[0].running && s.workers[0].running[c] == m
       case Some(at) =>
         && c !in s.workers[0].running && s.cancels.Keys == {DeliveryOf(s, m)}
         && s.cancels[DeliveryOf(s, m)] == Cancellation(0, c, Nack, at, false)
  }

  /** The message is back in the queue. */
  ghost predicate Back(s: State, m: Tag, c: Id, row: Row) {
    && m in s.msgs && s.msgs[m] == Queued(Request(c, []))
    && c in s.sent && s.sent[c].tag == m && c in s.rows && s.rows[c] == row
  }

  const New: Row := Submitted(None)
  const First: Row := New.Started(Some(0))

  /** The task of a handler that was just called. */
  function Called(row: Row): Task {
    Running(0, row, {}, map[])
  }

  predicate Mild(a: Action) {
    !a.Crash? && !a.Fatal? && !a.Pause? && !a.Revoke? && !a.WriteFails? && !a.CompleteFails?
  }

  /** A run without crash, error, pause or revocation. */
  ghost predicate IsMildRun(cfg: Config, tr: seq<State>, acts: seq<Action>) {
    IsRun(cfg, tr, acts) && forall a | a in acts :: Mild(a)
  }

  predicate SameNotes(s: State, s': State) {
    s'.revoking == s.revoking && s'.astray == s.astray
  }

  /** The run goes on with one action. */
  ghost predicate Longer(cfg: Config, tr: seq<State>, acts: seq<Action>, tr': seq<State>, acts': seq<Action>,
                         a: Action) {
    IsRun(cfg, tr', acts') && acts' == acts + [a] && tr <= tr' && |tr'| == |tr| + 1
  }

  // ----- steps

  lemma PostedRoot(cfg: Config) returns (tr: seq<State>, acts: seq<Action>, m: Tag, c: Id)
    requires cfg.HasRoom()
    ensures IsMildRun(cfg, tr, acts) && Uncancelled(acts) && Waiting(Last(tr), m, c, New) && Orderly(Last(tr), c)
  {
    tr, acts := [Init], [];
    tr, acts := Grow(cfg, tr, acts, Join(0));
    tr, acts := Grow(cfg, tr, acts, StoreRoot(0));
    tr, acts := Grow(cfg, tr, acts, SendRoot(0));
    m, c := 0, 0;
  }

  /** The only message is queued, and the only process consumes. */
  ghost predicate Waiting(s: State, m: Tag, c: Id, row: Row) {
    && Back(s, m, c, row) && s.msgs.Keys == {m} && s.workers.Keys == {0} && s.cancels == map[]
    && s.workers[0].consuming && s.workers[0].limit >= 1
  }

  lemma Delivering(cfg: Config, tr: seq<State>, acts: seq<Action>, m: Tag, c: Id, row: Row)
    returns (tr': seq<State>, acts': seq<Action>)
    requires IsRun(cfg, tr, acts) && Waiting(Last(tr), m, c, row)
    ensures Longer(cfg, tr, acts, tr', acts', Deliver(0, m)) && At(Last(tr'), m, Delivered(0), c, row, None)
    ensures SameNotes(Last(tr), Last(tr'))
  {
    assert Unacked(Last(tr), 0) == {};
    tr', acts' := Grow(cfg, tr, acts, Deliver(0, m));
  }

  lemma Starting(cfg: Config, tr: seq<State>, acts: seq<Action>, m: Tag, c: Id, row: Row, stage: Option<CancelStage>)
    returns (tr': seq<State>, acts': seq<Action>, row': Row)
    requires IsRun(cfg, tr, acts) && At(Last(tr), m, Delivered(0), c, row, stage)
    requires !row.Done() && row.starts <= row.stops + cfg.maxRetries
    ensures Longer(cfg, tr, acts, tr', acts', Gate(m, false, false)) && row' == row.Started(Some(0))
    ensures At(Last(tr'), m, Called(row'), c, row', stage)
    ensures SameNotes(Last(tr), Last(tr'))
  {
    StartIff(cfg, Last(tr).rows, Request(c, []), false, false);
    row' := row.Started(Some(0));
    tr', acts' := Grow(cfg, tr, acts, Gate(m, false, false));
  }

  /** The handler ends, and passes the test for its holder, or not. */
  lemma Finishing(cfg: Config, tr: seq<State>, acts: seq<Action>, m: Tag, t: Task, c: Id, row: Row,
                  stage: Option<CancelStage>, outcome: ResultState)
    returns (tr': seq<State>, acts': seq<Action>)
    requires IsRun(cfg, tr, acts) && At(Last(tr), m, t, c, row, stage) && outcome.Ready()
    requires t.Running? && t.deps == {} && (stage.Some? ==> !outcome.INVALID?)
    ensures Longer(cfg, tr, acts, tr', acts', Finish(m, outcome))
    ensures At(Last(tr'), m, if stage.None? then Ended(0, t.local, outcome, false) else Finished(0), c, row, stage)
    ensures SameNotes(Last(tr), Last(tr'))
  {
    tr', acts' := Grow(cfg, tr, acts, Finish(m, outcome));
  }

  lemma WritingEnd(cfg: Config, tr: seq<State>, acts: seq<Action>, m: Tag, t: Task, c: Id, row: Row,
                   stage: Option<CancelStage>)
    returns (tr': seq<State>, acts': seq<Action>, row': Row)
    requires IsRun(cfg, tr, acts) && At(Last(tr), m, t, c, row, stage) && t.Ended?
    ensures Longer(cfg, tr, acts, tr', acts', Write(m)) && row' == t.local.Ended(t.outcome)
    ensures At(Last(tr'), m, Written(0, if t.outcome.SUCCESS? then Some(row') else None, t.waits), c, row', stage)
    ensures SameNotes(Last(tr), Last(tr'))
  {
    row' := t.local.Ended(t.outcome);
    tr', acts' := Grow(cfg, tr, acts, Write(m));
  }

  lemma FailingToComplete(cfg: Config, tr: seq<State>, acts: seq<Action>, m: Tag, t: Task, c: Id, row: Row)
    returns (tr': seq<State>, acts': seq<Action>)
    requires IsRun(cfg, tr, acts) && At(Last(tr), m, t, c, row, None) && t.Written? && t.again.Some?
    ensures Longer(cfg, tr, acts, tr', acts', CompleteFails(m))
    ensures At(Last(tr'), m, Ended(0, t.again.value, FAILURE, t.waits), c, row, None)
    ensures SameNotes(Last(tr), Last(tr'))
  {
    tr', acts' := Grow(cfg, tr, acts, CompleteFails(m));
  }

  lemma Completing(cfg: Config, tr: seq<State>, acts: seq<Action>, m: Tag, t: Task, c: Id, row: Row,
                   stage: Option<CancelStage>)
    returns (tr': seq<State>, acts': seq<Action>)
    requires IsRun(cfg, tr, acts) && At(Last(tr), m, t, c, row, stage) && t.Written?
    requires stage.Some?
    ensures Longer(cfg, tr, acts, tr', acts', Complete(m)) && At(Last(tr'), m, Finished(0), c, row, stage)
    ensures SameNotes(Last(tr), Last(tr'))
  {
    tr', acts' := Grow(cfg, tr, acts, Complete(m));
  }

  /** The message is acknowledged, and gone. */
  lemma Acknowledging(cfg: Config, tr: seq<State>, acts: seq<Action>, m: Tag, c: Id, row: Row,
                      stage: Option<CancelStage>)
    returns (tr': seq<State>, acts': seq<Action>)
    requires IsRun(cfg, tr, acts) && At(Last(tr), m, Finished(0), c, row, stage)
    ensures Longer(cfg, tr, acts, tr', acts', Acknowledge(m)) && Last(tr').msgs == map[]
    ensures c in Last(tr').sent && c in Last(tr').rows && Last(tr').rows[c] == row
    ensures SameNotes(Last(tr), Last(tr'))
  {
    tr', acts' := Grow(cfg, tr, acts, Acknowledge(m));
  }

  /** The worker stops consuming, and drops the holder. */
  lemma Closing(cfg: Config, tr: seq<State>, acts: seq<Action>, m: Tag, t: Task, c: Id, row: Row)
    returns (tr': seq<State>, acts': seq<Action>)
    requires IsRun(cfg, tr, acts) && At(Last(tr), m, t, c, row, None)
    ensures IsRun(cfg, tr', acts') && acts' == acts + [StopConsuming(0), Cancel(0, c, Nack)] && tr <= tr'
    ensures At(Last(tr'), m, t, c, row, Some(Popped))
    ensures SameNotes(Last(tr), Last(tr'))
  {
    tr', acts' := Grow(cfg, tr, acts, StopConsuming(0));
    tr', acts' := Grow(cfg, tr', acts', Cancel(0, c, Nack));
  }

  lemma Reading(cfg: Config, tr: seq<State>, acts: seq<Action>, m: Tag, t: Task, c: Id, row: Row)
    returns (tr': seq<State>, acts': seq<Action>)
    requires IsRun(cfg, tr, acts) && At(Last(tr), m, t, c, row, Some(Popped))
    ensures Longer(cfg, tr, acts, tr', acts', CancelRead(DeliveryOf(Last(tr), m)))
    ensures At(Last(tr'), m, t, c, row, Some(Copied(row, t.Delivered?)))
    ensures SameNotes(Last(tr), Last(tr'))
  {
    tr', acts' := Grow(cfg, tr, acts, CancelRead(DeliveryOf(Last(tr), m)));
  }

  lemma Suspending(cfg: Config, tr: seq<State>, acts: seq<Action>, m: Tag, t: Task, c: Id, row: Row, copy: Row,
                   early: bool)
    returns (tr': seq<State>, acts': seq<Action>)
    requires IsRun(cfg, tr, acts) && At(Last(tr), m, t, c, row, Some(Copied(copy, early)))
    ensures Longer(cfg, tr, acts, tr', acts', CancelWrite(DeliveryOf(Last(tr), m)))
    ensures var suspends := copy.state.RUNNING? && copy.node == Some(0);
            && At(Last(tr'), m, t, c, if suspends then copy.Suspended() else row, Some(Noted))
            && (c in Last(tr').astray <==> c in Last(tr).astray || (suspends && early && !t.Delivered?))
    ensures Last(tr').revoking == Last(tr).revoking
  {
    tr', acts' := Grow(cfg, tr, acts, CancelWrite(DeliveryOf(Last(tr), m)));
  }

  lemma Settling(cfg: Config, tr: seq<State>, acts: seq<Action>, m: Tag, t: Task, c: Id, row: Row)
    returns (tr': seq<State>, acts': seq<Action>, d: Delivery)
    requires IsRun(cfg, tr, acts) && At(Last(tr), m, t, c, row, Some(Noted))
    ensures Longer(cfg, tr, acts, tr', acts', CancelSettle(d)) && Back(Last(tr'), m, c, row)
    ensures t.Ended? ==> d in Last(tr').cancels
                         && Last(tr').cancels[d] == Cancellation(0, c, Nack, Outlived(t.local.Ended(t.outcome)), false)
    ensures SameNotes(Last(tr), Last(tr'))
  {
    d := DeliveryOf(Last(tr), m);
    tr', acts' := Grow(cfg, tr, acts, CancelSettle(d));
  }

  /** A fatal error gives the message back. */
  lemma Failing(cfg: Config, tr: seq<State>, acts: seq<Action>, m: Tag, t: Task, c: Id, row: Row)
    returns (tr': seq<State>, acts': seq<Action>)
    requires IsRun(cfg, tr, acts) && At(Last(tr), m, t, c, row, None) && Fails(t)
    ensures Longer(cfg, tr, acts, tr', acts', Fatal(m)) && Waiting(Last(tr'), m, c, row)
    ensures SameNotes(Last(tr), Last(tr'))
  {
    tr', acts' := Grow(cfg, tr, acts, Fatal(m));
  }

  lemma Revoking(cfg: Config, tr: seq<State>, acts: seq<Action>, m: Tag, t: Task, c: Id, row: Row,
                 stage: Option<CancelStage>)
    returns (tr': seq<State>, acts': seq<Action>)
    requires IsRun(cfg, tr, acts) && At(Last(tr), m, t, c, row, stage) && !row.Done()
    ensures Longer(cfg, tr, acts, tr', acts', Revoke(c, false))
    ensures At(Last(tr'), m, t, c, row.Ended(REVOKED), stage) && c in Last(tr').revoking
  {
    tr', acts' := Grow(cfg, tr, acts, Revoke(c, false));
  }

  // ----- runs

  lemma DeliveredRoot(cfg: Config) returns (tr: seq<State>, acts: seq<Action>, m: Tag, c: Id)
    requires cfg.HasRoom()
    ensures IsMildRun(cfg, tr, acts) && Uncancelled(acts) && Orderly(Last(tr), c)
    ensures At(Last(tr), m, Delivered(0), c, New, None)
  {
    tr, acts, m, c := PostedRoot(cfg);
    tr, acts := Delivering(cfg, tr, acts, m, c, New);
  }

  lemma StartedRoot(cfg: Config) returns (tr: seq<State>, acts: seq<Action>, m: Tag, t: Task, c: Id, row: Row)
    requires cfg.HasRoom()
    ensures IsMildRun(cfg, tr, acts) && Uncancelled(acts) && Orderly(Last(tr), c)
    ensures At(Last(tr), m, t, c, row, None) && row == First && t == Called(First)
  {
    tr, acts, m, c := DeliveredRoot(cfg);
    tr, acts, row := Starting(cfg, tr, acts, m, c, New, None);
    t := Called(row);
  }

  /** The handler runs, and a cancellation has read the result. */
  lemma CopiedRoot(cfg: Config) returns (tr: seq<State>, acts: seq<Action>, m: Tag, t: Task, c: Id, row: Row)
    requires cfg.HasRoom()
    ensures IsMildRun(cfg, tr, acts) && Orderly(Last(tr), c)
    ensures At(Last(tr), m, t, c, row, Some(Copied(row, false))) && row == First && t == Called(First)
  {
    tr, acts, m, t, c, row := StartedRoot(cfg);
    tr, acts := Closing(cfg, tr, acts, m, t, c, row);
    tr, acts := Reading(cfg, tr, acts, m, t, c, row);
  }

  /** The handler ended and passed the test for its holder. */
  lemma EndedRoot(cfg: Config, outcome: ResultState)
    returns (tr: seq<State>, acts: seq<Action>, m: Tag, t: Task, c: Id, row: Row)
    requires cfg.HasRoom() && outcome.Ready()
    ensures IsMildRun(cfg, tr, acts) && Uncancelled(acts) && Orderly(Last(tr), c)
    ensures At(Last(tr), m, t, c, row, None) && row == First && t == Ended(0, First, outcome, false)
  {
    tr, acts, m, t, c, row := StartedRoot(cfg);
    tr, acts := Finishing(cfg, tr, acts, m, t, c, row, None, outcome);
    t := Ended(0, row, outcome, false);
  }

  /** And a cancellation has read the result since. */
  lemma CopiedEnd(cfg: Config, outcome: ResultState)
    returns (tr: seq<State>, acts: seq<Action>, m: Tag, t: Task, c: Id, row: Row)
    requires cfg.HasRoom() && outcome.Ready()
    ensures IsMildRun(cfg, tr, acts) && Orderly(Last(tr), c)
    ensures At(Last(tr), m, t, c, row, Some(Copied(row, false))) && row == First && t == Ended(0, First, outcome, false)
  {
    tr, acts, m, t, c, row := EndedRoot(cfg, outcome);
    tr, acts := Closing(cfg, tr, acts, m, t, c, row);
    tr, acts := Reading(cfg, tr, acts, m, t, c, row);
  }

  /**
   A request is lost: its worker closes, drops the holder and suspends the result; the handler returns, does
   not write and is acknowledged; the rejection comes too late.
   */
  lemma LostRequest(cfg: Config) returns (tr: seq<State>, acts: seq<Action>, c: Id)
    requires cfg.HasRoom()
    ensures IsMildRun(cfg, tr, acts) && Orderly(Last(tr), c)
    ensures c in Last(tr).sent && c in Last(tr).rows && Last(tr).rows[c].state.SUSPENDED? && Last(tr).msgs == map[]
  {
    var m, t, row;
    tr, acts, m, t, c, row := CopiedRoot(cfg);
    tr, acts := Suspending(cfg, tr, acts, m, t, c, row, row, false);
    tr, acts := Finishing(cfg, tr, acts, m, t, c, row.Suspended(), Some(Noted), SUCCESS);
    tr, acts := Acknowledging(cfg, tr, acts, m, c, row.Suspended(), Some(Noted));
  }

  lemma CopiedDelivery(cfg: Config) returns (tr: seq<State>, acts: seq<Action>, m: Tag, c: Id)
    requires cfg.HasRoom()
    ensures IsMildRun(cfg, tr, acts) && Orderly(Last(tr), c)
    ensures At(Last(tr), m, Delivered(0), c, New, Some(Copied(New, true)))
  {
    tr, acts, m, c := DeliveredRoot(cfg);
    tr, acts := Closing(cfg, tr, acts, m, Delivered(0), c, New);
    tr, acts := Reading(cfg, tr, acts, m, Delivered(0), c, New);
  }

  lemma GatedLate(cfg: Config) returns (tr: seq<State>, acts: seq<Action>, m: Tag, t: Task, c: Id, row: Row)
    requires cfg.HasRoom()
    ensures IsMildRun(cfg, tr, acts) && Orderly(Last(tr), c)
    ensures At(Last(tr), m, t, c, row, Some(Copied(New, true))) && row == First && t.Running?
  {
    tr, acts, m, c := CopiedDelivery(cfg);
    tr, acts, row := Starting(cfg, tr, acts, m, c, New, Some(Copied(New, true)));
    t := Called(row);
  }

  /** A start that no stop answers, without a crash: the gate comes between a cancellation's read and its rejection. */
  lemma UnansweredStart(cfg: Config) returns (tr: seq<State>, acts: seq<Action>, m: Tag, c: Id, row: Row)
    requires cfg.HasRoom()
    ensures IsMildRun(cfg, tr, acts) && Orderly(Last(tr), c)
    ensures Back(Last(tr), m, c, row) && row.state.RUNNING? && row.Net() == 1
  {
    var t, d;
    tr, acts, m, t, c, row := GatedLate(cfg);
    tr, acts := Suspending(cfg, tr, acts, m, t, c, row, New, true);
    tr, acts, d := Settling(cfg, tr, acts, m, t, c, row);
  }

  /** Another, without a cancellation: the handler can not even be called, or its end not be stored. */
  lemma UnansweredError(cfg: Config) returns (tr: seq<State>, acts: seq<Action>, m: Tag, c: Id, row: Row)
    requires cfg.HasRoom()
    ensures IsRun(cfg, tr, acts) && Uncancelled(acts) && (forall a | a in acts :: Mild(a) || a.Fatal?)
    ensures Orderly(Last(tr), c) && Waiting(Last(tr), m, c, row) && row == First
  {
    var t;
    tr, acts, m, t, c, row := StartedRoot(cfg);
    tr, acts := Failing(cfg, tr, acts, m, t, c, row);
  }

  /** The handler passed the test for its holder, its worker closes and reads RUNNING, and then its end is stored. */
  lemma OverturnedEnd(cfg: Config, outcome: ResultState)
    returns (tr: seq<State>, acts: seq<Action>, i: nat, m: Tag, t: Task, c: Id, row: Row)
    requires cfg.HasRoom() && outcome.Ready()
    ensures IsMildRun(cfg, tr, acts) && Orderly(Last(tr), c) && i < |acts|
    ensures c in tr[i].rows && tr[i].rows[c].state == outcome && Last(tr) == tr[i + 1]
    ensures At(Last(tr), m, t, c, row, Some(Noted)) && t.Written? && row == First.Suspended()
  {
    var ended;
    tr, acts, m, t, c, row := CopiedEnd(cfg, outcome);
    tr, acts, ended := WritingEnd(cfg, tr, acts, m, t, c, row, Some(Copied(row, false)));
    t := Written(0, if outcome.SUCCESS? then Some(ended) else None, false);
    i := |acts|;
    tr, acts := Suspending(cfg, tr, acts, m, t, c, ended, row, false);
    row := row.Suspended();
  }

  /** A result that was ready with any outcome is SUSPENDED, and the next gate calls the handler again. */
  lemma CalledAgain(cfg: Config, outcome: ResultState)
    returns (tr: seq<State>, acts: seq<Action>, i: nat, m: Tag, c: Id, row: Row)
    requires cfg.HasRoom() && outcome.Ready()
    ensures IsMildRun(cfg, tr, acts) && Orderly(Last(tr), c) && i < |acts|
    ensures c in tr[i].rows && tr[i].rows[c].state == outcome
    ensures Back(Last(tr), m, c, row) && row.state.SUSPENDED?
    ensures Judge(cfg, Last(tr).rows, Request(c, []), false, false).Start?
  {
    var t, d;
    tr, acts, i, m, t, c, row := OverturnedEnd(cfg, outcome);
    tr, acts, d := Settling(cfg, tr, acts, m, t, c, row);
    StartIff(cfg, Last(tr).rows, Request(c, []), false, false);
  }

  /** Or it is acknowledged before it is rejected: a request that succeeded is lost. */
  lemma LostOutcome(cfg: Config, outcome: ResultState) returns (tr: seq<State>, acts: seq<Action>, i: nat, c: Id)
    requires cfg.HasRoom() && outcome.Ready()
    ensures IsMildRun(cfg, tr, acts) && Orderly(Last(tr), c) && i < |acts|
    ensures c in tr[i].rows && tr[i].rows[c].state == outcome
    ensures c in Last(tr).sent && c in Last(tr).rows && Last(tr).rows[c].state.SUSPENDED? && Last(tr).msgs == map[]
  {
    var m, t, row;
    tr, acts, i, m, t, c, row := OverturnedEnd(cfg, outcome);
    tr, acts := Completing(cfg, tr, acts, m, t, c, row, Some(Noted));
    tr, acts := Acknowledging(cfg, tr, acts, m, c, row, Some(Noted));
  }

  /** Without a cancellation, SUCCESS becomes FAILURE with a second stop: the completion of the request failed. */
  lemma FailedCompletion(cfg: Config) returns (tr: seq<State>, acts: seq<Action>, i: nat, c: Id)
    requires cfg.HasRoom()
    ensures IsRun(cfg, tr, acts) && (forall a | a in acts :: Mild(a) || a.CompleteFails?) && Uncancelled(acts)
    ensures Orderly(Last(tr), c) && i < |acts|
    ensures c in tr[i].rows && tr[i].rows[c].state.SUCCESS? && tr[i].rows[c].stops == 1
    ensures c in Last(tr).rows && Last(tr).rows[c].state.FAILURE? && Last(tr).rows[c].stops == 2
  {
    var m, t, row, ended;
    tr, acts, m, t, c, row := EndedRoot(cfg, SUCCESS);
    tr, acts, ended := WritingEnd(cfg, tr, acts, m, t, c, row, None);
    i := |acts|;
    tr, acts := FailingToComplete(cfg, tr, acts, m, Written(0, Some(ended), false), c, ended);
    tr, acts, row := WritingEnd(cfg, tr, acts, m, Ended(0, ended, FAILURE, false), c, ended, None);
  }

  lemma SuspendedEnd(cfg: Config) returns (tr: seq<State>, acts: seq<Action>, m: Tag, t: Task, c: Id, row: Row)
    requires cfg.HasRoom()
    ensures IsMildRun(cfg, tr, acts) && At(Last(tr), m, t, c, row, Some(Noted))
    ensures t == Ended(0, First, SUCCESS, false) && row == First.Suspended()
  {
    tr, acts, m, t, c, row := CopiedEnd(cfg, SUCCESS);
    tr, acts := Suspending(cfg, tr, acts, m, t, c, row, row, false);
    row := row.Suspended();
  }

  /** The shielded write of a handler lands after its message went back. */
  lemma LandedLate(cfg: Config) returns (tr: seq<State>, acts: seq<Action>, m: Tag, c: Id, row: Row)
    requires cfg.HasRoom()
    ensures IsMildRun(cfg, tr, acts) && acts != [] && c in Last(tr).astray
    ensures Back(tr[|acts| - 1], m, c, First.Suspended()) && Back(Last(tr), m, c, row) && row.state.SUCCESS?
  {
    var t, d;
    tr, acts, m, t, c, row := SuspendedEnd(cfg);
    tr, acts, d := Settling(cfg, tr, acts, m, t, c, row);
    row := First.Ended(SUCCESS);
    tr, acts := Grow(cfg, tr, acts, CancelLand(d));
  }

  /** A second delivery, of a request that a fatal error left RUNNING: a cancellation reads that before the gate. */
  lemma ReadEarly(cfg: Config) returns (tr: seq<State>, acts: seq<Action>, m: Tag, c: Id, row: Row)
    requires cfg.HasRoom()
    ensures IsRun(cfg, tr, acts) && (forall a | a in acts :: Mild(a) || a.Fatal?) && Orderly(Last(tr), c)
    ensures At(Last(tr), m, Delivered(0), c, row, Some(Copied(row, true))) && row == First
  {
    tr, acts, m, c, row := UnansweredError(cfg);
    tr, acts := Delivering(cfg, tr, acts, m, c, row);
    tr, acts := Closing(cfg, tr, acts, m, Delivered(0), c, row);
    tr, acts := Reading(cfg, tr, acts, m, Delivered(0), c, row);
  }

  /** The cancellation answers the start that the fatal error left. */
  lemma Pardoned(cfg: Config) returns (tr: seq<State>, acts: seq<Action>, c: Id)
    requires cfg.HasRoom()
    ensures IsRun(cfg, tr, acts) && Orderly(Last(tr), c) && acts != [] && PardonOf(tr[|acts| - 1], acts[|acts| - 1], c)
    ensures c in Last(tr).rows && Last(tr).rows[c].state.SUSPENDED? && Last(tr).rows[c].Net() == 0
  {
    var m, row;
    tr, acts, m, c, row := ReadEarly(cfg);
    tr, acts := Suspending(cfg, tr, acts, m, Delivered(0), c, row, row, true);
  }

  /** Or the gate comes first, and the cancellation suspends the result of an active handler from a copy out of date. */
  lemma SuspendedActive(cfg: Config) returns (tr: seq<State>, acts: seq<Action>, m: Tag, c: Id)
    requires cfg.HasRoom() && cfg.maxRetries >= 1
    ensures IsRun(cfg, tr, acts) && (forall a | a in acts :: Mild(a) || a.Fatal?) && c in Last(tr).astray
    ensures IsActive(Last(tr), m) && IsFor(Last(tr), m, c)
    ensures c in Last(tr).rows && Last(tr).rows[c].state.SUSPENDED? && Last(tr).rows[c].starts == 1
  {
    var row, again;
    tr, acts, m, c, row := ReadEarly(cfg);
    tr, acts, again := Starting(cfg, tr, acts, m, c, row, Some(Copied(row, true)));
    tr, acts := Suspending(cfg, tr, acts, m, Called(again), c, again, row, true);
  }

  /** The handler passed the test for its holder before it was revoked, and the cancellation dropped the holder. */
  lemma RevokedEnd(cfg: Config) returns (tr: seq<State>, acts: seq<Action>, m: Tag, c: Id)
    requires cfg.HasRoom()
    ensures IsRun(cfg, tr, acts) && OnWorker(Last(tr), m) && IsFor(Last(tr), m, c) && IsRevoked(Last(tr), c)
    ensures !Kept(Last(tr), m) && Last(tr).msgs[m].task == Ended(0, First, SUCCESS, false)
  {
    var t, row;
    tr, acts, m, t, c, row := EndedRoot(cfg, SUCCESS);
    tr, acts := Revoking(cfg, tr, acts, m, t, c, row, None);
    tr, acts := Grow(cfg, tr, acts, Cancel(0, c, Ack));
  }

  /** A handler that passed the test for its holder stores SUCCESS over REVOKED, though it is not held any more. */
  lemma RevokedThenSuccessful(cfg: Config) returns (tr: seq<State>, acts: seq<Action>, i: nat, m: Tag, c: Id)
    requires cfg.HasRoom()
    ensures IsRun(cfg, tr, acts) && i < |acts| && IsRevoked(tr[i], c) && !Kept(tr[i], m) && acts[i] == Write(m)
    ensures c in tr[i + 1].rows && tr[i + 1].rows[c].state.SUCCESS?
  {
    tr, acts, m, c := RevokedEnd(cfg);
    i := |acts|;
    tr, acts := Grow(cfg, tr, acts, Write(m));
  }

  /** A cancellation that read the result RUNNING before the revocation suspends it. */
  lemma RevokedThenSuspended(cfg: Config) returns (tr: seq<State>, acts: seq<Action>, i: nat, c: Id)
    requires cfg.HasRoom()
    ensures IsRun(cfg, tr, acts) && i < |acts| && IsRevoked(tr[i], c)
    ensures c in tr[i + 1].rows && tr[i + 1].rows[c].state.SUSPENDED?
  {
    var m, t, row;
    tr, acts, m, t, c, row := CopiedRoot(cfg);
    tr, acts := Revoking(cfg, tr, acts, m, t, c, row, Some(Copied(row, false)));
    i := |acts|;
    tr, acts := Grow(cfg, tr, acts, CancelWrite(DeliveryOf(Last(tr), m)));
  }

  // ----- a waiting set

  lemma {:induction false} Unused(ids: set<Id>) returns (top: Id)
    ensures forall x | x in ids :: x < top
  {
    top := 0;
    if x :| x in ids {
      var rest := Unused(ids - {x});
      top := if x < rest then rest else x + 1;
      forall y | y in ids ensures y < top {
        assert y != x ==> y in ids - {x};
      }
    }
  }

  /** The handler waits for a child, and its process consumes. */
  ghost predicate Awaits(s: State, m: Tag, c: Id) {
    && s.workers.Keys == {0} && s.msgs.Keys == {m}
    && s.msgs[m].Held? && s.msgs[m].task.Running? && s.msgs[m].task.worker == 0 && s.msgs[m].task.deps != {}
    && s.msgs[m].req.id == c && s.workers[0].consuming && c in s.workers[0].waiting && c in s.rows
  }

  lemma AwaitingRoot(cfg: Config) returns (tr: seq<State>, acts: seq<Action>, m: Tag, c: Id)
    requires cfg.HasRoom()
    ensures IsMildRun(cfg, tr, acts) && Awaits(Last(tr), m, c) && Last(tr).cancels == map[]
    ensures c in Last(tr).workers[0].running && Last(tr).workers[0].running[c] == m && !Last(tr).rows[c].Done()
  {
    var t, row;
    tr, acts, m, t, c, row := StartedRoot(cfg);
    var d := Unused(Last(tr).used.Keys);
    tr, acts := Grow(cfg, tr, acts, Spawn(m, d, true));
  }

  lemma DroppedRoot(cfg: Config) returns (tr: seq<State>, acts: seq<Action>, m: Tag, c: Id)
    requires cfg.HasRoom()
    ensures IsRun(cfg, tr, acts) && (forall a | a in acts :: Mild(a) || a.Revoke?)
    ensures Awaits(Last(tr), m, c) && IsRevoked(Last(tr), c)
    ensures Last(tr).cancels == map[DeliveryOf(Last(tr), m) := Cancellation(0, c, Ack, Popped, false)]
  {
    tr, acts, m, c := AwaitingRoot(cfg);
    tr, acts := Grow(cfg, tr, acts, Revoke(c, false));
    tr, acts := Grow(cfg, tr, acts, Cancel(0, c, Ack));
  }

  lemma NotedRoot(cfg: Config) returns (tr: seq<State>, acts: seq<Action>, m: Tag, c: Id)
    requires cfg.HasRoom()
    ensures IsRun(cfg, tr, acts) && (forall a | a in acts :: Mild(a) || a.Revoke?)
    ensures Awaits(Last(tr), m, c)
    ensures Last(tr).cancels == map[DeliveryOf(Last(tr), m) := Cancellation(0, c, Ack, Noted, false)]
  {
    tr, acts, m, c := DroppedRoot(cfg);
    var d := DeliveryOf(Last(tr), m);
    tr, acts := Grow(cfg, tr, acts, CancelRead(d));
    tr, acts := Grow(cfg, tr, acts, CancelWrite(d));
  }

  /** A handler that waits, revoked and cancelled: its id stays in the waiting set of a process that consumes. */
  lemma LeftWaiting(cfg: Config) returns (tr: seq<State>, acts: seq<Action>, c: Id)
    requires cfg.HasRoom()
    ensures IsRun(cfg, tr, acts) && (forall a | a in acts :: Mild(a) || a.Revoke?)
    ensures Last(tr).msgs == map[] && Last(tr).cancels == map[]
    ensures Consumes(Last(tr), 0) && c in Last(tr).workers[0].waiting
  {
    var m;
    tr, acts, m, c := NotedRoot(cfg);
    tr, acts := Grow(cfg, tr, acts, CancelSettle(DeliveryOf(Last(tr), m)));
  }
}
