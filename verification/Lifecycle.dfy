/**
 The distributed life of a task as a transition system: a broker queue, worker processes that hold
 unacknowledged messages, and the result backend. Every action is one atomic step of the program
 or of its environment.
 */
module Lifecycle {
  import opened Types
  import opened ResultModel
  import opened Settlement
  import opened WorkerModel
  import opened ContextModel

  /** How far App.submit has come with a child: not indexed yet, indexed, result stored. */
  datatype Stage = Chosen | Indexed | Stored

  /**
   The asyncio task that processes one delivery. `local` is the Result object that _run_request keeps; the
   suspends and resumes of its context go through other copies, so it grows stale. A handler waits exactly
   while `deps` is not empty. `subs` are its submissions under way.

   A handler that ended passed the test for its holder, if it had to, and `outcome` is about to be stored.
   Then _on_complete follows; `again` is what a handler that returned has at hand to store a failure if
   that fails. `waits` says that the request is still in the waiting set.
   */
  datatype Task =
    | Delivered(worker: Id)
    | Running(worker: Id, local: Row, deps: set<Id>, subs: map<Id, Stage>)
    | Pausing(worker: Id)
    | Ended(worker: Id, local: Row, outcome: ResultState, waits: bool)
    | Written(worker: Id, again: Option<Row>, waits: bool)
    | Finished(worker: Id)
  {
    /** The Result object that may be stored yet. */
    function Copy(): Option<Row> {
      match this
      case Running(_, local, _, _) => Some(local)
      case Ended(_, local, _, _) => Some(local)
      case Written(_, again, _) => again
      case _ => None
    }
  }

  /** A held message knows the number of its delivery. */
  datatype Message = Queued(req: Request) | Held(req: Request, number: nat, task: Task)

  datatype Delivery = Delivery(tag: Tag, number: nat)

  /**
   How far Worker.cancel has come: it dropped the holder, it has its copy of the result, or it wrote what
   it had to. The settlement is next, and until then the handler goes on. The write of a handler that ended
   before the settlement is shielded: it outlives it, and may land at any time. `early` is history: the
   result was read before the gate.
   */
  datatype CancelStage = Popped | Copied(row: Row, early: bool) | Noted | Outlived(row: Row)

  /** `over` is history as well: the delivery ended in an error meanwhile, and the message went back. */
  datatype Cancellation = Cancellation(worker: Id, id: Id, verb: Verb, stage: CancelStage, over: bool) {
    /** It will suspend the result that it read. */
    predicate Suspends() {
      stage.Copied? && stage.row.state.RUNNING? && stage.row.node == Some(worker)
    }
  }

  datatype Post = Post(stack: seq<Id>, tag: Tag)

  /**
   `deliveries` numbers them, `cancels` are the cancellations under way, by the delivery whose holder they
   dropped, and `gone` are the processes that ended. `used`, `stored` and `sent` are history: the ids picked
   for requests and which message's handler picked them (none for a root), the ids whose result App.submit
   stored, and for each request sent its stack and the tag of its message.
   The last four are history too. `unheld` are the ids whose last handler had its end written, or not
   written at all, after a cancellation had dropped its holder. `revoking` are those for which a revoke
   message was broadcast, `astray` those whose result was written for a delivery that was over or had not
   begun, and `leaked` those that a fatal error or a cancellation left in a waiting set.
   */
  datatype State = State(
    msgs: map<Tag, Message>, next: Tag, deliveries: nat,
    rows: map<Id, Row>, children: map<Id, set<Id>>,
    workers: map<Id, WorkerState>, cancels: map<Delivery, Cancellation>, gone: set<Id>, unheld: set<Id>,
    used: map<Id, Option<Tag>>, stored: set<Id>, sent: map<Id, Post>, revoking: set<Id>, astray: set<Id>,
    leaked: set<Id>)

  datatype Action =
    | Join(w: Id) | StopConsuming(w: Id) | Crash(w: Id) | Fatal(m: Tag)
    | StoreRoot(c: Id) | SendRoot(c: Id)
    | Deliver(w: Id, m: Tag) | Gate(m: Tag, late: bool, unknown: bool)
    | Spawn(m: Tag, c: Id, awaited: bool) | Index(m: Tag, c: Id) | Store(m: Tag, c: Id) | Send(m: Tag, c: Id)
    | SubmitFails(m: Tag, c: Id) | Release(m: Tag, c: Id)
    | Finish(m: Tag, outcome: ResultState) | Pause(m: Tag)
    | Write(m: Tag) | WriteFails(m: Tag, counted: bool) | Complete(m: Tag) | CompleteFails(m: Tag)
    | Requeue(m: Tag) | Acknowledge(m: Tag)
    | Revoke(id: Id, force: bool)
    | Cancel(w: Id, id: Id, verb: Verb) | CancelRead(d: Delivery) | CancelWrite(d: Delivery)
    | CancelSettle(d: Delivery) | CancelLand(d: Delivery)

  const Init: State := State(map[], 0, 0, map[], map[], map[], map[], {}, {}, map[], {}, map[], {}, {}, {})

  // ----- views

  predicate HeldBy(s: State, m: Tag, w: Id) {
    m in s.msgs && s.msgs[m].Held? && s.msgs[m].task.worker == w
  }

  predicate IsQueued(s: State, m: Tag) {
    m in s.msgs && s.msgs[m].Queued?
  }

  predicate IsHeld(s: State, m: Tag) {
    m in s.msgs && s.msgs[m].Held?
  }

  predicate IsFor(s: State, m: Tag, id: Id) {
    m in s.msgs && s.msgs[m].req.id == id
  }

  predicate Consumes(s: State, w: Id) {
    w in s.workers && s.workers[w].consuming
  }

  predicate IsRevoked(s: State, c: Id) {
    c in s.rows && s.rows[c].state.REVOKED?
  }

  predicate IsDone(s: State, c: Id) {
    c in s.rows && s.rows[c].Done()
  }

  predicate Busy(s: State, m: Tag) {
    m in s.msgs && s.msgs[m].Held? && s.msgs[m].task.Running?
  }

  /** `t` differs from the task of `m` in the submissions only. */
  predicate SameTask(s: State, m: Tag, t: Task) {
    Busy(s, m) && t.Running? && t.(subs := s.msgs[m].task.subs) == s.msgs[m].task
  }

  predicate IsActive(s: State, m: Tag) {
    Busy(s, m) && s.msgs[m].task.deps == {}
  }

  predicate IsWaiting(s: State, m: Tag) {
    Busy(s, m) && s.msgs[m].task.deps != {}
  }

  /** Its id is to be in the waiting set: the handler waits, or ended waiting and is not complete. */
  predicate Listed(s: State, m: Tag) {
    && IsHeld(s, m)
    && match s.msgs[m].task
       case Running(_, _, deps, _) => deps != {}
       case Ended(_, _, _, waits) => waits
       case Written(_, _, waits) => waits
       case _ => false
  }

  /** running_tasks has the message's request. */
  predicate Kept(s: State, m: Tag) {
    OnWorker(s, m) && s.msgs[m].req.id in s.workers[s.msgs[m].task.worker].running
  }

  function Unacked(s: State, w: Id): set<Tag> {
    set m | m in s.msgs && HeldBy(s, m, w)
  }

  /** The delivery is still the one under which the message is held. */
  predicate Ours(s: State, d: Delivery) {
    d.tag in s.msgs && s.msgs[d.tag].Held? && s.msgs[d.tag].number == d.number
  }

  function DeliveryOf(s: State, m: Tag): Delivery
    requires IsHeld(s, m)
  {
    Delivery(m, s.msgs[m].number)
  }

  // ----- parts of a step

  /** The messages with the task of `m` replaced. */
  function With(msgs: map<Tag, Message>, m: Tag, t: Task): map<Tag, Message>
    requires m in msgs && msgs[m].Held?
  {
    msgs[m := msgs[m].(task := t)]
  }

  /** The broker's side of a settlement: an ack drops the message, a nack puts it back. */
  function Settled(msgs: map<Tag, Message>, m: Tag, asked: seq<Verb>): map<Tag, Message>
    requires m in msgs
  {
    match Effect(asked)
    case None => msgs
    case Some(Ack) => msgs - {m}
    case Some(Nack) => msgs[m := Queued(msgs[m].req)]
  }

  /** on_processing_done and running_tasks.pop: forget the holder kept under the request's id. */
  function Forget(workers: map<Id, WorkerState>, w: Id, id: Id): map<Id, WorkerState>
    requires w in workers
  {
    workers[w := workers[w].(running := workers[w].running - {id})]
  }

  /** Context.run up to the submission, for a handler in task `t`: note the dependency, suspend when it is the first. */
  function EnterRun(cfg: Config, s: State, m: Tag, t: Task, c: Id): State
    requires IsHeld(s, m) && t.Running? && t.worker in s.workers
  {
    var id, w := s.msgs[m].req.id, t.worker;
    if t.deps != {} then s.(msgs := With(s.msgs, m, t.(deps := t.deps + {c})))
    else
      s.(msgs := With(s.msgs, m, t.(deps := t.deps + {c})),
         rows := SuspendRow(s.rows, id),
         workers := s.workers[w := AddWaiting(cfg, s.workers[w], id)])
  }

  /** The end of Context.run: drop the dependency, resume when it was the last. */
  function LeaveRun(cfg: Config, s: State, m: Tag, t: Task, c: Id): State
    requires IsHeld(s, m) && t.Running? && t.worker in s.workers
  {
    var id, w := s.msgs[m].req.id, t.worker;
    if t.deps - {c} != {} then s.(msgs := With(s.msgs, m, t.(deps := t.deps - {c})))
    else
      s.(msgs := With(s.msgs, m, t.(deps := t.deps - {c})),
         rows := ResumeRow(s.rows, id),
         workers := s.workers[w := RemoveSuspended(cfg, s.workers[w], id)])
  }

  // ----- actions

  predicate OfProcess(a: Action) {
    a.Join? || a.StopConsuming? || a.Crash?
  }

  predicate OfClient(a: Action) {
    a.StoreRoot? || a.SendRoot? || a.Revoke?
  }

  predicate OfDelivery(a: Action) {
    a.Deliver? || a.Gate? || a.Fatal? || a.Requeue? || a.Acknowledge?
  }

  predicate OfHandler(a: Action) {
    a.Spawn? || a.Index? || a.Store? || a.Send? || a.SubmitFails? || a.Release?
  }

  predicate OfEnding(a: Action) {
    a.Finish? || a.Pause? || a.Write? || a.WriteFails? || a.Complete? || a.CompleteFails?
  }

  predicate Enabled(cfg: Config, s: State, a: Action) {
    if OfProcess(a) then ProcessCan(s, a)
    else if OfClient(a) then ClientCan(s, a)
    else if OfDelivery(a) then DeliveryCan(s, a)
    else if OfHandler(a) then HandlerCan(s, a)
    else if OfEnding(a) then EndingCan(s, a)
    else CancelCan(s, a)
  }

  predicate ProcessCan(s: State, a: Action) {
    match a
    case Join(w) => w !in s.workers && w !in s.gone
    case StopConsuming(w) => Consumes(s, w)
    case Crash(w) => w in s.workers
    case _ => false
  }

  predicate ClientCan(s: State, a: Action) {
    match a
    case StoreRoot(c) => c !in s.used
    case SendRoot(c) => c in s.stored && c !in s.sent && c in s.rows && s.rows[c].parent.None?
    case Revoke(_, _) => true
    case _ => false
  }

  predicate DeliveryCan(s: State, a: Action) {
    match a
    case Deliver(w, m) =>
      && Consumes(s, w) && IsQueued(s, m)
      && Admits(s.workers[w].limit, |Unacked(s, w)|)
    case Gate(m, _, _) => Unjudged(s, m)
    case Fatal(m) => OnWorker(s, m) && Fails(s.msgs[m].task)
    case Requeue(m) => OnWorker(s, m) && s.msgs[m].task.Pausing?
    case Acknowledge(m) => OnWorker(s, m) && s.msgs[m].task.Finished?
    case _ => false
  }

  predicate HandlerCan(s: State, a: Action) {
    match a
    case Spawn(m, c, _) => OnWorker(s, m) && Busy(s, m) && c !in s.used
    case Index(m, c) => OnWorker(s, m) && SubmitsAt(s, m, c, Chosen)
    case Store(m, c) => OnWorker(s, m) && SubmitsAt(s, m, c, Indexed)
    case Send(m, c) => OnWorker(s, m) && SubmitsAt(s, m, c, Stored)
    case SubmitFails(m, c) => OnWorker(s, m) && Submits(s, m, c)
    case Release(m, c) =>
      && OnWorker(s, m) && Busy(s, m) && c in s.msgs[m].task.deps && c !in s.msgs[m].task.subs
      && IsDone(s, c)
    case _ => false
  }

  predicate EndingCan(s: State, a: Action) {
    match a
    case Finish(m, outcome) => OnWorker(s, m) && Busy(s, m) && outcome.Ready()
    case Pause(m) => OnWorker(s, m) && IsActive(s, m)
    case Write(m) => OnWorker(s, m) && s.msgs[m].task.Ended?
    case WriteFails(m, _) => OnWorker(s, m) && s.msgs[m].task.Ended? && s.msgs[m].task.outcome.SUCCESS?
    case Complete(m) => OnWorker(s, m) && s.msgs[m].task.Written?
    case CompleteFails(m) => OnWorker(s, m) && s.msgs[m].task.Written? && s.msgs[m].task.again.Some?
    case _ => false
  }

  /**
   An error can leave _run_request: before the handler is called, while it is called (validate_call may
   raise anything), or when the end of a handler that did not return can not be stored or completed.
   */
  predicate Fails(t: Task) {
    || t.Delivered? || (t.Running? && t.deps == {})
    || (t.Ended? && !t.outcome.SUCCESS?) || (t.Written? && t.again.None?)
  }

  /** A worker cancels with rejection when it closes, and with acknowledgement when a revocation arrives. */
  predicate CancelCan(s: State, a: Action) {
    match a
    case Cancel(w, id, verb) => CanCancel(s, w, id) && if verb.Nack? then !s.workers[w].consuming else id in s.revoking
    case CancelRead(d) => d in s.cancels && s.cancels[d].stage.Popped?
    case CancelWrite(d) => d in s.cancels && s.cancels[d].stage.Copied?
    case CancelSettle(d) => d in s.cancels && s.cancels[d].stage.Noted?
    case CancelLand(d) => d in s.cancels && s.cancels[d].stage.Outlived?
    case _ => false
  }

  predicate OnWorker(s: State, m: Tag) {
    m in s.msgs && s.msgs[m].Held? && s.msgs[m].task.worker in s.workers
  }

  /** A delivery whose handler was not called yet. */
  predicate Unjudged(s: State, m: Tag) {
    OnWorker(s, m) && s.msgs[m].task.Delivered?
  }

  predicate Submits(s: State, m: Tag, c: Id) {
    Busy(s, m) && c in s.msgs[m].task.subs
  }

  predicate SubmitsAt(s: State, m: Tag, c: Id, stage: Stage) {
    Submits(s, m, c) && s.msgs[m].task.subs[c] == stage
  }

  predicate CanCancel(s: State, w: Id, id: Id) {
    w in s.workers && id in s.workers[w].running && HeldBy(s, s.workers[w].running[id], w)
  }

  function Apply(cfg: Config, s: State, a: Action): State
    requires Enabled(cfg, s, a)
  {
    if OfProcess(a) then ApplyProcess(cfg, s, a)
    else if OfClient(a) then ApplyClient(s, a)
    else if OfDelivery(a) then ApplyDelivery(cfg, s, a)
    else if OfHandler(a) then ApplyHandler(cfg, s, a)
    else if OfEnding(a) then ApplyEnding(cfg, s, a)
    else ApplyCancel(cfg, s, a)
  }

  function ApplyProcess(cfg: Config, s: State, a: Action): State
    requires ProcessCan(s, a)
  {
    match a
    case Join(w) => s.(workers := s.workers[w := Fresh(cfg)])
    case StopConsuming(w) => s.(workers := s.workers[w := s.workers[w].(consuming := false)])
    case Crash(w) => DoCrash(s, w)
  }

  function ApplyClient(s: State, a: Action): State
    requires ClientCan(s, a)
  {
    match a
    case StoreRoot(c) => DoStoreRoot(s, c)
    case SendRoot(c) => Publish(s, Request(c, []))
    case Revoke(id, force) => DoRevoke(s, id, force)
  }

  function ApplyDelivery(cfg: Config, s: State, a: Action): State
    requires DeliveryCan(s, a)
  {
    match a
    case Deliver(w, m) => DoDeliver(s, w, m)
    case Gate(m, late, unknown) => DoGate(cfg, s, m, late, unknown)
    case Fatal(m) => DoFatal(s, m)
    case Requeue(m) => DoSettle(s, m, [Nack, Ack])
    case Acknowledge(m) => DoSettle(s, m, [Ack])
  }

  function ApplyHandler(cfg: Config, s: State, a: Action): State
    requires HandlerCan(s, a)
  {
    match a
    case Spawn(m, c, awaited) => DoSpawn(cfg, s, m, c, awaited)
    case Index(m, c) => DoIndex(s, m, c)
    case Store(m, c) => DoStore(s, m, c)
    case Send(m, c) => DoSend(s, m, c)
    case SubmitFails(m, c) => DoSubmitFails(cfg, s, m, c)
    case Release(m, c) => LeaveRun(cfg, s, m, s.msgs[m].task, c)
  }

  function ApplyEnding(cfg: Config, s: State, a: Action): State
    requires EndingCan(s, a)
  {
    match a
    case Finish(m, outcome) => DoFinish(s, m, outcome)
    case Pause(m) => DoPause(s, m)
    case Write(m) => DoWrite(s, m)
    case WriteFails(m, counted) => DoWriteFails(s, m, counted)
    case Complete(m) => DoComplete(cfg, s, m)
    case CompleteFails(m) => DoCompleteFails(s, m)
  }

  function ApplyCancel(cfg: Config, s: State, a: Action): State
    requires CancelCan(s, a)
  {
    match a
    case Cancel(w, id, verb) => DoCancel(s, w, id, verb)
    case CancelRead(d) => DoCancelRead(s, d)
    case CancelWrite(d) => DoCancelWrite(s, d)
    case CancelSettle(d) => DoCancelSettle(cfg, s, d)
    case CancelLand(d) => DoCancelLand(s, d)
  }

  /** The process dies: the broker gets back every message it held, and the results stay as they were. */
  function DoCrash(s: State, w: Id): State {
    s.(msgs := map m | m in s.msgs :: if HeldBy(s, m, w) then Queued(s.msgs[m].req) else s.msgs[m],
       workers := s.workers - {w}, gone := s.gone + {w},
       cancels := map d | d in s.cancels && s.cancels[d].worker != w :: s.cancels[d])
  }

  /** The end of request_processor: settle the delivery as asked, then on_processing_done. */
  function DoSettle(s: State, m: Tag, asked: seq<Verb>): State
    requires OnWorker(s, m)
  {
    s.(msgs := Settled(s.msgs, m, asked), workers := Forget(s.workers, s.msgs[m].task.worker, s.msgs[m].req.id))
  }

  /** The message goes back, and nobody takes the request out of the waiting set. */
  function DoFatal(s: State, m: Tag): State
    requires OnWorker(s, m)
  {
    var d := DeliveryOf(s, m);
    DoSettle(s, m, [Nack]).(
      cancels := if d in s.cancels then s.cancels[d := s.cancels[d].(over := true)] else s.cancels,
      leaked := LeakedWith(s, m))
  }

  /** Worker.cancel up to its first await: drop the holder. */
  function DoCancel(s: State, w: Id, id: Id, verb: Verb): State
    requires CanCancel(s, w, id)
  {
    s.(workers := Forget(s.workers, w, id),
       cancels := s.cancels[DeliveryOf(s, s.workers[w].running[id]) := Cancellation(w, id, verb, Popped, false)])
  }

  predicate BeforeGate(s: State, d: Delivery) {
    Ours(s, d) && s.msgs[d.tag].task.Delivered?
  }

  /** It reads the result. */
  function DoCancelRead(s: State, d: Delivery): State
    requires d in s.cancels
  {
    var row := RowOrNew(s.rows, s.cancels[d].id);
    s.(rows := s.rows[s.cancels[d].id := row],
       cancels := s.cancels[d := s.cancels[d].(stage := Copied(row, BeforeGate(s, d)))])
  }

  /** The result was read in this delivery: either it did not get past the gate yet, or it had then. */
  predicate Timely(s: State, d: Delivery) {
    CancelCan(s, CancelWrite(d)) && !s.cancels[d].over && (s.cancels[d].stage.early ==> BeforeGate(s, d))
  }

  /** It suspends the result, from its copy, if that says RUNNING on this node. */
  function DoCancelWrite(s: State, d: Delivery): State
    requires CancelCan(s, CancelWrite(d))
  {
    var c := s.cancels[d];
    s.(rows := if c.Suspends() then s.rows[c.id := c.stage.row.Suspended()] else s.rows,
       cancels := s.cancels[d := c.(stage := Noted)],
       astray := if c.Suspends() && !Timely(s, d) then s.astray + {c.id} else s.astray)
  }

  /** A write of the handler that is under way is shielded, and outlives the delivery. */
  function AfterSettling(s: State, d: Delivery): map<Delivery, Cancellation>
    requires d in s.cancels
  {
    if Ours(s, d) && s.msgs[d.tag].task.Ended? then
      var t := s.msgs[d.tag].task;
      s.cancels[d := s.cancels[d].(stage := Outlived(t.local.Ended(t.outcome)))]
    else s.cancels - {d}
  }

  function AtBroker(s: State, d: Delivery): State
    requires d in s.cancels
  {
    s.(msgs := if Ours(s, d) then Settled(s.msgs, d.tag, [s.cancels[d].verb]) else s.msgs,
       cancels := AfterSettling(s, d))
  }

  /** So is a completion that is under way: it takes the request out of the waiting set. Nothing else does. */
  predicate Completes(s: State, d: Delivery) {
    Ours(s, d) && OnWorker(s, d.tag) && s.msgs[d.tag].task.Written?
  }

  /** _RequestProcessorHolder.cancel: settle the delivery and end its handler, unless it ended before. */
  function DoCancelSettle(cfg: Config, s: State, d: Delivery): State
    requires d in s.cancels
  {
    var s1 := AtBroker(s, d);
    if Completes(s, d) then
      var w := s.msgs[d.tag].task.worker;
      s1.(workers := s.workers[w := RemoveSuspended(cfg, s.workers[w], s.msgs[d.tag].req.id)])
    else if Ours(s, d) && Listed(s, d.tag) then s1.(leaked := s.leaked + {s.msgs[d.tag].req.id})
    else s1
  }

  /** The shielded write lands. */
  function DoCancelLand(s: State, d: Delivery): State
    requires CancelCan(s, CancelLand(d))
  {
    var c := s.cancels[d];
    s.(rows := s.rows[c.id := c.stage.row], cancels := s.cancels - {d}, astray := s.astray + {c.id})
  }

  function DoStoreRoot(s: State, c: Id): State {
    s.(rows := s.rows[c := Submitted(None)], used := s.used[c := None], stored := s.stored + {c})
  }

  function Publish(s: State, req: Request): State {
    s.(msgs := s.msgs[s.next := Queued(req)], next := s.next + 1, sent := s.sent[req.id := Post(req.stack, s.next)])
  }

  /** _process_request_message: start a task for the message and keep its holder. */
  function DoDeliver(s: State, w: Id, m: Tag): State
    requires w in s.workers && m in s.msgs
  {
    s.(msgs := s.msgs[m := Held(s.msgs[m].req, s.deliveries, Delivered(w))], deliveries := s.deliveries + 1,
       workers := s.workers[w := s.workers[w].(running := s.workers[w].running[s.msgs[m].req.id := m])])
  }

  /** _run_request from reading the result to start(), or until _on_complete when the request is discarded. */
  function DoGate(cfg: Config, s: State, m: Tag, late: bool, unknown: bool): State
    requires OnWorker(s, m)
  {
    var req, w := s.msgs[m].req, s.msgs[m].task.worker;
    var v := Judge(cfg, s.rows, req, late, unknown);
    if v.Start? then
      var row := Sentence(v, s.rows[req.id], w);
      s.(msgs := With(s.msgs, m, Running(w, row, {}, map[])), rows := s.rows[req.id := row],
         unheld := s.unheld - {req.id})
    else
      s.(msgs := With(s.msgs, m, Written(w, None, false)),
         unheld := if v.Missing? || v.AlreadyDone? then s.unheld else s.unheld - {req.id},
         rows := if v.Missing? then s.rows else s.rows[req.id := Sentence(v, s.rows[req.id], w)])
  }

  function DoSpawn(cfg: Config, s: State, m: Tag, c: Id, awaited: bool): State
    requires OnWorker(s, m) && Busy(s, m)
  {
    var t := s.msgs[m].task.(subs := s.msgs[m].task.subs[c := Chosen]);
    var s1 := if awaited then EnterRun(cfg, s, m, t, c) else s.(msgs := With(s.msgs, m, t));
    s1.(used := s.used[c := Some(m)])
  }

  function DoIndex(s: State, m: Tag, c: Id): State
    requires Submits(s, m, c)
  {
    var id, t := s.msgs[m].req.id, s.msgs[m].task;
    var kids := if id in s.children then s.children[id] else {};
    s.(msgs := With(s.msgs, m, t.(subs := t.subs[c := Indexed])), children := s.children[id := kids + {c}])
  }

  function DoStore(s: State, m: Tag, c: Id): State
    requires Submits(s, m, c)
  {
    var id, t := s.msgs[m].req.id, s.msgs[m].task;
    s.(msgs := With(s.msgs, m, t.(subs := t.subs[c := Stored])),
       rows := s.rows[c := Submitted(Some(id))], stored := s.stored + {c})
  }

  function DoSend(s: State, m: Tag, c: Id): State
    requires Submits(s, m, c)
  {
    var req, t := s.msgs[m].req, s.msgs[m].task;
    Publish(s.(msgs := With(s.msgs, m, t.(subs := t.subs - {c}))), Request(c, req.stack + [req.id]))
  }

  function DoSubmitFails(cfg: Config, s: State, m: Tag, c: Id): State
    requires OnWorker(s, m) && Submits(s, m, c)
  {
    var t := s.msgs[m].task.(subs := s.msgs[m].task.subs - {c});
    if c in t.deps then LeaveRun(cfg, s, m, t, c) else s.(msgs := With(s.msgs, m, t))
  }

  /** The ids left in a waiting set for good, when nobody will complete the delivery. */
  function LeakedWith(s: State, m: Tag): set<Id>
    requires m in s.msgs
  {
    if Listed(s, m) then s.leaked + {s.msgs[m].req.id} else s.leaked
  }

  /** The handler ended without its holder: nothing is written or completed. */
  function Unwritten(s: State, m: Tag): State
    requires OnWorker(s, m)
  {
    s.(msgs := With(s.msgs, m, Finished(s.msgs[m].task.worker)), unheld := s.unheld + {s.msgs[m].req.id},
       leaked := LeakedWith(s, m))
  }

  /** The handler returned or raised: its end is written if the holder is there, or if the arguments were invalid. */
  function DoFinish(s: State, m: Tag, outcome: ResultState): State
    requires OnWorker(s, m) && Busy(s, m)
  {
    var t := s.msgs[m].task;
    if Kept(s, m) || outcome.INVALID? then
      s.(msgs := With(s.msgs, m, Ended(t.worker, t.local, outcome, t.deps != {})))
    else Unwritten(s, m)
  }

  /** set_result and set_error store the outcome, from the stale copy. */
  function DoWrite(s: State, m: Tag): State
    requires OnWorker(s, m) && s.msgs[m].task.Ended?
  {
    var id, t := s.msgs[m].req.id, s.msgs[m].task;
    var row := t.local.Ended(t.outcome);
    s.(msgs := With(s.msgs, m, Written(t.worker, if t.outcome.SUCCESS? then Some(row) else None, t.waits)),
       rows := s.rows[id := row], unheld := if Kept(s, m) then s.unheld else s.unheld + {id})
  }

  /** Storing what a handler returned fails, perhaps after the copy was changed: that is an error of the handler. */
  function DoWriteFails(s: State, m: Tag, counted: bool): State
    requires OnWorker(s, m) && s.msgs[m].task.Ended?
  {
    var t := s.msgs[m].task;
    if Kept(s, m) then
      var local := if counted then t.local.Ended(t.outcome) else t.local;
      s.(msgs := With(s.msgs, m, Ended(t.worker, local, FAILURE, t.waits)))
    else Unwritten(s, m)
  }

  /** _on_complete: the request waits no longer. */
  function DoComplete(cfg: Config, s: State, m: Tag): State
    requires OnWorker(s, m)
  {
    var w := s.msgs[m].task.worker;
    s.(msgs := With(s.msgs, m, Finished(w)),
       workers := s.workers[w := RemoveSuspended(cfg, s.workers[w], s.msgs[m].req.id)])
  }

  /** It fails for a handler that returned: that is an error of the handler too. */
  function DoCompleteFails(s: State, m: Tag): State
    requires OnWorker(s, m) && s.msgs[m].task.Written? && s.msgs[m].task.again.Some?
  {
    var t := s.msgs[m].task;
    if Kept(s, m) then s.(msgs := With(s.msgs, m, Ended(t.worker, t.again.value, FAILURE, t.waits)))
    else s.(msgs := With(s.msgs, m, Finished(t.worker)), leaked := LeakedWith(s, m))
  }

  /** The handler raised Pause: suspend the result, again from the stale copy and if the holder is there. */
  function DoPause(s: State, m: Tag): State
    requires OnWorker(s, m) && Busy(s, m)
  {
    var id, t := s.msgs[m].req.id, s.msgs[m].task;
    if Kept(s, m) then
      s.(msgs := With(s.msgs, m, Pausing(t.worker)), rows := s.rows[id := t.local.Suspended()],
         workers := Forget(s.workers, t.worker, id))
    else Unwritten(s, m)
  }

  /** One visit of App.revoke: the walk over the children is any sequence of these. */
  function DoRevoke(s: State, id: Id, force: bool): State {
    var row := RowOrNew(s.rows, id);
    if !force && row.Done() then s
    else s.(rows := s.rows[id := row.Ended(REVOKED)], revoking := s.revoking + {id})
  }

  // ----- runs

  ghost predicate RunStep(cfg: Config, tr: seq<State>, acts: seq<Action>, i: nat)
    requires i < |acts| && |tr| == |acts| + 1
  {
    Enabled(cfg, tr[i], acts[i]) && tr[i + 1] == Apply(cfg, tr[i], acts[i])
  }

  /** `tr` are the states and `acts` the actions of a run from the empty system. */
  ghost predicate IsRun(cfg: Config, tr: seq<State>, acts: seq<Action>) {
    && |tr| == |acts| + 1
    && tr[0] == Init
    && forall i {:trigger RunStep(cfg, tr, acts, i)} | 0 <= i < |acts| :: RunStep(cfg, tr, acts, i)
  }
}
