/** The context of a handler (mognet/context/context.py): waiting for subtasks. */
module ContextModel {
  import opened Types
  import opened ResultModel
  import opened WorkerModel

  /** Context._suspend and _resume on the backend: only a RUNNING result is suspended, only a SUSPENDED one resumed. */
  function SuspendRow(rows: map<Id, Row>, id: Id): map<Id, Row> {
    if id in rows && rows[id].state.RUNNING? then rows[id := rows[id].Suspended()] else rows
  }

  function ResumeRow(rows: map<Id, Row>, id: Id): map<Id, Row> {
    if id in rows && rows[id].state.SUSPENDED? then rows[id := rows[id].Resumed()] else rows
  }

  /** One interleaving of Context.run calls: `Begin` is a call up to the submission, `End` its finally block. */
  datatype WaitEvent = Begin(c: Id) | End(c: Id)

  /** The dependencies after the events. */
  function Open(events: seq<WaitEvent>): set<Id> {
    if events == [] then {}
    else
      var deps := Open(events[..|events| - 1]);
      match events[|events| - 1]
      case Begin(c) => deps + {c}
      case End(c) => deps - {c}
  }

  /** Calls on distinct requests: none begins twice, and each ends after it began and ends once. */
  ghost predicate Distinct(events: seq<WaitEvent>) {
    forall i | 0 <= i < |events| ::
      match events[i]
      case Begin(c) => Begin(c) !in events[..i]
      case End(c) => c in Open(events[..i])
  }

  datatype Call = SuspendCall | ResumeCall

  /** What the result sees, in order: a suspend when the first dependency comes, a resume when the last goes. */
  function Calls(events: seq<WaitEvent>): seq<Call> {
    if events == [] then []
    else
      var before, deps := Open(events[..|events| - 1]), Open(events);
      Calls(events[..|events| - 1])
      + if before == {} && deps != {} then [SuspendCall]
        else if events[|events| - 1].End? && deps == {} then [ResumeCall]
        else []
  }

  predicate Alternates(calls: seq<Call>) {
    forall i | 0 <= i < |calls| :: calls[i] == if i % 2 == 0 then SuspendCall else ResumeCall
  }

  lemma Prefix(events: seq<WaitEvent>, n: nat)
    requires Distinct(events) && n <= |events|
    ensures Distinct(events[..n])
  {
    forall i | 0 <= i < n
      ensures match events[i]
              case Begin(c) => Begin(c) !in events[..n][..i]
              case End(c) => c in Open(events[..n][..i])
    {
      assert events[..n][..i] == events[..i];
    }
  }

  /** Suspends and resumes strictly alternate, and the last one was a suspend exactly while something is awaited. */
  lemma {:induction false} CallsAlternate(events: seq<WaitEvent>)
    requires Distinct(events)
    ensures Alternates(Calls(events))
    ensures |Calls(events)| % 2 == if Open(events) == {} then 0 else 1
  {
    if events != [] {
      var n := |events| - 1;
      Prefix(events, n);
      CallsAlternate(events[..n]);
    }
  }

  class Context {
    const request: Request
    const backend: ResultBackend
    const worker: Worker

    var deps: set<Id>

    constructor (request: Request, worker: Worker)
      ensures this.request == request && this.worker == worker && backend == worker.backend && deps == {}
    {
      this.request, this.worker, backend := request, worker, worker.backend;
      deps := {};
    }

    method Suspend() returns (lost: bool)
      modifies backend`rows, worker`waiting, worker`currentPrefetch, worker.channel
      ensures lost <==> request.id !in old(backend.rows)
      ensures backend.rows == SuspendRow(old(backend.rows), request.id)
      ensures !lost ==>
        var was := old(backend.rows)[request.id];
        backend.rows[request.id]
        == if was.state.RUNNING? then Row(SUSPENDED, was.starts, was.stops + 1, was.node, was.parent) else was
      ensures worker.waiting == old(worker.waiting) + if lost then {} else {request.id}
      ensures worker.View()
        == if lost then old(worker.View()) else AddWaiting(worker.cfg, old(worker.View()), request.id)
    {
      var result := backend.Get(request.id);
      if result == null {
        return true;
      }
      if result.state.RUNNING? {
        result.Suspend();
      }
      worker.AddWaitingTask(request.id);
      lost := false;
    }

    method Resume() returns (lost: bool)
      modifies backend`rows, worker`waiting, worker`currentPrefetch, worker.channel
      ensures lost <==> request.id !in old(backend.rows)
      ensures backend.rows == ResumeRow(old(backend.rows), request.id)
      ensures !lost ==>
        var was := old(backend.rows)[request.id];
        backend.rows[request.id]
        == if was.state.SUSPENDED? then Row(RUNNING, was.starts + 1, was.stops, was.node, was.parent) else was
      ensures worker.waiting == old(worker.waiting) - if lost then {} else {request.id}
      ensures worker.View()
        == if lost then old(worker.View()) else RemoveSuspended(worker.cfg, old(worker.View()), request.id)
    {
      var result := backend.Get(request.id);
      if result == null {
        return true;
      }
      if result.state.SUSPENDED? {
        result.Resume();
      }
      worker.RemoveSuspendedTask(request.id);
      lost := false;
    }

    /** run, up to the submission of the child. */
    method BeginRun(c: Id) returns (lost: bool)
      modifies this, backend`rows, worker`waiting, worker`currentPrefetch, worker.channel
      ensures deps == old(deps) + {c}
      ensures lost <==> old(deps) == {} && request.id !in old(backend.rows)
      ensures backend.rows == if old(deps) == {} then SuspendRow(old(backend.rows), request.id) else old(backend.rows)
      ensures worker.View()
        == if old(deps) == {} && !lost then AddWaiting(worker.cfg, old(worker.View()), request.id)
           else old(worker.View())
    {
      var hadDependencies := deps != {};
      deps := deps + {c};
      lost := false;
      if !hadDependencies && deps != {} {
        lost := Suspend();
      }
    }

    /** The finally block of run. */
    method EndRun(c: Id, cancelled: bool) returns (lost: bool)
      requires c in deps
      modifies this, backend`rows, worker`waiting, worker`currentPrefetch, worker.channel
      ensures deps == old(deps) - {c}
      ensures lost <==> deps == {} && !cancelled && request.id !in old(backend.rows)
      ensures backend.rows
        == if deps == {} && !cancelled then ResumeRow(old(backend.rows), request.id) else old(backend.rows)
      ensures worker.View()
        == if deps == {} && !cancelled && !lost then RemoveSuspended(worker.cfg, old(worker.View()), request.id)
           else old(worker.View())
    {
      deps := deps - {c};
      lost := false;
      if deps == {} && !cancelled {
        lost := Resume();
      }
    }
  }

  /** The result of a handler that had `n` suspends and resumes. */
  ghost predicate Counted(before: Row, after: Row, n: nat) {
    && after.stops == before.stops + (n + 1) / 2
    && after.starts == before.starts + n / 2
    && after.state == if n % 2 == 0 then RUNNING else SUSPENDED
  }

  /** One event, for a handler whose result mirrors its dependencies. */
  method Take(context: Context, e: WaitEvent)
    requires context.backend == context.worker.backend
    requires e.End? ==> e.c in context.deps
    requires context.request.id in context.backend.rows
    requires context.backend.rows[context.request.id].state == if context.deps == {} then RUNNING else SUSPENDED
    modifies context, context.backend`rows
    modifies context.worker`waiting, context.worker`currentPrefetch, context.worker.channel
    ensures context.deps == if e.Begin? then old(context.deps) + {e.c} else old(context.deps) - {e.c}
    ensures context.request.id in context.backend.rows
    ensures
      var was, row := old(context.backend.rows[context.request.id]), context.backend.rows[context.request.id];
      if e.Begin? && old(context.deps) == {} then
        row == was.Suspended() && context.worker.waiting == old(context.worker.waiting) + {context.request.id}
      else if e.End? && context.deps == {} then
        row == was.Resumed() && context.worker.waiting == old(context.worker.waiting) - {context.request.id}
      else row == was && context.worker.waiting == old(context.worker.waiting)
  {
    match e
    case Begin(c) => var _ := context.BeginRun(c);
    case End(c) => var _ := context.EndRun(c, false);
    assert context.worker.waiting == context.worker.View().waiting;
  }

  /**
   Any interleaving of calls on distinct requests inside one handler, nothing being cancelled: the task
   is in the waiting set exactly while a dependency is open, and its result is suspended and resumed in
   turns.
   */
  method Overlap(context: Context, events: seq<WaitEvent>)
    requires Distinct(events) && context.deps == {} && context.backend == context.worker.backend
    requires context.request.id in context.backend.rows && context.backend.rows[context.request.id].state.RUNNING?
    requires context.request.id !in context.worker.waiting
    modifies context, context.backend`rows
    modifies context.worker`waiting, context.worker`currentPrefetch, context.worker.channel
    ensures context.deps == Open(events)
    ensures context.worker.waiting
      == old(context.worker.waiting) + if Open(events) == {} then {} else {context.request.id}
    ensures context.request.id in context.backend.rows
    ensures Counted(old(context.backend.rows[context.request.id]),
                    context.backend.rows[context.request.id], |Calls(events)|)
    ensures Alternates(Calls(events))
  {
    var id := context.request.id;
    for i := 0 to |events|
      invariant context.deps == Open(events[..i])
      invariant context.worker.waiting
        == old(context.worker.waiting) + if Open(events[..i]) == {} then {} else {id}
      invariant id in context.backend.rows
      invariant Counted(old(context.backend.rows[id]), context.backend.rows[id], |Calls(events[..i])|)
    {
      assert events[..i + 1][..i] == events[..i];
      Prefix(events, i);
      CallsAlternate(events[..i]);
      Take(context, events[i]);
    }
    assert events[..|events|] == events;
    CallsAlternate(events);
  }
}
