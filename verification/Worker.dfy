/** The worker (mognet/worker/worker.py): prefetch, waiting tasks and the gate before a handler starts. */
module WorkerModel {
  import opened Types
  import opened ResultModel
  import opened Settlement

  /**
   A worker process. `running` is `running_tasks` (a holder is named by the tag of its message),
   `prefetch` is `_current_prefetch`, and `limit` is what the broker was last told.
   */
  datatype WorkerState = WorkerState(
    running: map<Id, Tag>, waiting: set<Id>, prefetch: nat, limit: nat, consuming: bool)

  function Target(cfg: Config, waiting: nat): nat {
    var prefetch := waiting + cfg.minimum;
    if cfg.maximum.Some? && prefetch >= cfg.maximum.value then cfg.maximum.value else prefetch
  }

  /** _adjust_prefetch: nothing while not consuming, and an equal value is not sent again. */
  function Adjust(cfg: Config, w: WorkerState): (r: WorkerState)
    ensures r.running == w.running && r.waiting == w.waiting && r.consuming == w.consuming
    ensures w.prefetch == w.limit ==> r.prefetch == r.limit
    ensures w.consuming ==> r.prefetch == Target(cfg, |w.waiting|)
    ensures w.consuming && (cfg.maximum.None? || |w.waiting| + cfg.minimum <= cfg.maximum.value) ==>
              r.prefetch == |w.waiting| + cfg.minimum
    ensures w.consuming && cfg.maximum.Some? && |w.waiting| + cfg.minimum > cfg.maximum.value ==>
              r.prefetch == cfg.maximum.value
    ensures !w.consuming || r.prefetch == w.prefetch ==> r == w
  {
    var target := Target(cfg, |w.waiting|);
    if !w.consuming || target == w.prefetch then w
    else w.(prefetch := target, limit := target)
  }

  function AddWaiting(cfg: Config, w: WorkerState, id: Id): WorkerState {
    Adjust(cfg, w.(waiting := w.waiting + {id}))
  }

  function RemoveSuspended(cfg: Config, w: WorkerState, id: Id): WorkerState {
    Adjust(cfg, w.(waiting := w.waiting - {id}))
  }

  /** A connected worker that begins to consume: the broker starts at a prefetch of 1. */
  function Fresh(cfg: Config): WorkerState {
    Adjust(cfg, WorkerState(map[], {}, 1, 1, true))
  }

  /** AMQP basic.qos: a prefetch count of zero means no limit. */
  predicate Admits(limit: nat, unacked: nat) {
    limit == 0 || unacked < limit
  }

  datatype Verdict =
    | Missing | AlreadyDone | TooManyRetries | TooDeep | ParentMissing | ParentRevoked | Late | UnknownTask
    | Start

  /** The nearest ancestor that forbids a start, looking from the parent up to the root. */
  function BadAncestor(rows: map<Id, Row>, stack: seq<Id>): (r: Option<Verdict>)
    ensures r.Some? ==> r.value.ParentMissing? || r.value.ParentRevoked?
  {
    if stack == [] then None
    else
      var p := stack[|stack| - 1];
      if p !in rows then Some(ParentMissing)
      else if rows[p].state.REVOKED? then Some(ParentRevoked)
      else BadAncestor(rows, stack[..|stack| - 1])
  }

  /** What _run_request decides before it calls the handler; `late` and `unknown` are the clock and the registry. */
  function Judge(cfg: Config, rows: map<Id, Row>, req: Request, late: bool, unknown: bool): Verdict {
    if req.id !in rows then Missing
    else if rows[req.id].Done() then AlreadyDone
    else if rows[req.id].RetryCount() > cfg.maxRetries then TooManyRetries
    else if |req.stack| > cfg.maxRecursion then TooDeep
    else if BadAncestor(rows, req.stack).Some? then BadAncestor(rows, req.stack).value
    else if late then Late
    else if unknown then UnknownTask
    else Start
  }

  ghost predicate GoodAncestor(rows: map<Id, Row>, id: Id) {
    id in rows && !rows[id].state.REVOKED?
  }

  /** No ancestor stands in the way exactly if all of them are known and not REVOKED. */
  lemma {:induction false} AncestorsIff(rows: map<Id, Row>, stack: seq<Id>)
    ensures BadAncestor(rows, stack).None? <==> forall k | 0 <= k < |stack| :: GoodAncestor(rows, stack[k])
    ensures BadAncestor(rows, stack).None? <==> forall p | p in stack :: p in rows && !rows[p].state.REVOKED?
  {
    if stack != [] {
      var n := |stack| - 1;
      AncestorsIff(rows, stack[..n]);
      assert forall k | 0 <= k < n :: stack[..n][k] == stack[k];
    }
  }

  /** The verdict on the ancestors is about the nearest bad one. */
  lemma {:induction false} NearestAncestor(rows: map<Id, Row>, stack: seq<Id>, k: nat)
    requires k < |stack| && !GoodAncestor(rows, stack[k])
    requires forall j | k < j < |stack| :: GoodAncestor(rows, stack[j])
    ensures BadAncestor(rows, stack) == Some(if stack[k] in rows then ParentRevoked else ParentMissing)
    decreases |stack|
  {
    if k < |stack| - 1 {
      assert GoodAncestor(rows, stack[|stack| - 1]);
      NearestAncestor(rows, stack[..|stack| - 1], k);
    }
  }

  /** A handler is started exactly if nothing speaks against it. */
  lemma StartIff(cfg: Config, rows: map<Id, Row>, req: Request, late: bool, unknown: bool)
    ensures Judge(cfg, rows, req, late, unknown).Start? <==>
      && req.id in rows && rows[req.id].state in {PENDING, RUNNING, SUSPENDED} && !late && !unknown
      && rows[req.id].starts - rows[req.id].stops <= cfg.maxRetries
      && |req.stack| <= cfg.maxRecursion
      && forall p | p in req.stack :: p in rows && !rows[p].state.REVOKED?
  {
    AncestorsIff(rows, req.stack);
  }

  /** What the gate stores for the verdict. */
  function Sentence(v: Verdict, row: Row, node: Id): (r: Row)
    ensures r.parent == row.parent
    ensures v.Start? <==> r.starts > row.starts
  {
    match v
    case Start => row.Started(Some(node))
    case TooManyRetries => row.Ended(FAILURE)
    case TooDeep => row.Ended(FAILURE)
    case ParentMissing => row.Ended(REVOKED)
    case ParentRevoked => row.Ended(REVOKED)
    case Late => row.Ended(REVOKED)
    case UnknownTask => row.Ended(INVALID)
    case Missing => row
    case AlreadyDone => row
  }

  /** What the gate does to the results, condition by condition. */
  lemma GateMeans(cfg: Config, rows: map<Id, Row>, req: Request, late: bool, unknown: bool, node: Id)
    ensures req.id !in rows ==> GatedRows(cfg, rows, req, late, unknown, node) == rows
    ensures req.id in rows && rows[req.id].state in {SUCCESS, FAILURE, REVOKED, INVALID} ==>
              GatedRows(cfg, rows, req, late, unknown, node) == rows
    ensures req.id in rows && rows[req.id].state in {PENDING, RUNNING, SUSPENDED} ==>
      var was := rows[req.id];
      GatedRows(cfg, rows, req, late, unknown, node)
      == rows[req.id :=
           if was.starts - was.stops > cfg.maxRetries || |req.stack| > cfg.maxRecursion then
             Row(FAILURE, was.starts, was.stops + 1, was.node, was.parent)
           else if late || exists p :: p in req.stack && (p !in rows || rows[p].state.REVOKED?) then
             Row(REVOKED, was.starts, was.stops + 1, was.node, was.parent)
           else if unknown then Row(INVALID, was.starts, was.stops + 1, was.node, was.parent)
           else Row(RUNNING, was.starts + 1, was.stops, Some(node), was.parent)]
  {
    AncestorsIff(rows, req.stack);
  }

  /** The broker's task channel: what it was last told about prefetching. */
  class TaskChannel {
    var limit: nat

    constructor ()
      ensures limit == 1
    {
      limit := 1;
    }

    method SetTaskPrefetch(prefetch: nat)
      modifies this
      ensures limit == prefetch
    {
      limit := prefetch;
    }
  }

  /** How a handler ends, once it was called. */
  datatype Ending = Returned(value: Value) | Raised(error: Value, timedOut: bool) | Rejected(error: Value) | Paused

  /** The state that the ending asks for; a pause leaves the result open. */
  function Outcome(ending: Ending): ResultState
    requires !ending.Paused?
  {
    match ending
    case Returned(_) => SUCCESS
    case Raised(_, timedOut) => if timedOut then REVOKED else FAILURE
    case Rejected(_) => INVALID
  }

  /** The results after the gate. */
  function GatedRows(cfg: Config, rows: map<Id, Row>, req: Request, late: bool, unknown: bool, node: Id): map<Id, Row> {
    var v := Judge(cfg, rows, req, late, unknown);
    if v.Missing? then rows else rows[req.id := Sentence(v, rows[req.id], node)]
  }

  /** What came of storing the end of a handler: the object, what is stored if anything, and whether all went well. */
  datatype Attempt = Attempt(local: Row, stored: Option<Row>, ok: bool)

  function Try(local: Row, outcome: ResultState, fault: Fault): Attempt {
    match fault
    case Fine => Attempt(local.Ended(outcome), Some(local.Ended(outcome)), true)
    case NoValue => Attempt(local, None, false)
    case NoUpdate => Attempt(local.Ended(outcome), None, false)
    case NoClear => Attempt(local.Ended(outcome), Some(local.Ended(outcome)), false)
  }

  /** A failure of the first try counts as an error of a handler that returned, and is stored with the same object. */
  function EndOf(local: Row, ending: Ending, first: Fault, second: Fault): Attempt
    requires !ending.Paused?
  {
    var one := Try(local, Outcome(ending), first);
    if one.ok || !ending.Returned? then one
    else
      var two := Try(one.local, FAILURE, second);
      two.(stored := if two.stored.Some? then two.stored else one.stored)
  }

  /**
   How the end of a handler can be stored. If nothing fails, the state is that of the ending. Otherwise only a
   handler that returned has its failures stored: as FAILURE, with two stops if the object had changed before.
   Nothing is stored exactly if no try got so far; and an error is fatal exactly if the last try failed.
   */
  lemma EndedIff(local: Row, ending: Ending, first: Fault, second: Fault)
    requires !ending.Paused?
    ensures var e := EndOf(local, ending, first, second);
            var early, again := first.NoValue? || first.NoUpdate?, second.NoValue? || second.NoUpdate?;
            var asked := match ending
                         case Returned(_) => SUCCESS
                         case Raised(_, true) => REVOKED
                         case Raised(_, false) => FAILURE
                         case Rejected(_) => INVALID;
      && (first.Fine? ==>
            e.ok && e.stored == Some(Row(asked, local.starts, local.stops + 1, local.node, local.parent)))
      && (e.ok <==> first.Fine? || (ending.Returned? && second.Fine?))
      && (e.stored.None? <==> early && (ending.Returned? ==> again))
      && (e.stored.Some? ==>
            var failed := ending.Returned? && !first.Fine? && !again;
            var twice := failed && !first.NoValue?;
            e.stored.value == Row(if failed then FAILURE else asked, local.starts,
                                  local.stops + (if twice then 2 else 1), local.node, local.parent))
  {
  }

  /** The value of an ending; a pause has none. */
  function ValueOf(ending: Ending): Value {
    match ending
    case Returned(value) => value
    case Raised(error, _) => error
    case Rejected(error) => error
    case Paused => ""
  }

  /** The stored values after a handler ended that kept its holder. */
  function EndedValues(values: map<Id, Value>, id: Id, ending: Ending, first: Fault, second: Fault): map<Id, Value> {
    if ending.Paused? then values
    else
      var one := if first.NoValue? then values else values[id := ValueOf(ending)];
      if first.Fine? || !ending.Returned? || second.NoValue? then one else one[id := "error"]
  }

  /** The results after a handler ended that kept its holder. */
  function EndedRows(rows: map<Id, Row>, id: Id, local: Row, ending: Ending, first: Fault, second: Fault)
    : map<Id, Row>
  {
    if ending.Paused? then rows[id := local.Suspended()]
    else
      var stored := EndOf(local, ending, first, second).stored;
      if stored.Some? then rows[id := stored.value] else rows
  }

  predicate IsFatal(local: Row, ending: Ending, first: Fault, second: Fault) {
    !ending.Paused? && !EndOf(local, ending, first, second).ok
  }

  /** The results after one delivery was processed without interruption. */
  function ProcessedRows(cfg: Config, rows: map<Id, Row>, req: Request, late: bool, unknown: bool, node: Id,
                         ending: Ending, first: Fault, second: Fault): map<Id, Row> {
    var gated := GatedRows(cfg, rows, req, late, unknown, node);
    if !Judge(cfg, rows, req, late, unknown).Start? then gated
    else EndedRows(gated, req.id, gated[req.id], ending, first, second)
  }

  /** The value that the gate stores for a discarded request. */
  function Reason(v: Verdict): Value {
    match v
    case TooManyRetries => "TooManyRetries"
    case TooDeep => "RecursionError"
    case UnknownTask => "UnknownTask"
    case Late => "TimeoutError"
    case _ => "parent missing or revoked"
  }

  function GatedValues(cfg: Config, rows: map<Id, Row>, values: map<Id, Value>, req: Request, late: bool, unknown: bool)
    : map<Id, Value>
  {
    var v := Judge(cfg, rows, req, late, unknown);
    if v.Start? || v.Missing? || v.AlreadyDone? then values else values[req.id := Reason(v)]
  }

  /** The stored values after one delivery was processed without interruption. */
  function ProcessedValues(cfg: Config, rows: map<Id, Row>, values: map<Id, Value>, req: Request, late: bool,
                           unknown: bool, ending: Ending, first: Fault, second: Fault): map<Id, Value> {
    if Judge(cfg, rows, req, late, unknown).Start? then EndedValues(values, req.id, ending, first, second)
    else GatedValues(cfg, rows, values, req, late, unknown)
  }

  /** What one delivery leaves of a request that starts, ending by ending, if nothing fails. */
  lemma ProcessedMeans(cfg: Config, rows: map<Id, Row>, values: map<Id, Value>, req: Request, late: bool, unknown: bool,
                       node: Id, ending: Ending, second: Fault)
    requires Judge(cfg, rows, req, late, unknown).Start?
    ensures req.id in rows
    ensures var was := rows[req.id];
            var after := ProcessedRows(cfg, rows, req, late, unknown, node, ending, Fine, second);
            var stored := ProcessedValues(cfg, rows, values, req, late, unknown, ending, Fine, second);
            var ended := (state: ResultState) => Row(state, was.starts + 1, was.stops + 1, Some(node), was.parent);
            match ending
            case Returned(v) => after == rows[req.id := ended(SUCCESS)] && stored == values[req.id := v]
            case Raised(e, true) => after == rows[req.id := ended(REVOKED)] && stored == values[req.id := e]
            case Raised(e, false) => after == rows[req.id := ended(FAILURE)] && stored == values[req.id := e]
            case Rejected(e) => after == rows[req.id := ended(INVALID)] && stored == values[req.id := e]
            case Paused => after == rows[req.id := ended(SUSPENDED)] && stored == values
  {
  }

  /** With faults too, a request that starts ends from the row that the gate stored. */
  lemma ProcessedFaulty(cfg: Config, rows: map<Id, Row>, values: map<Id, Value>, req: Request, late: bool,
                        unknown: bool, node: Id, ending: Ending, first: Fault, second: Fault)
    requires Judge(cfg, rows, req, late, unknown).Start?
    ensures req.id in rows
    ensures var was := rows[req.id];
            var running := Row(RUNNING, was.starts + 1, was.stops, Some(node), was.parent);
      && ProcessedRows(cfg, rows, req, late, unknown, node, ending, first, second)
         == EndedRows(rows[req.id := running], req.id, running, ending, first, second)
      && ProcessedValues(cfg, rows, values, req, late, unknown, ending, first, second)
         == EndedValues(values, req.id, ending, first, second)
  {
    var gated := GatedRows(cfg, rows, req, late, unknown, node);
    assert gated == rows[req.id := rows[req.id].Started(Some(node))];
    assert ProcessedRows(cfg, rows, req, late, unknown, node, ending, first, second)
      == EndedRows(gated, req.id, gated[req.id], ending, first, second);
  }

  /** What is stored when something fails: the result, the value, and when the failure leaves _run_request. */
  lemma FaultyEnd(rows: map<Id, Row>, values: map<Id, Value>, id: Id, local: Row, ending: Ending, first: Fault,
                  second: Fault)
    requires !ending.Paused? && !first.Fine?
    ensures IsFatal(local, ending, first, second) <==> !(ending.Returned? && second.Fine?)
    ensures var ended := (state: ResultState, stops: nat) => Row(state, local.starts, stops, local.node, local.parent);
            var after := EndedRows(rows, id, local, ending, first, second);
            match ending
            case Returned(_) =>
              if second.Fine? || second.NoClear? then
                after == rows[id := ended(FAILURE, local.stops + if first.NoValue? then 1 else 2)]
              else after == if first.NoClear? then rows[id := ended(SUCCESS, local.stops + 1)] else rows
            case Raised(_, timedOut) =>
              after == if first.NoClear? then rows[id := ended(if timedOut then REVOKED else FAILURE, local.stops + 1)]
                       else rows
            case Rejected(_) => after == if first.NoClear? then rows[id := ended(INVALID, local.stops + 1)] else rows
    ensures var after := EndedValues(values, id, ending, first, second);
            match ending
            case Returned(v) =>
              after == if !second.NoValue? then values[id := "error"]
                       else if first.NoValue? then values else values[id := v]
            case Raised(e, _) => after == if first.NoValue? then values else values[id := e]
            case Rejected(e) => after == if first.NoValue? then values else values[id := e]
  {
  }

  /** running_tasks, with each holder named by the tag of its message. */
  function Tags(running: map<Id, Holder>): map<Id, Tag> {
    map id | id in running :: running[id].message.tag
  }

  class Worker {
    const cfg: Config
    const node: Id
    const backend: ResultBackend
    const channel: TaskChannel

    var running: map<Id, Holder>
    var waiting: set<Id>
    var currentPrefetch: nat
    var consuming: bool

    function View(): WorkerState
      reads this, channel
    {
      WorkerState(Tags(running), waiting, currentPrefetch, channel.limit, consuming)
    }

    constructor (cfg: Config, node: Id, backend: ResultBackend, channel: TaskChannel)
      ensures this.cfg == cfg && this.node == node && this.backend == backend && this.channel == channel
      ensures View() == WorkerState(map[], {}, 1, channel.limit, false)
    {
      this.cfg, this.node, this.backend, this.channel := cfg, node, backend, channel;
      running, waiting, currentPrefetch, consuming := map[], {}, 1, false;
    }

    method StartConsuming()
      modifies this, channel
      ensures running == old(running)
      ensures View() == if old(consuming) then old(View()) else Adjust(cfg, old(View()).(consuming := true))
      ensures consuming && waiting == old(waiting)
      ensures !old(consuming) ==>
        currentPrefetch == if cfg.maximum.None? || |waiting| + cfg.minimum <= cfg.maximum.value
                           then |waiting| + cfg.minimum else cfg.maximum.value
    {
      if consuming {
        return;
      }
      consuming := true;
      AdjustPrefetch();
    }

    method AdjustPrefetch()
      modifies this`currentPrefetch, channel
      ensures View() == Adjust(cfg, old(View()))
      ensures currentPrefetch
        == if !consuming then old(currentPrefetch)
           else if cfg.maximum.None? || |waiting| + cfg.minimum <= cfg.maximum.value then |waiting| + cfg.minimum
           else cfg.maximum.value
      ensures channel.limit
        == if currentPrefetch == old(currentPrefetch) then old(channel.limit) else currentPrefetch
    {
      if !consuming {
        return;
      }
      var prefetch := |waiting| + cfg.minimum;
      if cfg.maximum.Some? && prefetch >= cfg.maximum.value {
        prefetch := cfg.maximum.value;
      }
      if prefetch == currentPrefetch {
        return;
      }
      currentPrefetch := prefetch;
      channel.SetTaskPrefetch(prefetch);
    }

    method AddWaitingTask(id: Id)
      modifies this`waiting, this`currentPrefetch, channel
      ensures View() == AddWaiting(cfg, old(View()), id)
      ensures waiting == old(waiting) + {id}
    {
      waiting := waiting + {id};
      AdjustPrefetch();
    }

    method RemoveSuspendedTask(id: Id)
      modifies this`waiting, this`currentPrefetch, channel
      ensures View() == RemoveSuspended(cfg, old(View()), id)
      ensures waiting == old(waiting) - {id}
    {
      waiting := waiting - {id};
      AdjustPrefetch();
    }

    /** The loop over reversed(req.stack). */
    method CheckAncestors(stack: seq<Id>) returns (bad: Option<Verdict>)
      ensures bad == BadAncestor(backend.rows, stack)
    {
      var i := |stack|;
      assert stack[..i] == stack;
      while i > 0
        invariant 0 <= i <= |stack|
        invariant BadAncestor(backend.rows, stack) == BadAncestor(backend.rows, stack[..i])
      {
        i := i - 1;
        assert stack[..i + 1][..i] == stack[..i];
        var parent := backend.Get(stack[i]);
        if parent == null {
          return Some(ParentMissing);
        }
        if parent.state.REVOKED? {
          return Some(ParentRevoked);
        }
      }
      bad := None;
    }

    /** The checks on a request that is not done, in order: retries, recursion, ancestors, deadline, registry. */
    method CheckRequest(req: Request, result: Result, late: bool, unknown: bool) returns (verdict: Verdict)
      requires req.id in backend.rows && result.View() == backend.rows[req.id] && !result.View().Done()
      ensures verdict == Judge(cfg, backend.rows, req, late, unknown)
    {
      if result.View().RetryCount() > cfg.maxRetries {
        return TooManyRetries;
      }
      if req.stack != [] {
        if |req.stack| > cfg.maxRecursion {
          return TooDeep;
        }
        var bad := CheckAncestors(req.stack);
        if bad.Some? {
          return bad.value;
        }
      }
      if late {
        return Late;
      }
      if unknown {
        return UnknownTask;
      }
      verdict := Start;
    }

    /** set_result or set_error, then _on_complete, which clears the state first. */
    method Complete(result: Result, value: Value, outcome: ResultState, fault: Fault) returns (ok: bool)
      requires result.backend == backend
      modifies this`waiting, this`currentPrefetch, channel, result, backend`rows, backend`values
      ensures ok <==> fault.Fine?
      ensures result.View() == Try(old(result.View()), outcome, fault).local
      ensures result.View()
        == if fault.NoValue? then old(result.View())
           else Row(outcome, old(result.starts), old(result.stops) + 1, old(result.node), old(result.parent))
      ensures backend.rows
        == if fault.Fine? || fault.NoClear? then old(backend.rows)[result.id := result.View()] else old(backend.rows)
      ensures backend.values
        == if fault.NoValue? then old(backend.values) else old(backend.values)[result.id := value]
      ensures View() == if ok then RemoveSuspended(cfg, old(View()), result.id) else old(View())
    {
      var stored := result.SetOutcome(value, outcome, fault);
      if !stored || fault.NoClear? {
        return false;
      }
      RemoveSuspendedTask(result.id);
      ok := true;
    }

    /** The head of _run_request, up to the call of the handler. */
    method Gate(req: Request, late: bool, unknown: bool) returns (verdict: Verdict, result: Result?)
      modifies this`waiting, this`currentPrefetch, channel, backend`rows, backend`values
      ensures verdict == Judge(cfg, old(backend.rows), req, late, unknown)
      ensures backend.rows == GatedRows(cfg, old(backend.rows), req, late, unknown, node)
      ensures backend.values == GatedValues(cfg, old(backend.rows), old(backend.values), req, late, unknown)
      ensures req.id !in old(backend.rows)
              || old(backend.rows)[req.id].state in {SUCCESS, FAILURE, REVOKED, INVALID} ==>
                backend.rows == old(backend.rows) && backend.values == old(backend.values)
      ensures req.id in old(backend.rows) && old(backend.rows)[req.id].state in {PENDING, RUNNING, SUSPENDED} ==>
        var was := old(backend.rows)[req.id];
        backend.rows
        == old(backend.rows)[req.id :=
             if was.starts - was.stops > cfg.maxRetries || |req.stack| > cfg.maxRecursion then
               Row(FAILURE, was.starts, was.stops + 1, was.node, was.parent)
             else if late || exists p :: p in req.stack
                                    && (p !in old(backend.rows) || old(backend.rows)[p].state.REVOKED?) then
               Row(REVOKED, was.starts, was.stops + 1, was.node, was.parent)
             else if unknown then Row(INVALID, was.starts, was.stops + 1, was.node, was.parent)
             else Row(RUNNING, was.starts + 1, was.stops, Some(node), was.parent)]
      ensures View() == if verdict.Start? then old(View()) else RemoveSuspended(cfg, old(View()), req.id)
      ensures verdict.Start? ==>
        && result != null && fresh(result) && result.id == req.id && result.backend == backend
        && result.View() == backend.rows[req.id]
    {
      GateMeans(cfg, backend.rows, req, late, unknown, node);
      result := backend.Get(req.id);
      if result == null {
        RemoveSuspendedTask(req.id);
        return Missing, null;
      }
      if result.View().Done() {
        RemoveSuspendedTask(req.id);
        return AlreadyDone, result;
      }
      verdict := CheckRequest(req, result, late, unknown);
      CarryOut(verdict, result);
    }

    /** What the gate does about a request that is not done: start it, or store why it is discarded. */
    method CarryOut(verdict: Verdict, result: Result)
      requires !verdict.Missing? && !verdict.AlreadyDone? && result.backend == backend
      modifies this`waiting, this`currentPrefetch, channel, backend`rows, backend`values, result
      ensures result.View() == Sentence(verdict, old(result.View()), node)
      ensures backend.rows == old(backend.rows)[result.id := result.View()]
      ensures backend.values
        == if verdict.Start? then old(backend.values) else old(backend.values)[result.id := Reason(verdict)]
      ensures verdict.Start? ==>
        result.View() == Row(RUNNING, old(result.starts) + 1, old(result.stops), Some(node), old(result.parent))
      ensures !verdict.Start? ==>
        && result.View() == old(result.View()).(state := result.state, stops := old(result.stops) + 1)
        && result.state == (match verdict
                            case TooManyRetries => FAILURE
                            case TooDeep => FAILURE
                            case UnknownTask => INVALID
                            case _ => REVOKED)
      ensures View() == if verdict.Start? then old(View()) else RemoveSuspended(cfg, old(View()), result.id)
    {
      var ok := true;
      if verdict.Start? {
        result.Start(Some(node));
      } else if verdict.TooManyRetries? {
        ok := Complete(result, "TooManyRetries", FAILURE, Fine);
      } else if verdict.TooDeep? {
        ok := Complete(result, "RecursionError", FAILURE, Fine);
      } else if verdict.UnknownTask? {
        ok := Complete(result, "UnknownTask", INVALID, Fine);
      } else {
        ok := Complete(result, if verdict.Late? then "TimeoutError" else "parent missing or revoked", REVOKED, Fine);
      }
    }

    /** The handler raised Pause: suspend the result and give the message back, if the request still runs here. */
    method PauseTask(id: Id, result: Result)
      requires result.id == id && result.backend == backend
      requires id in running ==> running[id].Valid()
      modifies this`running, result, backend`rows
      modifies if id in running then {running[id].message} else {}
      ensures running == old(running) - {id}
      ensures id !in old(running) ==> backend.rows == old(backend.rows)
      ensures id in old(running) ==>
        && backend.rows == old(backend.rows)[id := old(result.View()).Suspended()]
        && backend.rows[id]
           == Row(SUSPENDED, old(result.starts), old(result.stops) + 1, old(result.node), old(result.parent))
        && old(running[id]).message.Valid()
        && old(running[id]).message.asked == old(running[id].message.asked) + [Nack]
    {
      if id in running {
        var holder := running[id];
        running := running - {id};
        result.Suspend();
        holder.message.Settle(Nack);
      }
    }

    /**
     The handler returned or raised; `result` is the copy read before the start. What fails on a handler that
     returned is an error of that handler; what fails otherwise leaves _run_request.
     */
    method EndTask(id: Id, result: Result, ending: Ending, first: Fault, second: Fault) returns (fatal: bool)
      requires result.id == id && result.backend == backend && !ending.Paused?
      modifies this`waiting, this`currentPrefetch, channel, result, backend`rows, backend`values
      ensures
        if id in old(running) || ending.Rejected? then
          && backend.rows == EndedRows(old(backend.rows), id, old(result.View()), ending, first, second)
          && backend.values == EndedValues(old(backend.values), id, ending, first, second)
          && (fatal <==> IsFatal(old(result.View()), ending, first, second))
          && View() == if fatal then old(View()) else RemoveSuspended(cfg, old(View()), id)
        else
          && backend.rows == old(backend.rows) && backend.values == old(backend.values)
          && View() == old(View()) && !fatal
      ensures first.Fine? && (id in old(running) || ending.Rejected?) ==>
        && !fatal && id in backend.rows
        && backend.rows[id] == old(result.View()).(state := backend.rows[id].state, stops := old(result.stops) + 1)
        && match ending
           case Returned(v) => backend.rows[id].state == SUCCESS && backend.values == old(backend.values)[id := v]
           case Raised(e, true) => backend.rows[id].state == REVOKED && backend.values == old(backend.values)[id := e]
           case Raised(e, false) => backend.rows[id].state == FAILURE && backend.values == old(backend.values)[id := e]
           case Rejected(e) => backend.rows[id].state == INVALID && backend.values == old(backend.values)[id := e]
    {
      var ok := true;
      match ending {
        case Returned(value) =>
          if id in running {
            ok := Complete(result, value, SUCCESS, first);
            if !ok && id in running {
              ok := Complete(result, "error", FAILURE, second);
            }
          }
        case Raised(error, timedOut) =>
          if id in running {
            ok := Complete(result, error, if timedOut then REVOKED else FAILURE, first);
          }
        case Rejected(error) =>
          ok := Complete(result, error, INVALID, first);
      }
      fatal := !ok;
    }

    /** The handler of a request that still runs here ended. */
    method FinishRequest(id: Id, result: Result, ending: Ending, first: Fault, second: Fault) returns (fatal: bool)
      requires result.id == id && result.backend == backend
      requires id in running && running[id].Valid()
      modifies this`running, this`waiting, this`currentPrefetch, channel, result, backend`rows, backend`values
      modifies running[id].message
      ensures backend.rows == EndedRows(old(backend.rows), id, old(result.View()), ending, first, second)
      ensures backend.values == EndedValues(old(backend.values), id, ending, first, second)
      ensures fatal <==> IsFatal(old(result.View()), ending, first, second)
      ensures running == if ending.Paused? then old(running) - {id} else old(running)
      ensures old(running[id]).message.Valid()
      ensures old(running[id]).message.asked
        == old(running[id].message.asked) + if ending.Paused? then [Nack] else []
    {
      if ending.Paused? {
        PauseTask(id, result);
        fatal := false;
      } else {
        fatal := EndTask(id, result, ending, first, second);
      }
    }

    /** _run_request with nothing in between: the gate decides, and the handler ends as `ending`. */
    method RunRequest(req: Request, late: bool, unknown: bool, ending: Ending, first: Fault, second: Fault)
      returns (start: bool, fatal: bool)
      requires req.id in running && running[req.id].Valid()
      modifies this`running, this`waiting, this`currentPrefetch, channel, backend`rows, backend`values
      modifies running[req.id].message
      ensures start <==> Judge(cfg, old(backend.rows), req, late, unknown).Start?
      ensures fatal <==> start && IsFatal(old(backend.rows)[req.id].Started(Some(node)), ending, first, second)
      ensures backend.rows == ProcessedRows(cfg, old(backend.rows), req, late, unknown, node, ending, first, second)
      ensures backend.values
        == ProcessedValues(cfg, old(backend.rows), old(backend.values), req, late, unknown, ending, first, second)
      ensures start && first.Fine? ==>
        var was := old(backend.rows)[req.id];
        match ending
        case Returned(v) =>
          && backend.rows[req.id] == Row(SUCCESS, was.starts + 1, was.stops + 1, Some(node), was.parent)
          && backend.values == old(backend.values)[req.id := v]
        case Raised(e, true) =>
          && backend.rows[req.id] == Row(REVOKED, was.starts + 1, was.stops + 1, Some(node), was.parent)
          && backend.values == old(backend.values)[req.id := e]
        case Raised(e, false) =>
          && backend.rows[req.id] == Row(FAILURE, was.starts + 1, was.stops + 1, Some(node), was.parent)
          && backend.values == old(backend.values)[req.id := e]
        case Rejected(e) =>
          && backend.rows[req.id] == Row(INVALID, was.starts + 1, was.stops + 1, Some(node), was.parent)
          && backend.values == old(backend.values)[req.id := e]
        case Paused =>
          && backend.rows[req.id] == Row(SUSPENDED, was.starts + 1, was.stops + 1, Some(node), was.parent)
          && backend.values == old(backend.values)
      ensures running - {req.id} == old(running) - {req.id}
      ensures old(running[req.id]).message.Valid()
      ensures old(running[req.id]).message.asked
        == old(running[req.id].message.asked) + if start && ending.Paused? then [Nack] else []
    {
      ghost var rows, values := backend.rows, backend.values;
      var verdict, result := Gate(req, late, unknown);
      if !verdict.Start? {
        return false, false;
      }
      start := true;
      assert result.View() == rows[req.id].Started(Some(node));
      fatal := FinishRequest(req.id, result, ending, first, second);
      if first.Fine? {
        ProcessedMeans(cfg, rows, values, req, late, unknown, node, ending, second);
      }
    }

    /**
     request_processor and on_processing_done with nothing in between: the holder is kept under the
     request's id, the request runs, and the message is acknowledged last; or it goes back, if an error got
     here. After a pause that acknowledgement changes nothing: the message went back.
     */
    method ProcessRequestMessage(message: Payload, req: Request, late: bool, unknown: bool, ending: Ending,
                                 first: Fault, second: Fault)
      requires message.Valid() && message.asked == []
      modifies this`running, this`waiting, this`currentPrefetch, channel, message, backend`rows, backend`values
      ensures running == old(running) - {req.id}
      ensures message.wire
        == if && Judge(cfg, old(backend.rows), req, late, unknown).Start?
              && (ending.Paused? || (!first.Fine? && !(ending.Returned? && second.Fine?)))
           then [Nack] else [Ack]
      ensures backend.rows == ProcessedRows(cfg, old(backend.rows), req, late, unknown, node, ending, first, second)
      ensures backend.values
        == ProcessedValues(cfg, old(backend.rows), old(backend.values), req, late, unknown, ending, first, second)
      ensures Judge(cfg, old(backend.rows), req, late, unknown).Start? && first.Fine? ==>
        var was := old(backend.rows)[req.id];
        match ending
        case Returned(v) =>
          && backend.rows[req.id] == Row(SUCCESS, was.starts + 1, was.stops + 1, Some(node), was.parent)
          && backend.values == old(backend.values)[req.id := v]
        case Raised(e, true) =>
          && backend.rows[req.id] == Row(REVOKED, was.starts + 1, was.stops + 1, Some(node), was.parent)
          && backend.values == old(backend.values)[req.id := e]
        case Raised(e, false) =>
          && backend.rows[req.id] == Row(FAILURE, was.starts + 1, was.stops + 1, Some(node), was.parent)
          && backend.values == old(backend.values)[req.id := e]
        case Rejected(e) =>
          && backend.rows[req.id] == Row(INVALID, was.starts + 1, was.stops + 1, Some(node), was.parent)
          && backend.values == old(backend.values)[req.id := e]
        case Paused =>
          && backend.rows[req.id] == Row(SUSPENDED, was.starts + 1, was.stops + 1, Some(node), was.parent)
          && backend.values == old(backend.values)
    {
      ghost var rows := backend.rows;
      var holder := new Holder(message);
      running := running[req.id := holder];
      var start, fatal := RunRequest(req, late, unknown, ending, first, second);
      if start && !ending.Paused? {
        EndedIff(rows[req.id].Started(Some(node)), ending, first, second);
      }
      FirstSettlementWins(message.asked + [if fatal then Nack else Ack]);
      message.Settle(if fatal then Nack else Ack);
      running := running - {req.id};
    }

    /** Cancel a request that may run here; what becomes of its message is the caller's choice. */
    method Cancel(id: Id, action: MessageAction)
      requires forall i | i in running :: running[i].Valid()
      modifies this`running, backend`rows
      modifies if id in running then {running[id], running[id].message} else {}
      ensures running == old(running) - {id}
      ensures id !in old(running) ==> backend.rows == old(backend.rows)
      ensures id in old(running) ==>
        && var row := RowOrNew(old(backend.rows), id);
        && backend.rows
           == old(backend.rows)[id := if row.state.RUNNING? && row.node == Some(node) then row.Suspended() else row]
        && old(running[id]).Valid() && !old(running[id]).task && old(running[id]).cancelled == 1
        && old(running[id]).message.asked == old(running[id].message.asked) + Asks(action)
        && (row.state.RUNNING? && row.node == Some(node) ==>
              backend.rows[id] == Row(SUSPENDED, row.starts, row.stops + 1, row.node, row.parent))
        && (old(running[id].message.wire) == [] ==>
              old(running[id]).message.wire
              == match action case Nothing => [] case AckIt => [Ack] case NackIt => [Nack])
    {
      if id !in running {
        return;
      }
      var holder := running[id];
      running := running - {id};
      var result := backend.GetOrCreate(id);
      if result.state.RUNNING? && result.node == Some(node) {
        result.Suspend();
      }
      holder.SettleMessage(action);
      holder.CancelTask();
    }
  }
}
