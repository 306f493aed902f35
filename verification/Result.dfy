/**
 The result record (mognet/model/result.py) and the tables of a result backend.

 `Row` is the value that a backend stores; its functions say what each mutator writes. `Result` is the
 object whose methods update the fields in place and then store them. `Get` returns a copy, as the
 Redis backend does, so two `Result` objects of one id can disagree.
 */
module ResultModel {
  import opened Types

  datatype ResultState = PENDING | RUNNING | SUSPENDED | SUCCESS | FAILURE | REVOKED | INVALID {
    predicate Ready() {
      SUCCESS? || FAILURE? || REVOKED? || INVALID?
    }
  }

  datatype Row = Row(state: ResultState, starts: nat, stops: nat, node: Option<Id>, parent: Option<Id>) {
    predicate Done() {
      state.Ready()
    }

    /** Starts that no stop has answered yet. */
    function Net(): int {
      starts - stops
    }

    function RetryCount(): nat {
      if Net() > 0 then Net() else 0
    }

    function Started(on: Option<Id>): Row {
      this.(state := RUNNING, starts := starts + 1, node := on)
    }

    function Resumed(): Row {
      this.(state := RUNNING, starts := starts + 1)
    }

    function Suspended(): Row {
      this.(state := SUSPENDED, stops := stops + 1)
    }

    /** set_result, set_error and revoke: all enter a ready state and count one stop. */
    function Ended(outcome: ResultState): Row {
      this.(state := outcome, stops := stops + 1)
    }
  }

  function Submitted(parent: Option<Id>): Row {
    Row(PENDING, 0, 0, None, parent)
  }

  /** What get_or_create finds: the stored result, or the empty one that it makes up. */
  function RowOrNew(rows: map<Id, Row>, id: Id): Row {
    if id in rows then rows[id] else Submitted(None)
  }

  /** What fails at the end of a handler: storing the value, storing the result, or clearing the state afterwards. */
  datatype Fault = Fine | NoValue | NoUpdate | NoClear

  type Value = string
  type Metadata = map<string, string>

  class ResultBackend {
    var rows: map<Id, Row>
    var children: map<Id, set<Id>>
    var values: map<Id, Value>
    var metadata: map<Id, Metadata>

    constructor ()
      ensures rows == map[] && children == map[] && values == map[] && metadata == map[]
    {
      rows, children, values, metadata := map[], map[], map[], map[];
    }

    method Get(id: Id) returns (result: Result?)
      ensures result == null <==> id !in rows
      ensures result != null ==>
        fresh(result) && result.id == id && result.backend == this && result.View() == rows[id]
    {
      if id !in rows {
        return null;
      }
      result := new Result(this, id, rows[id]);
    }

    method GetOrCreate(id: Id) returns (result: Result)
      modifies this`rows
      ensures rows == old(rows)[id := RowOrNew(old(rows), id)]
      ensures rows[id] == if id in old(rows) then old(rows)[id] else Row(PENDING, 0, 0, None, None)
      ensures fresh(result) && result.id == id && result.backend == this && result.View() == rows[id]
    {
      if id !in rows {
        rows := rows[id := Submitted(None)];
      }
      result := new Result(this, id, rows[id]);
    }

    method AddChild(id: Id, child: Id)
      modifies this`children
      ensures children == old(children)[id := (if id in old(children) then old(children)[id] else {}) + {child}]
    {
      if id !in children {
        children := children[id := {}];
      }
      children := children[id := children[id] + {child}];
    }
  }

  class Result {
    const id: Id
    const backend: ResultBackend

    var state: ResultState
    var starts: nat
    var stops: nat
    var node: Option<Id>
    var parent: Option<Id>

    function View(): Row
      reads this
    {
      Row(state, starts, stops, node, parent)
    }

    constructor (backend: ResultBackend, id: Id, row: Row)
      ensures this.backend == backend && this.id == id && View() == row
    {
      this.backend, this.id := backend, id;
      state, starts, stops, node, parent := row.state, row.starts, row.stops, row.node, row.parent;
    }

    method Update()
      modifies backend`rows
      ensures backend.rows == old(backend.rows)[id := View()]
    {
      backend.rows := backend.rows[id := View()];
    }

    method Start(node: Option<Id>)
      modifies this, backend`rows
      ensures View() == old(View()).Started(node)
      ensures View() == Row(RUNNING, old(starts) + 1, old(stops), node, old(parent))
      ensures backend.rows == old(backend.rows)[id := View()]
    {
      this.node := node;
      state := RUNNING;
      starts := starts + 1;
      Update();
    }

    method Resume()
      modifies this, backend`rows
      ensures View() == old(View()).Resumed()
      ensures View() == Row(RUNNING, old(starts) + 1, old(stops), old(node), old(parent))
      ensures backend.rows == old(backend.rows)[id := View()]
    {
      state := RUNNING;
      starts := starts + 1;
      Update();
    }

    method Suspend()
      modifies this, backend`rows
      ensures View() == old(View()).Suspended()
      ensures View() == Row(SUSPENDED, old(starts), old(stops) + 1, old(node), old(parent))
      ensures backend.rows == old(backend.rows)[id := View()]
    {
      state := SUSPENDED;
      stops := stops + 1;
      Update();
    }

    /**
     set_result and set_error. The value is stored before the object changes, and the object changes before
     it is stored; the backend may fail either time.
     */
    method SetOutcome(value: Value, outcome: ResultState, fault: Fault) returns (ok: bool)
      modifies this, backend`rows, backend`values
      ensures ok <==> fault.Fine? || fault.NoClear?
      ensures View() == if fault.NoValue? then old(View()) else old(View()).Ended(outcome)
      ensures !fault.NoValue? ==> View() == Row(outcome, old(starts), old(stops) + 1, old(node), old(parent))
      ensures backend.rows == if ok then old(backend.rows)[id := View()] else old(backend.rows)
      ensures backend.values == if fault.NoValue? then old(backend.values) else old(backend.values)[id := value]
    {
      if fault.NoValue? {
        return false;
      }
      backend.values := backend.values[id := value];
      state := outcome;
      stops := stops + 1;
      if fault.NoUpdate? {
        return false;
      }
      Update();
      ok := true;
    }

    method Revoke()
      modifies this, backend`rows
      ensures View() == old(View()).Ended(REVOKED)
      ensures View() == Row(REVOKED, old(starts), old(stops) + 1, old(node), old(parent))
      ensures backend.rows == old(backend.rows)[id := View()]
    {
      state := REVOKED;
      stops := stops + 1;
      Update();
    }
  }
}
