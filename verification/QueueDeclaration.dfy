/**
 _get_or_create_task_queue (mognet/broker/amqp_broker.py): a double-checked lock around the declaration
 of a queue, as a state machine over the turns of its callers.
 */
module QueueDeclaration {
  import opened Types

  type Name = string

  /** A declared queue is named by the index of its declaration. */
  type Queue = nat

  /** Where a caller is. An error of the broker ends the call: when it is retried, that is one more caller. */
  datatype Phase =
    | Entering | WantsLock | HasLock | Binding(queue: Queue) | Releasing
    | Returned(queue: Queue) | DeclareFailed | BindFailed(queue: Queue)

  datatype State = State(
    phases: seq<Phase>, taskQueues: map<Name, Queue>, lock: Option<nat>, declared: seq<Name>, bound: set<Queue>)

  /** Caller `c` runs up to its next await; `fails` says what the broker answers, if it is asked. */
  datatype Turn = Turn(c: nat, fails: bool)

  function Begin(n: nat): State {
    State(seq(n, _ => Entering), map[], None, [], {})
  }

  function Step(names: seq<Name>, s: State, t: Turn): State
    requires t.c < |names| == |s.phases|
  {
    var name := names[t.c];
    match s.phases[t.c]
    case Entering =>
      s.(phases := s.phases[t.c := if name in s.taskQueues then Returned(s.taskQueues[name]) else WantsLock])
    case WantsLock =>
      if s.lock.Some? then s else s.(phases := s.phases[t.c := HasLock], lock := Some(t.c))
    case HasLock =>
      if name in s.taskQueues then s.(phases := s.phases[t.c := Releasing])
      else if t.fails then s.(phases := s.phases[t.c := DeclareFailed], lock := None)
      else
        s.(phases := s.phases[t.c := Binding(|s.declared|)], declared := s.declared + [name],
           taskQueues := s.taskQueues[name := |s.declared|])
    case Binding(queue) =>
      if t.fails then s.(phases := s.phases[t.c := BindFailed(queue)], lock := None)
      else s.(phases := s.phases[t.c := Releasing], bound := s.bound + {queue})
    case Releasing =>
      if name in s.taskQueues then s.(phases := s.phases[t.c := Returned(s.taskQueues[name])], lock := None)
      else s
    case _ => s
  }

  ghost predicate Possible(names: seq<Name>, turns: seq<Turn>) {
    forall i | 0 <= i < |turns| :: turns[i].c < |names|
  }

  function Run(names: seq<Name>, turns: seq<Turn>): (s: State)
    requires Possible(names, turns)
    ensures |s.phases| == |names|
  {
    if turns == [] then Begin(|names|)
    else Step(names, Run(names, turns[..|turns| - 1]), turns[|turns| - 1])
  }

  predicate Locked(p: Phase) {
    p.HasLock? || p.Binding? || p.Releasing?
  }

  predicate Unbound(p: Phase, queue: Queue) {
    p == Binding(queue) || p == BindFailed(queue)
  }

  ghost predicate CallerOk(names: seq<Name>, s: State, c: nat)
    requires c < |names| == |s.phases|
  {
    var p, name := s.phases[c], names[c];
    && (Locked(p) <==> s.lock == Some(c))
    && (p.Releasing? ==> name in s.taskQueues)
    && (p.Returned? ==> name in s.taskQueues && p.queue == s.taskQueues[name])
    && (p.Binding? || p.BindFailed? ==> p.queue < |s.declared| && p.queue !in s.bound && s.declared[p.queue] == name)
  }

  /** Each queue is the one the dictionary has for its name, and is bound unless its declarer did not get so far. */
  ghost predicate QueueOk(s: State, q: Queue)
    requires q < |s.declared|
  {
    && s.declared[q] in s.taskQueues && s.taskQueues[s.declared[q]] == q
    && (q in s.bound || exists c :: 0 <= c < |s.phases| && Unbound(s.phases[c], q))
  }

  ghost predicate Inv(names: seq<Name>, s: State) {
    && |names| == |s.phases| && (s.lock.Some? ==> s.lock.value < |names|)
    && (forall c {:trigger CallerOk(names, s, c)} | 0 <= c < |names| :: CallerOk(names, s, c))
    && (forall q {:trigger QueueOk(s, q)} | 0 <= q < |s.declared| :: QueueOk(s, q))
    && (forall name | name in s.taskQueues ::
          s.taskQueues[name] < |s.declared| && s.declared[s.taskQueues[name]] == name)
    && (forall q | q in s.bound :: q < |s.declared|)
    && (forall c, d, q: Queue | 0 <= c < |names| && 0 <= d < |names| ::
          Unbound(s.phases[c], q) && Unbound(s.phases[d], q) ==> c == d)
  }

  lemma StepCallers(names: seq<Name>, s: State, t: Turn)
    requires Inv(names, s) && t.c < |names|
    ensures forall c | 0 <= c < |names| :: CallerOk(names, Step(names, s, t), c)
  {
    var s' := Step(names, s, t);
    assert CallerOk(names, s, t.c);
    forall c | 0 <= c < |names| ensures CallerOk(names, s', c) {
      assert CallerOk(names, s, c);
      if s.phases[t.c].Binding? {
        assert Unbound(s.phases[t.c], s.phases[t.c].queue) && QueueOk(s, s.phases[t.c].queue);
        assert s.phases[c].BindFailed? ==> Unbound(s.phases[c], s.phases[c].queue);
        assert s.phases[c].Binding? ==> c == t.c;
      }
    }
  }

  lemma StepQueues(names: seq<Name>, s: State, t: Turn)
    requires Inv(names, s) && t.c < |names|
    ensures forall q | 0 <= q < |Step(names, s, t).declared| :: QueueOk(Step(names, s, t), q)
  {
    var s' := Step(names, s, t);
    forall q | 0 <= q < |s'.declared| ensures QueueOk(s', q) {
      if q < |s.declared| {
        assert QueueOk(s, q);
        if q !in s.bound {
          var c :| 0 <= c < |s.phases| && Unbound(s.phases[c], q);
          assert q in s'.bound || Unbound(s'.phases[c], q);
        }
      } else {
        assert Unbound(s'.phases[t.c], q);
      }
    }
  }

  lemma StepInv(names: seq<Name>, s: State, t: Turn)
    requires Inv(names, s) && t.c < |names|
    ensures Inv(names, Step(names, s, t))
  {
    var s' := Step(names, s, t);
    assert CallerOk(names, s, t.c);
    StepCallers(names, s, t);
    StepQueues(names, s, t);
    forall c, d, q: Queue | 0 <= c < |names| && 0 <= d < |names| && Unbound(s'.phases[c], q) && Unbound(s'.phases[d], q)
      ensures c == d
    {
      assert CallerOk(names, s, c) && CallerOk(names, s, d);
      assert Unbound(s.phases[c], q) <==> q < |s.declared|;
      assert Unbound(s.phases[d], q) <==> q < |s.declared|;
    }
  }

  lemma {:induction false} RunInv(names: seq<Name>, turns: seq<Turn>)
    requires Possible(names, turns)
    ensures Inv(names, Run(names, turns))
  {
    if turns == [] {
      forall c | 0 <= c < |names| ensures CallerOk(names, Begin(|names|), c) {
      }
    } else {
      RunInv(names, turns[..|turns| - 1]);
      StepInv(names, Run(names, turns[..|turns| - 1]), turns[|turns| - 1]);
    }
  }

  /** However the callers interleave and whatever the broker refuses, no name is declared twice. */
  lemma DeclaredOnce(names: seq<Name>, turns: seq<Turn>, p: Queue, q: Queue)
    requires Possible(names, turns)
    requires p < |Run(names, turns).declared| && q < |Run(names, turns).declared|
    requires Run(names, turns).declared[p] == Run(names, turns).declared[q]
    ensures p == q
  {
    RunInv(names, turns);
    assert QueueOk(Run(names, turns), p) && QueueOk(Run(names, turns), q);
  }

  /**
   Two callers that ask for one name get one queue, declared under that name. It is bound exactly unless
   the caller that declared it is still waiting for the binding, or failed to bind it.
   */
  lemma SameQueue(names: seq<Name>, turns: seq<Turn>, c: nat, d: nat)
    requires Possible(names, turns) && c < |names| && d < |names|
    requires Run(names, turns).phases[c].Returned? && Run(names, turns).phases[d].Returned?
    ensures names[c] == names[d] <==> Run(names, turns).phases[c].queue == Run(names, turns).phases[d].queue
    ensures Run(names, turns).phases[c].queue < |Run(names, turns).declared|
    ensures Run(names, turns).phases[c].queue in Run(names, turns).bound
            <==> forall e | 0 <= e < |names| :: !Unbound(Run(names, turns).phases[e], Run(names, turns).phases[c].queue)
  {
    var s := Run(names, turns);
    RunInv(names, turns);
    assert CallerOk(names, s, c) && CallerOk(names, s, d);
    assert QueueOk(s, s.phases[c].queue);
    forall e | 0 <= e < |names| && Unbound(s.phases[e], s.phases[c].queue) ensures s.phases[c].queue !in s.bound {
      assert CallerOk(names, s, e);
    }
  }

  lemma RunTurn(names: seq<Name>, turns: seq<Turn>, t: Turn)
    requires Possible(names, turns) && t.c < |names|
    ensures Possible(names, turns + [t]) && Run(names, turns + [t]) == Step(names, Run(names, turns), t)
  {
    assert (turns + [t])[..|turns|] == turns;
  }

  // ----- the lock

  /** How many turns caller `c` gets. */
  function TurnsOf(turns: seq<Turn>, c: nat): nat {
    if turns == [] then 0
    else TurnsOf(turns[..|turns| - 1], c) + if turns[|turns| - 1].c == c then 1 else 0
  }

  /** How many more turns of the caller the lock is held for, at most. */
  function Rank(p: Phase): nat {
    match p
    case HasLock => 3
    case Binding(_) => 2
    case Releasing => 1
    case _ => 0
  }

  /** While the lock is held, each turn of its holder brings the release nearer, and no turn of another matters. */
  lemma HolderMoves(names: seq<Name>, s: State, t: Turn, c: nat)
    requires Inv(names, s) && t.c < |names| && c < |names| && s.lock == Some(c) == Step(names, s, t).lock
    ensures Rank(Step(names, s, t).phases[c]) + (if t.c == c then 1 else 0) <= Rank(s.phases[c])
  {
    assert CallerOk(names, s, c);
  }

  lemma {:induction false} StillHeld(names: seq<Name>, turns: seq<Turn>, more: seq<Turn>, c: nat)
    requires Possible(names, turns + more) && Possible(names, turns) && c < |names|
    requires forall k | 0 <= k <= |more| :: HeldAt(names, turns, more, k, c)
    ensures Rank(Run(names, turns + more).phases[c]) + TurnsOf(more, c) <= Rank(Run(names, turns).phases[c])
  {
    if more == [] {
      assert turns + more == turns;
    } else {
      var less, t := more[..|more| - 1], more[|more| - 1];
      assert (turns + more)[..|turns + more| - 1] == turns + less;
      assert HeldAt(names, turns, more, |more|, c) && HeldAt(names, turns, more, |more| - 1, c);
      assert more[..|more|] == more && (turns + more)[|turns + more| - 1] == t;
      forall k | 0 <= k <= |less| ensures HeldAt(names, turns, less, k, c) {
        assert HeldAt(names, turns, more, k, c) && more[..k] == less[..k];
      }
      StillHeld(names, turns, less, c);
      RunInv(names, turns + less);
      HolderMoves(names, Run(names, turns + less), t, c);
    }
  }

  /** Caller `c` has the lock after the first k of the further turns. */
  ghost predicate HeldAt(names: seq<Name>, turns: seq<Turn>, more: seq<Turn>, k: nat, c: nat)
    requires Possible(names, turns + more) && k <= |more|
  {
    assert forall i | 0 <= i < |turns + more[..k]| :: (turns + more[..k])[i] == (turns + more)[i];
    Run(names, turns + more[..k]).lock == Some(c)
  }

  /** The lock is with the one caller between its acquisition and its release. */
  lemma LockIff(names: seq<Name>, turns: seq<Turn>, c: nat)
    requires Possible(names, turns) && c < |names|
    ensures var s := Run(names, turns);
            s.lock == Some(c) <==> s.phases[c].HasLock? || s.phases[c].Binding? || s.phases[c].Releasing?
  {
    RunInv(names, turns);
    assert CallerOk(names, Run(names, turns), c);
  }

  /** Whatever the others do and the broker answers, who has the lock gives it up within three of its turns. */
  lemma Released(names: seq<Name>, turns: seq<Turn>, more: seq<Turn>, c: nat)
    requires Possible(names, turns + more) && Possible(names, turns) && c < |names| && TurnsOf(more, c) >= 3
    ensures exists k :: 0 <= k <= |more| && !HeldAt(names, turns, more, k, c)
  {
    if forall k | 0 <= k <= |more| :: HeldAt(names, turns, more, k, c) {
      StillHeld(names, turns, more, c);
      assert HeldAt(names, turns, more, |more|, c) && more[..|more|] == more;
      LockIff(names, turns + more, c);
      assert false;
    }
  }

  /** The holder's next turns, when the broker refuses nothing: it returns, and the lock is free. */
  lemma {:induction false} HolderReturns(names: seq<Name>, turns: seq<Turn>, c: nat) returns (more: seq<Turn>)
    requires Possible(names, turns) && c < |names| && Run(names, turns).lock == Some(c)
    ensures Possible(names, turns + more) && |more| <= Rank(Run(names, turns).phases[c]) <= 3
    ensures Run(names, turns + more).phases == Run(names, turns).phases[c := Run(names, turns + more).phases[c]]
    ensures Run(names, turns + more).phases[c].Returned? && Run(names, turns + more).lock == None
    decreases Rank(Run(names, turns).phases[c])
  {
    var t := Turn(c, false);
    RunInv(names, turns);
    assert CallerOk(names, Run(names, turns), c);
    RunTurn(names, turns, t);
    if Run(names, turns).phases[c].Releasing? {
      more := [t];
    } else {
      more := HolderReturns(names, turns + [t], c);
      assert turns + ([t] + more) == turns + [t] + more;
      more := [t] + more;
    }
  }

  /** In every state that can be reached, a caller that has not failed can still return. */
  lemma CanReturn(names: seq<Name>, turns: seq<Turn>, c: nat) returns (more: seq<Turn>)
    requires Possible(names, turns) && c < |names|
    requires !Run(names, turns).phases[c].DeclareFailed? && !Run(names, turns).phases[c].BindFailed?
    ensures Possible(names, turns + more) && Run(names, turns + more).phases[c].Returned?
  {
    var s := Run(names, turns);
    RunInv(names, turns);
    assert CallerOk(names, s, c);
    more := [];
    assert turns + [] == turns;
    if s.lock.Some? {
      more := HolderReturns(names, turns, s.lock.value);
    }
    if !Run(names, turns + more).phases[c].Returned? {
      var last := EntersAndReturns(names, turns + more, c);
      assert turns + (more + last) == turns + more + last;
      more := more + last;
    }
  }

  lemma EntersAndReturns(names: seq<Name>, turns: seq<Turn>, c: nat) returns (more: seq<Turn>)
    requires Possible(names, turns) && c < |names| && Run(names, turns).lock.None?
    requires Run(names, turns).phases[c].Entering? || Run(names, turns).phases[c].WantsLock?
    ensures Possible(names, turns + more) && Run(names, turns + more).phases[c].Returned?
  {
    var t := Turn(c, false);
    RunTurn(names, turns, t);
    if Run(names, turns).phases[c].WantsLock? {
      var rest := HolderReturns(names, turns + [t], c);
      assert turns + ([t] + rest) == turns + [t] + rest;
      more := [t] + rest;
    } else if Run(names, turns + [t]).phases[c].Returned? {
      more := [t];
    } else {
      RunTurn(names, turns + [t], t);
      var rest := HolderReturns(names, turns + [t] + [t], c);
      assert turns + ([t, t] + rest) == turns + [t] + [t] + rest;
      more := [t, t] + rest;
    }
  }

  /** The unlocked check lets a caller return a queue that is not bound yet, and may never be. */
  lemma UnboundReturn(name: Name) returns (names: seq<Name>, turns: seq<Turn>)
    ensures Possible(names, turns) && |names| == 2 && names[0] == names[1] == name
    ensures var s := Run(names, turns);
            s.phases[1].Returned? && s.phases[1].queue !in s.bound && s.phases[0].BindFailed?
  {
    names, turns := [name, name], [];
    RunTurn(names, turns, Turn(0, false));
    turns := turns + [Turn(0, false)];
    RunTurn(names, turns, Turn(0, false));
    turns := turns + [Turn(0, false)];
    RunTurn(names, turns, Turn(0, false));
    turns := turns + [Turn(0, false)];
    RunTurn(names, turns, Turn(1, false));
    turns := turns + [Turn(1, false)];
    RunTurn(names, turns, Turn(0, true));
    turns := turns + [Turn(0, true)];
  }
}
