/**
 The documented deadlock: with a maximum M on the only process, M requests that each wait for a child
 are stuck, at any recursion limit. So a deadlock can be reached exactly when a maximum is set.
 */
module Saturation {
  import opened Types
  import opened ResultModel
  import opened WorkerModel
  import opened Lifecycle
  import opened LifecycleInvariants
  import opened LifecycleWaiting
  import opened Progress

  /** No failure, pause, cancellation or revocation; and nothing that is ready. */
  predicate Plain(a: Action) {
    || a.Join? || a.StoreRoot? || a.SendRoot? || a.Deliver? || a.Gate? || a.Spawn? || a.Index? || a.Store? || a.Send?
  }

  ghost predicate IsPlainRun(cfg: Config, tr: seq<State>, acts: seq<Action>) {
    IsRun(cfg, tr, acts) && forall i | 0 <= i < |acts| :: Plain(acts[i])
  }

  function Last(tr: seq<State>): State {
    if tr == [] then Init else tr[|tr| - 1]
  }

  /** One more step of a run. */
  lemma Grow(cfg: Config, tr: seq<State>, acts: seq<Action>, a: Action) returns (tr': seq<State>, acts': seq<Action>)
    requires IsRun(cfg, tr, acts) && Enabled(cfg, Last(tr), a)
    ensures IsRun(cfg, tr', acts') && acts' == acts + [a] && tr <= tr' && Last(tr') == Apply(cfg, Last(tr), a)
  {
    tr', acts' := tr + [Apply(cfg, Last(tr), a)], acts + [a];
    forall i | 0 <= i < |acts'| ensures RunStep(cfg, tr', acts', i) {
      assert i < |acts| ==> RunStep(cfg, tr, acts, i);
    }
  }

  lemma Go(cfg: Config, tr: seq<State>, acts: seq<Action>, a: Action) returns (tr': seq<State>, acts': seq<Action>)
    requires IsPlainRun(cfg, tr, acts) && Enabled(cfg, Last(tr), a) && Plain(a)
    ensures IsPlainRun(cfg, tr', acts') && Last(tr') == Apply(cfg, Last(tr), a)
  {
    tr', acts' := Grow(cfg, tr, acts, a);
  }

  lemma PlainIsCounted(cfg: Config, tr: seq<State>, acts: seq<Action>)
    requires IsPlainRun(cfg, tr, acts)
    ensures Inv(cfg, Last(tr)) && Counted(Last(tr)) && Uncancelled(acts)
  {
    RunCounted(cfg, tr, acts, |acts|);
  }

  /** On process 0, k handlers wait; nothing is ready, and the ids used so far are below `top`. */
  ghost predicate Wide(s: State, k: nat, top: Id) {
    && s.workers.Keys == {0} && s.workers[0].consuming && |s.workers[0].waiting| == k
    && s.cancels == map[] && s.leaked == {}
    && AllWait(s)
    && (forall c | c in s.rows :: !s.rows[c].Done())
    && (forall c | c in s.used :: c < top)
  }

  /** A root's message `m` is queued besides. */
  ghost predicate Poised(s: State, k: nat, m: Tag, top: Id) {
    && Wide(s, k, top)
    && m in s.msgs && s.msgs[m].Queued? && s.msgs[m].req.stack == []
    && s.msgs[m].req.id in s.rows && s.rows[s.msgs[m].req.id].state.PENDING? && s.rows[s.msgs[m].req.id].Net() == 0
  }

  lemma NewRoot(cfg: Config, tr: seq<State>, acts: seq<Action>, k: nat, top: Id)
    returns (tr': seq<State>, acts': seq<Action>, m: Tag)
    requires IsPlainRun(cfg, tr, acts) && Wide(Last(tr), k, top)
    ensures IsPlainRun(cfg, tr', acts') && Poised(Last(tr'), k, m, top + 1)
  {
    var s := Last(tr);
    PlainIsCounted(cfg, tr, acts);
    FreshTag(cfg, s);
    m := s.next;
    tr', acts' := Go(cfg, tr, acts, StoreRoot(top));
    tr', acts' := Go(cfg, tr', acts', SendRoot(top));
    var s' := Last(tr');
    forall n | n in s'.msgs && s'.msgs[n].Held? ensures WaitsForUnready(s', n) {
      assert n in s.msgs && s.msgs[n] == s'.msgs[n] && WaitsForUnready(s, n);
    }
  }

  /** The handler that starts, with its result. */
  ghost predicate StartedAs(s: State, s': State, m: Tag, row: Row) {
    && m in s.msgs && row.state.RUNNING?
    && s'.msgs == s.msgs[m := Held(s.msgs[m].req, s.deliveries, Running(0, row, {}, map[]))]
    && s'.rows == s.rows[s.msgs[m].req.id := row]
    && s'.workers.Keys == s.workers.Keys == {0} && s'.workers[0].consuming
    && s'.workers[0].waiting == s.workers[0].waiting
    && s'.used == s.used && s'.sent == s.sent && s'.next == s.next && s'.cancels == s.cancels && s'.leaked == s.leaked
  }

  /** Nothing forbids the start of a root. */
  lemma JudgedStart(cfg: Config, s: State, m: Tag)
    requires Inv(cfg, s) && m in s.msgs && s.msgs[m].req.stack == []
    requires s.msgs[m].req.id in s.rows && s.rows[s.msgs[m].req.id].Net() == 0
    requires forall c | c in s.rows :: !s.rows[c].Done()
    ensures Judge(cfg, s.rows, s.msgs[m].req, false, false).Start?
  {
    StartIff(cfg, s.rows, s.msgs[m].req, false, false);
  }

  lemma Starting(cfg: Config, tr: seq<State>, acts: seq<Action>, k: nat, m: Tag, top: Id)
    returns (tr': seq<State>, acts': seq<Action>, row: Row)
    requires cfg.minimum >= 1 && (cfg.maximum.Some? ==> k < cfg.maximum.value)
    requires IsPlainRun(cfg, tr, acts) && Poised(Last(tr), k, m, top)
    ensures IsPlainRun(cfg, tr', acts') && StartedAs(Last(tr), Last(tr'), m, row)
    ensures row == Last(tr).rows[Last(tr).msgs[m].req.id].Started(Some(0))
  {
    var s := Last(tr);
    PlainIsCounted(cfg, tr, acts);
    Room(cfg, s, 0);
    WaitingCount(cfg, s, 0);
    JudgedStart(cfg, s, m);
    row := s.rows[s.msgs[m].req.id].Started(Some(0));
    tr', acts' := Go(cfg, tr, acts, Deliver(0, m));
    tr', acts' := Go(cfg, tr', acts', Gate(m, false, false));
  }

  /** The handler waits for a child whose message is queued. */
  ghost predicate Dived(s: State, s': State, m: Tag, c: Id, row: Row) {
    && m in s.msgs && s.next != m
    && s'.msgs == s.msgs[m := Held(s.msgs[m].req, s.deliveries, Running(0, row, {c}, map[]))]
                        [s.next := Queued(Request(c, s.msgs[m].req.stack + [s.msgs[m].req.id]))]
    && s'.rows == s.rows[s.msgs[m].req.id := row.Suspended()][c := Submitted(Some(s.msgs[m].req.id))]
    && s'.workers.Keys == {0} && 0 in s.workers && s'.workers[0].consuming
    && s'.workers[0].waiting == s.workers[0].waiting + {s.msgs[m].req.id}
    && s'.used == s.used[c := Some(m)]
    && s'.sent.Keys == s.sent.Keys + {c} && s'.cancels == s.cancels && s'.leaked == s.leaked
  }

  ghost predicate SpawnedAs(s: State, s': State, m: Tag, c: Id, row: Row, stage: Stage) {
    && m in s.msgs && c != s.msgs[m].req.id
    && s'.msgs == s.msgs[m := Held(s.msgs[m].req, s.deliveries, Running(0, row, {c}, map[c := stage]))]
    && s'.rows == s.rows[s.msgs[m].req.id := row.Suspended()]
    && s'.workers.Keys == {0} && 0 in s.workers && s'.workers[0].consuming
    && s'.workers[0].waiting == s.workers[0].waiting + {s.msgs[m].req.id}
    && s'.used == s.used[c := Some(m)] && s'.sent == s.sent && s'.next == s.next
    && s'.cancels == s.cancels && s'.leaked == s.leaked
  }

  lemma Spawning(cfg: Config, s: State, tr: seq<State>, acts: seq<Action>, m: Tag, c: Id, row: Row)
    returns (tr': seq<State>, acts': seq<Action>)
    requires IsPlainRun(cfg, tr, acts) && StartedAs(s, Last(tr), m, row) && c !in s.used && !IsFor(s, m, c)
    ensures IsPlainRun(cfg, tr', acts') && SpawnedAs(s, Last(tr'), m, c, row, Chosen)
  {
    tr', acts' := Go(cfg, tr, acts, Spawn(m, c, true));
  }

  ghost predicate StoredAs(s: State, s': State, m: Tag, c: Id, row: Row) {
    && m in s.msgs && c != s.msgs[m].req.id
    && s'.msgs == s.msgs[m := Held(s.msgs[m].req, s.deliveries, Running(0, row, {c}, map[c := Stored]))]
    && s'.rows == s.rows[s.msgs[m].req.id := row.Suspended()][c := Submitted(Some(s.msgs[m].req.id))]
    && s'.workers.Keys == {0} && 0 in s.workers && s'.workers[0].consuming
    && s'.workers[0].waiting == s.workers[0].waiting + {s.msgs[m].req.id}
    && s'.used == s.used[c := Some(m)] && s'.sent == s.sent && s'.next == s.next
    && s'.cancels == s.cancels && s'.leaked == s.leaked
  }

  lemma Indexing(cfg: Config, s: State, tr: seq<State>, acts: seq<Action>, m: Tag, c: Id, row: Row)
    returns (tr': seq<State>, acts': seq<Action>)
    requires IsPlainRun(cfg, tr, acts) && SpawnedAs(s, Last(tr), m, c, row, Chosen)
    ensures IsPlainRun(cfg, tr', acts') && SpawnedAs(s, Last(tr'), m, c, row, Indexed)
  {
    tr', acts' := Go(cfg, tr, acts, Index(m, c));
    assert map[c := Chosen][c := Indexed] == map[c := Indexed];
  }

  lemma Storing(cfg: Config, s: State, tr: seq<State>, acts: seq<Action>, m: Tag, c: Id, row: Row)
    returns (tr': seq<State>, acts': seq<Action>)
    requires IsPlainRun(cfg, tr, acts) && SpawnedAs(s, Last(tr), m, c, row, Indexed)
    ensures IsPlainRun(cfg, tr', acts') && StoredAs(s, Last(tr'), m, c, row)
  {
    tr', acts' := Go(cfg, tr, acts, Store(m, c));
    assert map[c := Indexed][c := Stored] == map[c := Stored];
  }

  lemma Sending(cfg: Config, s: State, tr: seq<State>, acts: seq<Action>, m: Tag, c: Id, row: Row)
    returns (tr': seq<State>, acts': seq<Action>)
    requires IsPlainRun(cfg, tr, acts) && StoredAs(s, Last(tr), m, c, row) && s.next != m
    ensures IsPlainRun(cfg, tr', acts') && Dived(s, Last(tr'), m, c, row)
  {
    tr', acts' := Go(cfg, tr, acts, Send(m, c));
    assert map[c := Stored] - {c} == map[];
  }

  lemma WiderWaits(cfg: Config, s: State, s': State, k: nat, m: Tag, top: Id, row: Row)
    requires Inv(cfg, s) && Poised(s, k, m, top) && Dived(s, s', m, top, row) && !row.Done()
    ensures AllWait(s')
  {
    assert MessageOk(s, m);
    forall n | n in s'.msgs && s'.msgs[n].Held? ensures WaitsForUnready(s', n) {
      assert n != m ==> n in s.msgs && s.msgs[n] == s'.msgs[n] && WaitsForUnready(s, n);
    }
  }

  lemma Wider(cfg: Config, s: State, s': State, k: nat, m: Tag, top: Id, row: Row)
    requires Inv(cfg, s) && Counted(s) && Poised(s, k, m, top) && Dived(s, s', m, top, row)
    requires row == s.rows[s.msgs[m].req.id].Started(Some(0))
    ensures Wide(s', k + 1, top + 1)
  {
    assert MessageOk(s, m);
    assert Waits(s, 0, s.msgs[m].req.id);
    assert s.msgs[m].req.id !in s.workers[0].waiting;
    WiderWaits(cfg, s, s', k, m, top, row);
  }

  lemma {:induction false} Breadth(cfg: Config, k: nat)
    returns (tr: seq<State>, acts: seq<Action>, top: Id)
    requires cfg.minimum >= 1 && (cfg.maximum.Some? ==> k <= cfg.maximum.value)
    ensures IsPlainRun(cfg, tr, acts) && Wide(Last(tr), k, top)
  {
    if k == 0 {
      tr, acts, top := [Init], [], 0;
      tr, acts := Go(cfg, tr, acts, Join(0));
    } else {
      tr, acts, top := Breadth(cfg, k - 1);
      var m, row;
      tr, acts, m := NewRoot(cfg, tr, acts, k - 1, top);
      top := top + 1;
      var s := Last(tr);
      PlainIsCounted(cfg, tr, acts);
      assert MessageOk(s, m);
      tr, acts, row := Starting(cfg, tr, acts, k - 1, m, top);
      tr, acts := Spawning(cfg, s, tr, acts, m, top, row);
      tr, acts := Indexing(cfg, s, tr, acts, m, top, row);
      tr, acts := Storing(cfg, s, tr, acts, m, top, row);
      tr, acts := Sending(cfg, s, tr, acts, m, top, row);
      Wider(cfg, s, Last(tr), k - 1, m, top, row);
      top := top + 1;
    }
  }

  /** Nothing can move though a process consumes, some accepted request is not ready, and none was lost. */
  ghost predicate Deadlock(cfg: Config, s: State) {
    && (exists w :: w in s.workers && s.workers[w].consuming)
    && (exists c :: Unready(s, c))
    && NoneLost(s) && !CanMove(cfg, s)
  }

  /** With any maximum M, a run without any fault reaches a deadlock: M roots, each with one child. */
  lemma StuckRoots(cfg: Config) returns (tr: seq<State>, acts: seq<Action>)
    requires cfg.minimum >= 1 && cfg.maximum.Some? && cfg.maximum.value >= 1
    ensures IsPlainRun(cfg, tr, acts) && Deadlock(cfg, Last(tr))
  {
    var top;
    tr, acts, top := Breadth(cfg, cfg.maximum.value);
    var s := Last(tr);
    PlainIsCounted(cfg, tr, acts);
    NothingLost(cfg, tr, acts, |acts|);
    WaitingCount(cfg, s, 0);
    StuckIff(cfg, tr, acts, |acts|);
    var id :| id in s.workers[0].waiting;
    assert Waits(s, 0, id);
    assert WaitsForUnready(s, s.sent[id].tag);
    var c :| c in s.msgs[s.sent[id].tag].task.deps;
    assert Unready(s, c);
  }

  ghost predicate DeadlockReachable(cfg: Config) {
    exists tr, acts :: IsRun(cfg, tr, acts) && Deadlock(cfg, Last(tr))
  }

  /** What an operator can tell beforehand: a deadlock is reachable exactly when a maximum is set. */
  lemma DeadlockIff(cfg: Config)
    requires cfg.HasRoom()
    ensures DeadlockReachable(cfg) <==> cfg.maximum.Some?
  {
    if cfg.maximum.Some? {
      var tr, acts := StuckRoots(cfg);
      PlainIsCounted(cfg, tr, acts);
    } else if DeadlockReachable(cfg) {
      var tr: seq<State>, acts: seq<Action> :| IsRun(cfg, tr, acts) && Deadlock(cfg, Last(tr));
      var w :| w in Last(tr).workers && Last(tr).workers[w].consuming;
      var c :| Unready(Last(tr), c);
      StuckIsFull(cfg, tr, acts, |acts|, c);
    }
  }
}
