/** A REVOKED result is not final: which steps overwrite it, exactly. */
module RevokedResults {
  import opened Types
  import opened Lifecycle
  import opened LifecycleInvariants
  import opened LifecycleSafety
  import opened LifecycleTheorems

  /**
   The end of the handler of `c` is stored, or it pauses before its cancellation arrives; a cancellation that
   read it RUNNING before writes now, or a write that outlived its delivery lands; or the submission of `c`
   stores its result after the revoke walk made one up.
   */
  ghost predicate Overwrites(s: State, a: Action, c: Id) {
    match a
    case Write(m) => Writes(s, a, c) && !s.msgs[m].task.outcome.REVOKED?
    case Pause(m) => IsFor(s, m, c) && Kept(s, m)
    case CancelWrite(_) => Overturns(s, a, c)
    case CancelLand(d) => Cancels(s, d, c) && s.cancels[d].stage.Outlived? && !s.cancels[d].stage.row.state.REVOKED?
    case Store(_, d) => d == c
    case StoreRoot(d) => d == c
    case _ => false
  }

  lemma OverwriteOwnPause(s: State, m: Tag, c: Id)
    requires EndingCan(s, Pause(m)) && IsRevoked(s, c) && IsFor(s, m, c)
    ensures c in DoPause(s, m).rows && (DoPause(s, m).rows[c].state.REVOKED? <==> !Kept(s, m))
  {
  }

  /** Neither the test for the holder, nor a failing write, nor the completion stores a result. */
  lemma NoWrite(cfg: Config, s: State, a: Action)
    requires EndingCan(s, a) && !a.Write? && !a.Pause?
    ensures ApplyEnding(cfg, s, a).rows == s.rows
  {
    if a.Finish? {
      FinishIsOne(s, a.m, a.outcome);
    } else if a.WriteFails? {
      WriteFailsIsOne(s, a.m, a.counted);
    } else {
      CompletionIsOne(cfg, s, a.m);
    }
  }

  lemma OverwriteOwnEnding(cfg: Config, s: State, a: Action, c: Id)
    requires EndingCan(s, a) && IsRevoked(s, c) && IsFor(s, a.m, c)
    ensures c in ApplyEnding(cfg, s, a).rows
    ensures ApplyEnding(cfg, s, a).rows[c].state.REVOKED? <==> !Overwrites(s, a, c)
  {
    if a.Pause? {
      OverwriteOwnPause(s, a.m, c);
    } else if !a.Write? {
      NoWrite(cfg, s, a);
    }
  }

  lemma OverwriteEnding(cfg: Config, s: State, a: Action, c: Id)
    requires EndingCan(s, a) && IsRevoked(s, c)
    ensures c in ApplyEnding(cfg, s, a).rows
    ensures ApplyEnding(cfg, s, a).rows[c].state.REVOKED? <==> !Overwrites(s, a, c)
  {
    if IsFor(s, a.m, c) {
      OverwriteOwnEnding(cfg, s, a, c);
    } else {
      EndingIsOne(cfg, s, a);
    }
  }

  lemma OverwriteHandler(cfg: Config, s: State, a: Action, c: Id)
    requires Inv(cfg, s) && HandlerCan(s, a) && IsRevoked(s, c)
    ensures c in ApplyHandler(cfg, s, a).rows
    ensures ApplyHandler(cfg, s, a).rows[c].state.REVOKED? <==> !Overwrites(s, a, c)
  {
    if !a.Store? {
      HandlerKeeps(cfg, s, a, c);
    }
  }

  lemma OverwriteCancel(cfg: Config, s: State, a: Action, c: Id)
    requires Inv(cfg, s) && CancelCan(s, a)
    requires IsRevoked(s, c)
    ensures c in ApplyCancel(cfg, s, a).rows
    ensures ApplyCancel(cfg, s, a).rows[c].state.REVOKED? <==> !Overwrites(s, a, c)
  {
    if !a.CancelWrite? && !a.CancelLand? {
      CancelKeeps(cfg, s, a);
    }
  }

  lemma OverwriteStep(cfg: Config, s: State, a: Action, c: Id)
    requires Inv(cfg, s) && Enabled(cfg, s, a) && IsRevoked(s, c)
    ensures c in Apply(cfg, s, a).rows
    ensures Apply(cfg, s, a).rows[c].state.REVOKED? <==> !Overwrites(s, a, c)
  {
    if OfProcess(a) {
      ProcessKeeps(cfg, s, a);
    } else if OfClient(a) {
    } else if OfDelivery(a) {
      DeliveryKeeps(cfg, s, a, c);
    } else if OfHandler(a) {
      OverwriteHandler(cfg, s, a, c);
    } else if OfEnding(a) {
      OverwriteEnding(cfg, s, a, c);
    } else {
      OverwriteCancel(cfg, s, a, c);
    }
  }

  /** In every run, a REVOKED result stops being REVOKED exactly at an overwriting step. */
  lemma RevokedUntilOverwritten(cfg: Config, tr: seq<State>, acts: seq<Action>, i: nat, c: Id)
    requires IsRun(cfg, tr, acts) && i < |acts| && IsRevoked(tr[i], c)
    ensures c in tr[i + 1].rows
    ensures tr[i + 1].rows[c].state.REVOKED? <==> !Overwrites(tr[i], acts[i], c)
  {
    RunInv(cfg, tr, acts, i);
    assert RunStep(cfg, tr, acts, i);
    OverwriteStep(cfg, tr[i], acts[i], c);
  }
}
