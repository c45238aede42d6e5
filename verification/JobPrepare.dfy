/**
 What becomes of a group in which a prepare callback fails (job_do_finalize_locked in
 job.c), told from the step that runs the callbacks.
 */
module JobPrepare {
  import opened JobState
  import opened JobRun
  import opened JobOutcome
  import opened JobWindow

  /** The step gets as far as the prepare callbacks: on request, or with the last member to complete. */
  predicate Finalizes(g: Group, i: JobId, a: Act) {
    && i in g.jobs && !g.aborting
    && (a.ActFinalize? || (a.ActExit? && LastToComplete(g, i)))
  }

  predicate LastToComplete(g: Group, i: JobId)
    requires i in g.jobs
  {
    && g.jobs[i].result.ret == 0 && !g.jobs[i].cancels.force
    && (forall k :: k in g.jobs && k != i && g.jobs[k].result.inTxn ==> Completed(g.jobs[k].status))
    && (forall k :: k in g.jobs && g.jobs[k].result.inTxn ==> g.jobs[k].options.autoFinalize)
  }

  /** The prepare callback of a member fails in this step. */
  predicate PrepareFailsAt(g: Group, i: JobId, a: Act) {
    Finalizes(g, i, a) && a.p.PrepareFails?
  }

  // ------------------------------------------------------- which step it is

  lemma FinalizeCause(g: Group, d: JobId, p: Prepares)
    requires d in g.jobs && g.jobs[d].result.inTxn && !g.aborting && g.cause == NoCause
    ensures DoFinalize(g, d, p).cause == if p.PrepareFails? then ByPrepare(d, p.job) else NoCause
  {
    if p.PrepareFails? {
      RcMember(g.jobs[d], p.code);
      hide UpdateRc;
    }
  }

  lemma RcMember(j: Job, ret: int)
    ensures UpdateRc(j).result.inTxn == UpdateRc(j.(result := j.result.(ret := ret))).result.inTxn == j.result.inTxn
  {
  }

  lemma PendingMember(g: Group, d: JobId)
    requires d in g.jobs
    ensures d in ToPending(g).jobs && ToPending(g).jobs[d].result == g.jobs[d].result
  {
  }

  lemma SuccessCause(g: Group, d: JobId, p: Prepares)
    requires d in g.jobs && g.jobs[d].result.inTxn && !g.aborting && g.cause == NoCause
    ensures var w := Transition(g.jobs[d], Waiting);
      var auto := forall k :: k in g.jobs && g.jobs[k].result.inTxn ==> g.jobs[k].options.autoFinalize;
      var last := AllCompleted(Put(g, d, w)) && auto;
      TxnSuccess(g, d, p).cause == if last && p.PrepareFails? then ByPrepare(d, p.job) else NoCause
  {
    var w := Transition(g.jobs[d], Waiting);
    assert w.result == g.jobs[d].result && w.options == g.jobs[d].options;
    hide Transition, DoFinalize, AllCompleted;
    var g1 := Put(g, d, w);
    forall k | k in g.jobs
      ensures g1.jobs[k].result.inTxn == g.jobs[k].result.inTxn && g1.jobs[k].options == g.jobs[k].options
    {
    }
    PendingMember(g1, d);
    FinalizeCause(ToPending(g1), d, p);
    hide ToPending;
  }

  lemma WaitingCompleted(g: Group, i: JobId, u: Job)
    requires i in g.jobs && g.jobs[i].result.inTxn && u.result.inTxn && Transition(u, Waiting).status.Waiting?
    ensures AllCompleted(Put(Put(g, i, u), i, Transition(u, Waiting))) <==>
      forall k :: k in g.jobs && k != i && g.jobs[k].result.inTxn ==> Completed(g.jobs[k].status)
  {
    var h := Put(Put(g, i, u), i, Transition(u, Waiting));
    assert h.jobs[i].result.inTxn && Completed(h.jobs[i].status);
    hide Transition;
    assert forall k :: k in g.jobs && k != i ==> h.jobs[k] == g.jobs[k];
    if AllCompleted(h) {
      forall k | k in g.jobs && k != i && g.jobs[k].result.inTxn ensures Completed(g.jobs[k].status) {
        assert k in h.jobs && h.jobs[k].result.inTxn;
      }
    }
  }

  /** The cause after a member has completed well, in a group that is in order. */
  lemma WellCause(g: Group, i: JobId, u: Job, p: Prepares)
    requires i in g.jobs && g.jobs[i].result.inTxn && !g.aborting && g.cause == NoCause
    requires u.result == g.jobs[i].result && u.options == g.jobs[i].options && u.cancels == g.jobs[i].cancels
    requires u.result.ret == 0 && !u.cancels.force && Transition(u, Waiting).status.Waiting?
    ensures TxnSuccess(Put(g, i, u), i, p).cause ==
      if LastToComplete(g, i) && p.PrepareFails? then ByPrepare(i, p.job) else NoCause
  {
    var g1 := Put(g, i, u);
    SuccessCause(g1, i, p);
    WaitingCompleted(g, i, u);
    hide TxnSuccess, AllCompleted, Transition, Completed;
    forall k | k in g.jobs
      ensures g1.jobs[k].result.inTxn == g.jobs[k].result.inTxn && g1.jobs[k].options == g.jobs[k].options
    {
    }
  }

  lemma ExitCauseIs(g: Group, i: JobId, p: Prepares)
    requires GroupInv(g) && Guard(g, i, ActExit(p)) && !g.aborting
    ensures var c := Step(g, i, ActExit(p)).cause;
      if LastToComplete(g, i) && p.PrepareFails? then c == ByPrepare(i, p.job) else c == NoCause || c == ByCompletion(i)
  {
    var j := g.jobs[i];
    var e := j.(co := j.co.(busy := false, pos := Exited));
    var u := UpdateRc(Assert(e, e.result.inTxn && !Completed(e.status)));
    ExitKeeps(j) by { hide Step; }
    assert g.cause == NoCause by { hide Step, AllFit, MainFits; }
    hide GroupInv, JobInv, UpdateRc, Assert, TxnSuccess, PreparesOk, LocalGuard, Transition;
    PutPut(g, i, e, u);
    if u.result.ret == 0 { WellCause(g, i, u, p); }
    hide LastToComplete;
  }

  lemma CancelCauseIs(g: Group, i: JobId, force: bool)
    requires i in g.jobs && !g.cause.ByPrepare?
    ensures !CancelStep(g, i, force).cause.ByPrepare?
  {
    hide CancelAsync, Enter, UpdateRc, Assert, Transition, AllCompleted, FinalizeSingle;
  }

  lemma OneCause(g: Group, i: JobId, a: Act)
    requires Guard(g, i, a) && OneJob(a)
    ensures Step(g, i, a).cause == g.cause
  {
    hide LocalStep, LocalGuard, CancelAsync, ResetIo, UserResume, FinalizeSingle, MayResume, MayCancel, Accepts;
  }

  /** A group begins to be aborted for a failed prepare in exactly the steps that run the callbacks and see one fail. */
  lemma PrepareCause(g: Group, i: JobId, a: Act)
    requires GroupInv(g) && Guard(g, i, a) && !g.aborting
    ensures Step(g, i, a).cause.ByPrepare? <==> PrepareFailsAt(g, i, a)
    ensures PrepareFailsAt(g, i, a) ==> Step(g, i, a).cause == ByPrepare(i, a.p.job) && Step(g, i, a).aborting
  {
    assert g.cause == NoCause;
    StepKeeps(g, i, a);
    if a.ActExit? {
      hide Step, Guard, LastToComplete;
      ExitCauseIs(g, i, a.p);
      CauseMeansAborting(Step(g, i, a));
    } else if a.ActFinalize? {
      assert g.jobs[i].result.inTxn by { assert JobInv(g.jobs[i]); }
      hide GroupInv, DoFinalize;
      FinalizeCause(g, i, a.p);
      CauseMeansAborting(Step(g, i, a));
    } else if a.ActCancel? {
      hide GroupInv, CancelStep;
      CancelCauseIs(g, i, a.force);
    } else if a.ActCancelEnd? {
      hide GroupInv, CancelStep;
      CancelCauseIs(g.(main := Free), i, g.main.force);
    } else {
      hide GroupInv, Step, Guard;
      OneCause(g, i, a);
    }
  }

  lemma CauseMeansAborting(g: Group)
    requires GroupInv(g)
    ensures g.aborting <==> !g.cause.NoCause?
  {
    hide AllFit, MainFits;
  }

  /** The job that drives finalisation has not been cancelled for good. */
  lemma DriverUnforced(g: Group, i: JobId, a: Act)
    requires GroupInv(g) && Guard(g, i, a) && Finalizes(g, i, a)
    ensures !g.jobs[i].cancels.force && !Forces(g.main, a)
  {
    assert JobInv(g.jobs[i]) && GoodMember(g.jobs[i]);
  }

  // ------------------------------------------------------------ whole runs

  /** Job d is cancelled by force at q. */
  predicate ForcedAt(r: seq<Group>, acts: seq<(JobId, Act)>, d: JobId, q: nat) {
    q < |acts| && q < |r| && acts[q].0 == d && Forces(r[q].main, acts[q].1)
  }

  lemma StepAtForce(r: seq<Group>, acts: seq<(JobId, Act)>, k: nat, d: JobId)
    requires StepAt(r, acts, k) && GroupInv(r[k]) && d in r[k].jobs
    ensures d in r[k + 1].jobs
    ensures r[k + 1].jobs[d].cancels.force <==> r[k].jobs[d].cancels.force || ForcedAt(r, acts, d, k)
  {
    hide GroupInv, Guard, Step;
    StepForce(r[k], acts[k].0, acts[k].1, d);
  }

  /** A job is cancelled for good exactly if it was before, or a step in between forced it. */
  lemma {:induction false} ForceOrigin(r: seq<Group>, acts: seq<(JobId, Act)>, d: JobId, k: nat, m: nat)
    requires Run(r, acts) && k <= m < |r| && d in r[k].jobs
    ensures d in r[m].jobs
    ensures r[m].jobs[d].cancels.force <==>
      r[k].jobs[d].cancels.force || exists q :: k <= q < m && ForcedAt(r, acts, d, q)
    decreases m
  {
    hide GroupInv, StepAt, Init, ForcedAt;
    if k < m {
      ForceOrigin(r, acts, d, k, m - 1);
      RunInv(r, acts, m - 1);
      assert StepAt(r, acts, m - 1);
      StepAtForce(r, acts, m - 1, d);
    }
  }

  /** Job d is cancelled at q, by force or while it can still be told. */
  predicate AskedAt(r: seq<Group>, acts: seq<(JobId, Act)>, d: JobId, q: nat) {
    q < |acts| && q < |r| && acts[q].0 == d && d in r[q].jobs && Asks(r[q].main, r[q].jobs[d], acts[q].1)
  }

  lemma StepAtAsk(r: seq<Group>, acts: seq<(JobId, Act)>, k: nat, d: JobId)
    requires StepAt(r, acts, k) && GroupInv(r[k]) && d in r[k].jobs
    ensures d in r[k + 1].jobs
    ensures r[k + 1].jobs[d].cancels.asked <==> r[k].jobs[d].cancels.asked || AskedAt(r, acts, d, k)
  {
    hide GroupInv, Guard, Step, Asks;
    StepForce(r[k], acts[k].0, acts[k].1, d);
  }

  /**
   A job counts as cancelled exactly if it did before, or if in between it was cancelled
   by force, with its group, or without force before it had returned to the main loop.
   */
  lemma {:induction false} AskOrigin(r: seq<Group>, acts: seq<(JobId, Act)>, d: JobId, k: nat, m: nat)
    requires Run(r, acts) && k <= m < |r| && d in r[k].jobs
    ensures d in r[m].jobs
    ensures r[m].jobs[d].cancels.asked <==>
      r[k].jobs[d].cancels.asked || exists q :: k <= q < m && AskedAt(r, acts, d, q)
    decreases m
  {
    hide GroupInv, StepAt, Init, AskedAt;
    if k < m {
      AskOrigin(r, acts, d, k, m - 1);
      RunInv(r, acts, m - 1);
      assert StepAt(r, acts, m - 1);
      StepAtAsk(r, acts, m - 1, d);
    }
  }

  lemma StepAtPrepare(r: seq<Group>, acts: seq<(JobId, Act)>, k: nat)
    requires StepAt(r, acts, k) && GroupInv(r[k]) && PrepareFailsAt(r[k], acts[k].0, acts[k].1)
    ensures r[k + 1].cause == ByPrepare(acts[k].0, acts[k].1.p.job) && r[k + 1].aborting
    ensures var d := acts[k].0; d in r[k + 1].jobs && !r[k + 1].jobs[d].cancels.force
  {
    var g, d, a := r[k], acts[k].0, acts[k].1;
    hide GroupInv, Guard, Step;
    PrepareCause(g, d, a);
    DriverUnforced(g, d, a);
    StepForce(g, d, a, d);
  }

  /**
   When the prepare callback of a member fails, every member that is finalised later is
   aborted, with one exception: the job that drove finalisation is committed, unless the
   failing callback was its own or it is cancelled by force before it is finalised.
   */
  lemma FailedPrepareOutcome(r: seq<Group>, acts: seq<(JobId, Act)>, k: nat, m: nat, i: JobId)
    requires Run(r, acts) && k < |acts| && k < m < |r| && PrepareFailsAt(r[k], acts[k].0, acts[k].1)
    requires i in r[m].jobs && r[m].jobs[i].result.events != []
    ensures var d, p := acts[k].0, acts[k].1.p.job;
      var forced := exists q :: k < q < m && ForcedAt(r, acts, d, q);
      r[m].jobs[i].result.events == [if i == d && p != d && !forced then Commit else Abort, Clean]
  {
    hide GroupInv, StepAt, Init, ForcedAt, PrepareFailsAt;
    var d := acts[k].0;
    RunInv(r, acts, k);
    assert StepAt(r, acts, k);
    StepAtPrepare(r, acts, k);
    CauseIsFinal(r, acts, k + 1, m);
    ForceOrigin(r, acts, d, k + 1, m);
    GroupOutcome(r, acts, m, i);
  }
}
