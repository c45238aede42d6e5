/** What every run of a group of jobs keeps and how it ends (job.c, blockjob.c). */
module JobOutcome {
  import opened JobState
  import opened JobRun

  lemma CompletedKeys(g: Group, i: JobId, p: Prepares)
    requires i in g.jobs
    ensures CompletedJob(g, i, p).jobs.Keys == g.jobs.Keys
  {
    hide CancelAsync, UpdateRc, FinalizeSingle, Transition, Assert, AllCompleted, Completed;
  }

  lemma CancelKeys(g: Group, i: JobId, force: bool)
    requires i in g.jobs
    ensures CancelStep(g, i, force).jobs.Keys == g.jobs.Keys
  {
    hide CancelAsync, Enter, CompletedJob;
    CompletedKeys(Put(g, i, CancelAsync(g.jobs[i], force)), i, AllPrepared);
  }

  /** Steps that change one job only. */
  predicate OneJob(a: Act) {
    !a.ActCancel? && !a.ActCancelEnd? && !a.ActExit? && !a.ActFinalize?
  }

  lemma OnePut(g: Group, i: JobId, a: Act)
    requires Guard(g, i, a) && OneJob(a)
    ensures var h := Step(g, i, a); i in h.jobs && h.jobs == Put(g, i, h.jobs[i]).jobs
  {
    hide FinalizeSingle, LocalStep, CancelAsync, ResetIo, UserResume, LocalGuard, MayResume, MayCancel, PreparesOk;
  }

  lemma StepKeys(g: Group, i: JobId, a: Act)
    requires Guard(g, i, a)
    ensures Step(g, i, a).jobs.Keys == g.jobs.Keys
  {
    hide LocalStep, LocalGuard, CancelStep, CompletedJob, MayResume, MayCancel, Accepts, PreparesOk, AnyThread;
    if a.ActExit? {
      CompletedKeys(Put(g, i, g.jobs[i].(co := g.jobs[i].co.(busy := false, pos := Exited))), i, a.p);
    } else if a.ActCancel? {
      CancelKeys(g, i, a.force);
    } else if a.ActCancelEnd? {
      CancelKeys(g.(main := Free), i, g.main.force);
    } else if a.ActFinalize? {
      hide UpdateRc, FinalizeSingle;
    } else {
      hide Step, Guard;
      OnePut(g, i, a);
    }
  }

  lemma StepAtKeeps(r: seq<Group>, acts: seq<(JobId, Act)>, k: nat)
    requires StepAt(r, acts, k) && GroupInv(r[k])
    ensures GroupInv(r[k + 1]) && r[k + 1].jobs.Keys == r[k].jobs.Keys
  {
    hide GroupInv, Guard, Step;
    StepKeeps(r[k], acts[k].0, acts[k].1);
    StepKeys(r[k], acts[k].0, acts[k].1);
  }

  lemma {:induction false} RunInv(r: seq<Group>, acts: seq<(JobId, Act)>, k: nat)
    requires Run(r, acts) && k < |r|
    ensures GroupInv(r[k]) && r[k].jobs.Keys == r[0].jobs.Keys
  {
    hide GroupInv, StepAt;
    if k == 0 {
      InitInv(r[0]);
    } else {
      RunInv(r, acts, k - 1);
      assert StepAt(r, acts, k - 1);
      StepAtKeeps(r, acts, k - 1);
    }
  }

  /**
   In every reachable state no assertion has failed: every status change was allowed
   by the table, no counter was taken below zero, the coroutine was only woken while
   it was in job_do_yield.  A job is only freed in status NULL, outside any group and
   with no timer pending; and a job that is running or woken is busy, so that no
   second wake is issued.
   */
  lemma LifecycleSafe(r: seq<Group>, acts: seq<(JobId, Act)>, k: nat, i: JobId)
    requires Run(r, acts) && k < |r| && i in r[k].jobs
    ensures var j := r[k].jobs[i];
      && !j.failed
      && (j.refs.freed ==> j.status.Null? && !j.result.inTxn && !j.co.timer && j.refs.pins == 0)
      && (!Deaf(j.co) ==> j.co.pos.Yielded?) && (j.co.pos.Woken? ==> Deaf(j.co)) && !Enter(j).failed
  {
    RunInv(r, acts, k);
    hide Run;
    EnterKeeps(r[k].jobs[i]);
  }

  /**
   Every pause that counts has a reason: not started, paused by a user or for an
   error, or a drained section.  No resume is lost: a job sleeps in its pause point
   only while a pause counts, or after a forced cancel.  While the main thread is in
   a driver's user_resume callback the pause that it ends still counts.
   */
  lemma PausesConserved(r: seq<Group>, acts: seq<(JobId, Act)>, k: nat, i: JobId)
    requires Run(r, acts) && k < |r| && i in r[k].jobs
    ensures var j := r[k].jobs[i];
      && j.pauses.count == (if j.co.pos.NoCo? then 1 else 0) + (if j.pauses.user then 1 else 0) + j.pauses.drains
      && (InWindow(r[k].main, i) ==> j.pauses.user && j.pauses.count > 0)
      && (j.co.pos.Yielded? && j.co.paused ==> j.pauses.count > 0 || j.cancels.force)
  {
    RunInv(r, acts, k);
    hide Run;
    assert JobInv(r[k].jobs[i]);
  }

  lemma CancelledTwice(g: Group, i: JobId, force: bool)
    requires i in g.jobs && JobInv(g.jobs[i]) && g.jobs[i].co.pos.NoCo? && g.jobs[i].status.Aborting?
    ensures i in CancelStep(g, i, force).jobs && CancelStep(g, i, force).jobs[i].failed
  {
    var j := CancelAsync(g.jobs[i], force);
    CancelKeeps(g.jobs[i], force);
    hide CancelAsync;
    assert UpdateRc(Assert(j, false)).failed && UpdateRc(Assert(j, false)).result.ret != 0;
    hide UpdateRc, Assert, TxnSuccess;
  }

  /**
   A cancel of a member trips an assertion exactly if the job never started and has
   been cancelled before; the verb table keeps users from this, and nothing else does.
   */
  lemma CancelAssertsIff(g: Group, i: JobId, force: bool)
    requires GroupInv(g) && g.main.Free? && i in g.jobs && g.jobs[i].result.inTxn && (g.jobs[i].co.pos.NoCo? ==> force)
    ensures i in CancelStep(g, i, force).jobs
    ensures CancelStep(g, i, force).jobs[i].failed <==> g.jobs[i].co.pos.NoCo? && g.jobs[i].status.Aborting?
  {
    assert JobInv(g.jobs[i]);
    hide GroupInv, CancelStep;
    CancelKeys(g, i, force);
    if g.jobs[i].co.pos.NoCo? && g.jobs[i].status.Aborting? {
      CancelledTwice(g, i, force);
    } else {
      CancelStepKeeps(g, i, force);
      FitsUnfailed(CancelStep(g, i, force), i);
    }
  }

  lemma FitsUnfailed(g: Group, i: JobId)
    requires GroupInv(g) && i in g.jobs
    ensures !g.jobs[i].failed
  {
    assert JobInv(g.jobs[i]);
  }

  // --------------------------------------------------- completion is final

  predicate StaysCompleted(g: Group, h: Group) {
    g.jobs.Keys == h.jobs.Keys && forall i :: i in g.jobs ==> Stays(g.jobs[i], h.jobs[i])
  }

  predicate Stays(j: Job, k: Job) {
    Completed(j.status) ==> Completed(k.status)
  }

  lemma StaysTrans(g: Group, h: Group, f: Group)
    requires StaysCompleted(g, h) && StaysCompleted(h, f)
    ensures StaysCompleted(g, f)
  {
    forall i | i in g.jobs ensures Stays(g.jobs[i], f.jobs[i]) { assert Stays(g.jobs[i], h.jobs[i]); }
  }

  lemma CancelStays(j: Job, force: bool)
    ensures Stays(j, CancelAsync(j, force)) && Stays(j, Enter(CancelAsync(j, force)))
  {
  }

  lemma RcStays(j: Job)
    ensures Stays(j, UpdateRc(j)) && forall b :: Stays(j, UpdateRc(Assert(j, b)))
  {
  }

  lemma SingleStays(j: Job)
    ensures Stays(j, FinalizeSingle(j))
  {
  }

  lemma AbortStays(g: Group, d: JobId, cause: Cause)
    requires d in g.jobs
    ensures StaysCompleted(g, TxnAbort(g, d, cause))
  {
    StaysSelf(g);
    PutStays(g, d, g.jobs[d].(failed := true));
    hide Stays;
  }

  lemma PreparedStays(g: Group, p: Prepares)
    requires p.PrepareFails?
    ensures StaysCompleted(g, Prepared(g, p))
  {
    forall i | i in g.jobs ensures Stays(g.jobs[i], Prepared(g, p).jobs[i]) {
      RcStays(g.jobs[i]);
      RcStays(g.jobs[i].(result := g.jobs[i].result.(ret := p.code)));
      hide UpdateRc;
    }
  }

  lemma FinalizeStays(g: Group, d: JobId, p: Prepares)
    requires d in g.jobs
    ensures StaysCompleted(g, DoFinalize(g, d, p))
  {
    if p.PrepareFails? {
      PreparedStays(g, p);
      AbortStays(Prepared(g, p), d, ByPrepare(d, p.job));
      hide Prepared, TxnAbort;
      StaysTrans(g, Prepared(g, p), TxnAbort(Prepared(g, p), d, ByPrepare(d, p.job)));
    } else {
      forall i | i in g.jobs ensures Stays(g.jobs[i], FinalizeAll(g).jobs[i]) {
        RcStays(g.jobs[i]);
        SingleStays(UpdateRc(g.jobs[i]));
        hide UpdateRc, FinalizeSingle;
      }
    }
  }

  lemma SuccessStays(g: Group, i: JobId, p: Prepares)
    requires i in g.jobs
    ensures StaysCompleted(g, TxnSuccess(g, i, p))
  {
    var g1 := Put(g, i, Transition(g.jobs[i], Waiting));
    assert StaysCompleted(g, g1);
    var g2 := ToPending(g1);
    assert StaysCompleted(g1, g2) by {
      forall k | k in g1.jobs ensures Stays(g1.jobs[k], g2.jobs[k]) {}
    }
    FinalizeStays(g2, i, p);
    hide DoFinalize, ToPending, Transition, Stays;
    StaysTrans(g, g1, g2);
    StaysTrans(g, g2, DoFinalize(g2, i, p));
  }

  lemma CompletedStays(g: Group, i: JobId, p: Prepares)
    requires i in g.jobs
    ensures StaysCompleted(g, CompletedJob(g, i, p))
  {
    var j := UpdateRc(Assert(g.jobs[i], g.jobs[i].result.inTxn && !Completed(g.jobs[i].status)));
    RcStays(g.jobs[i]);
    hide UpdateRc, Assert, Stays, TxnSuccess, TxnAbort;
    var g1 := Put(g, i, j);
    assert StaysCompleted(g, g1) by { StaysSelf(g); }
    AbortStays(g1, i, ByCompletion(i));
    SuccessStays(g1, i, p);
    StaysTrans(g, g1, CompletedJob(g, i, p));
  }

  lemma StaysSelf(g: Group)
    ensures StaysCompleted(g, g)
  {
  }

  lemma PutStays(g: Group, i: JobId, j: Job)
    requires i in g.jobs && Stays(g.jobs[i], j)
    ensures StaysCompleted(g, Put(g, i, j))
  {
    StaysSelf(g);
    hide Stays;
  }

  lemma CancelStepStays(g: Group, i: JobId, force: bool)
    requires i in g.jobs
    ensures StaysCompleted(g, CancelStep(g, i, force))
  {
    CancelStays(g.jobs[i], force);
    hide CancelAsync, Enter, CompletedJob, TxnAbort, StaysCompleted, Stays;
    var j := CancelAsync(g.jobs[i], force);
    PutStays(g, i, j);
    PutStays(g, i, Enter(j));
    CompletedStays(Put(g, i, j), i, AllPrepared);
    StaysTrans(g, Put(g, i, j), CompletedJob(Put(g, i, j), i, AllPrepared));
    AbortStays(Put(g, i, j), i, ByCancel(i));
    StaysTrans(g, Put(g, i, j), TxnAbort(Put(g, i, j), i, ByCancel(i)));
  }

  lemma ExitStepStays(g: Group, i: JobId, e: Job, p: Prepares)
    requires i in g.jobs && e.status == g.jobs[i].status
    ensures StaysCompleted(g, CompletedJob(Put(g, i, e), i, p))
  {
    hide CompletedJob, StaysCompleted;
    PutStays(g, i, e);
    CompletedStays(Put(g, i, e), i, p);
    StaysTrans(g, Put(g, i, e), CompletedJob(Put(g, i, e), i, p));
  }

  lemma WindowStays(j: Job)
    ensures Stays(j, ResetIo(j)) && Stays(j, UserResume(j))
  {
  }

  lemma StepStays(g: Group, i: JobId, a: Act)
    requires GroupInv(g) && Guard(g, i, a)
    ensures StaysCompleted(g, Step(g, i, a))
  {
    hide CancelStep, CompletedJob, DoFinalize, FinalizeSingle, LocalStep, CancelAsync, ResetIo, UserResume, Accepts;
    var j := g.jobs[i];
    if a.ActCancel? {
      CancelStepStays(g, i, a.force);
    } else if a.ActCancelEnd? {
      CancelStepStays(g.(main := Free), i, g.main.force);
    } else if a.ActExit? {
      ExitStepStays(g, i, j.(co := j.co.(busy := false, pos := Exited)), a.p);
    } else if a.ActFinalize? {
      FinalizeStays(g, i, a.p);
    } else {
      hide GroupInv, Stays, Step, Guard;
      OneStays(g, i, a);
      OnePut(g, i, a);
      PutStays(g, i, Step(g, i, a).jobs[i]);
    }
  }

  lemma OneStays(g: Group, i: JobId, a: Act)
    requires GroupInv(g) && Guard(g, i, a) && OneJob(a)
    ensures var h := Step(g, i, a); i in h.jobs && Stays(g.jobs[i], h.jobs[i])
  {
    hide FinalizeSingle, LocalStep, CancelAsync, ResetIo, UserResume, Accepts, Stays, MayResume, MayCancel, PreparesOk;
    WindowStays(g.jobs[i]);
    CancelStays(g.jobs[i], true);
    SingleStays(g.jobs[i]);
    assert JobInv(g.jobs[i]);
    hide GroupInv, JobInv;
    if LocalGuard(g.jobs[i], a) { LocalStays(g.jobs[i], a); }
    hide LocalGuard;
  }

  lemma LocalStays(j: Job, a: Act)
    requires JobInv(j) && LocalGuard(j, a) && !j.refs.freed
    ensures Stays(j, LocalStep(j, a))
  {
    LocalKeeps(j, a);
    hide LocalStep, JobInv;
  }

  /** A completed job stays completed. */
  lemma {:induction false} CompletedIsFinal(r: seq<Group>, acts: seq<(JobId, Act)>, k: nat, m: nat, i: JobId)
    requires Run(r, acts) && k <= m < |r| && i in r[k].jobs && Completed(r[k].jobs[i].status)
    ensures i in r[m].jobs && Completed(r[m].jobs[i].status)
    decreases m
  {
    hide GroupInv, StepAt, Init, Completed;
    if k < m {
      CompletedIsFinal(r, acts, k, m - 1, i);
      RunInv(r, acts, m - 1);
      assert StepAt(r, acts, m - 1);
      StepAtStays(r, acts, m - 1, i);
    }
  }

  lemma StepAtStays(r: seq<Group>, acts: seq<(JobId, Act)>, k: nat, i: JobId)
    requires StepAt(r, acts, k) && GroupInv(r[k]) && i in r[k].jobs && Completed(r[k].jobs[i].status)
    ensures i in r[k + 1].jobs && Completed(r[k + 1].jobs[i].status)
  {
    hide GroupInv, Guard, Step;
    StepStays(r[k], acts[k].0, acts[k].1);
    assert Stays(r[k].jobs[i], r[k + 1].jobs[i]);
  }

  // ------------------------------------------------------- how a group ends

  /** Once a group is being aborted the reason stays the same. */
  lemma CauseStays(g: Group, i: JobId, a: Act)
    requires GroupInv(g) && Guard(g, i, a) && g.aborting
    ensures Step(g, i, a).aborting && Step(g, i, a).cause == g.cause
  {
    hide CancelStep, CancelAsync, ResetIo, UserResume, FinalizeSingle, LocalStep, LocalGuard, Accepts;
    if a.ActExit? {
      ExitCause(g, i, a.p);
    } else if a.ActCancel? {
      assert JobInv(g.jobs[i]);
      MayCancelFits(g.jobs[i], a.force);
      CancelCause(g, i, a.force);
    } else if a.ActCancelEnd? {
      MainFree(g);
      CancelCause(g.(main := Free), i, g.main.force);
    }
  }

  lemma ExitCause(g: Group, i: JobId, p: Prepares)
    requires GroupInv(g) && Guard(g, i, ActExit(p)) && g.aborting
    ensures var h := Step(g, i, ActExit(p)); h.aborting && h.cause == g.cause
  {
    ExitKeeps(g.jobs[i]);
    assert !Completed(g.jobs[i].status);
    WaitedForAreCancelled(g, i);
    hide GroupInv, UpdateRc, Assert, TxnSuccess;
  }

  lemma CancelCause(g: Group, i: JobId, force: bool)
    requires GroupInv(g) && g.main.Free? && i in g.jobs && CancelFits(g.jobs[i], force) && g.aborting
    ensures var h := CancelStep(g, i, force); h.aborting && h.cause == g.cause
  {
    assert JobInv(g.jobs[i]);
    if g.jobs[i].co.pos.NoCo? { UnstartedRc(g.jobs[i]); }
    CancelKeeps(g.jobs[i], force);
    hide GroupInv, JobInv, CancelAsync, UpdateRc, TxnSuccess, Assert, Enter;
  }

  lemma {:induction false} CauseIsFinal(r: seq<Group>, acts: seq<(JobId, Act)>, k: nat, m: nat)
    requires Run(r, acts) && k <= m < |r| && r[k].aborting
    ensures r[m].aborting && r[m].cause == r[k].cause
    decreases m
  {
    hide GroupInv, StepAt, Init;
    if k < m {
      CauseIsFinal(r, acts, k, m - 1);
      RunInv(r, acts, m - 1);
      assert StepAt(r, acts, m - 1);
      StepAtCause(r, acts, m - 1);
    }
  }

  lemma StepAtCause(r: seq<Group>, acts: seq<(JobId, Act)>, k: nat)
    requires StepAt(r, acts, k) && GroupInv(r[k]) && r[k].aborting
    ensures r[k + 1].aborting && r[k + 1].cause == r[k].cause
  {
    hide GroupInv, Guard, Step;
    CauseStays(r[k], acts[k].0, acts[k].1);
  }

  /**
   Every member is finalised at most once, with commit or abort and then clean.  In
   a group that is not aborted only commit is called; after an error or a cancel only
   abort; after a failed prepare abort for all but the job that drives finalisation,
   and commit for that one exactly if the failure was not its own and it has not been
   cancelled by force.
   */
  lemma GroupOutcome(r: seq<Group>, acts: seq<(JobId, Act)>, k: nat, i: JobId)
    requires Run(r, acts) && k < |r| && i in r[k].jobs && r[k].jobs[i].result.events != []
    ensures var ev := r[k].jobs[i].result.events;
      match r[k].cause
      case NoCause => ev == [Commit, Clean] && Members(r[k]) == {}
      case ByCompletion(_) => ev == [Abort, Clean]
      case ByCancel(_) => ev == [Abort, Clean]
      case ByPrepare(d, p) =>
        ev == [if i == d && p != d && !r[k].jobs[d].cancels.force then Commit else Abort, Clean]
  {
    RunInv(r, acts, k);
    hide Run;
    assert JobInv(r[k].jobs[i]);
  }

  /** A member that has left the group without being finalised had not even started. */
  lemma OnlyEarlyFailuresSkip(r: seq<Group>, acts: seq<(JobId, Act)>, k: nat, i: JobId)
    requires Run(r, acts) && k < |r| && i in r[k].jobs && !r[k].jobs[i].result.inTxn && r[k].jobs[i].result.events == []
    ensures r[k].jobs[i].status.Null? && r[k].jobs[i].co.pos.NoCo? && r[k].jobs[i].result.ret == 0
  {
    RunInv(r, acts, k);
    hide Run;
    assert JobInv(r[k].jobs[i]);
  }

  /** A member that completes with an error makes every member that is finalised abort. */
  lemma ErrorAbortsAll(r: seq<Group>, acts: seq<(JobId, Act)>, k: nat, m: nat, i: JobId)
    requires Run(r, acts) && k < |acts| && k < m < |r|
    requires acts[k].1.ActExit? && acts[k].0 in r[k].jobs && r[k].jobs[acts[k].0].result.ret != 0
    requires i in r[m].jobs && r[m].jobs[i].result.events != []
    ensures r[m].jobs[i].result.events == [Abort, Clean]
  {
    hide StepAt, GroupInv, Init;
    RunInv(r, acts, k);
    assert StepAt(r, acts, k);
    StepAtError(r, acts, k);
    CauseIsFinal(r, acts, k + 1, m);
    GroupOutcome(r, acts, m, i);
  }

  lemma StepAtError(r: seq<Group>, acts: seq<(JobId, Act)>, k: nat)
    requires StepAt(r, acts, k) && GroupInv(r[k])
    requires acts[k].1.ActExit? && acts[k].0 in r[k].jobs && r[k].jobs[acts[k].0].result.ret != 0
    ensures r[k + 1].aborting && (r[k + 1].cause.ByCompletion? || r[k + 1].cause.ByCancel?)
  {
    hide GroupInv, Guard, Step;
    ErrorCause(r[k], acts[k].0, acts[k].1.p);
  }

  lemma ErrorCause(g: Group, i: JobId, p: Prepares)
    requires GroupInv(g) && Guard(g, i, ActExit(p)) && g.jobs[i].result.ret != 0
    ensures var h := Step(g, i, ActExit(p)); h.aborting && (h.cause.ByCompletion? || h.cause.ByCancel?)
  {
    ExitKeeps(g.jobs[i]);
    if g.aborting {
      CauseStays(g, i, ActExit(p));
      PreparesOnlyWhenDone(g, i);
    }
    hide GroupInv, UpdateRc, Assert, TxnSuccess;
  }

  /** While a member has not completed, the group cannot be aborted for a failed prepare. */
  lemma PreparesOnlyWhenDone(g: Group, i: JobId)
    requires GroupInv(g) && g.aborting && i in g.jobs && g.jobs[i].co.pos.Ended?
    ensures !g.cause.ByPrepare?
  {
    assert JobInv(g.jobs[i]);
  }

  // ---------------------------------------------------- when all goes well

  /** Nobody cancels, every run function returns 0 and so does every prepare callback. */
  predicate Benign(a: Act) {
    && !a.ActCancel? && !a.ActCancelBegin? && (a.ActFinish? ==> a.ret == 0)
    && (a.ActExit? || a.ActFinalize? ==> a.p.AllPrepared?)
  }

  predicate Well(j: Job) {
    j.result.ret == 0 && !j.cancels.force
  }

  predicate WellGroup(g: Group) {
    !g.aborting && !g.main.Cancelling? && forall i :: i in g.jobs ==> Well(g.jobs[i])
  }

  lemma LocalWell(j: Job, a: Act)
    requires JobInv(j) && !j.refs.freed && LocalGuard(j, a) && Benign(a) && Well(j)
    ensures Well(LocalStep(j, a))
  {
  }

  lemma WellParts(j: Job)
    requires Well(j)
    ensures UpdateRc(j) == j && Well(FinalizeSingle(j))
    ensures (forall b :: Well(Assert(j, b)) && UpdateRc(Assert(j, b)) == Assert(j, b)) &&
      (forall s :: Well(Transition(j, s)))
  {
  }

  lemma FinalizeWell(g: Group)
    requires WellGroup(g)
    ensures WellGroup(FinalizeAll(g)) && WellGroup(ToPending(g))
  {
    forall i | i in g.jobs ensures Well(FinalizeAll(g).jobs[i]) && Well(ToPending(g).jobs[i]) {
      WellParts(g.jobs[i]);
      WellParts(Assert(g.jobs[i], g.jobs[i].result.ret == 0));
      hide UpdateRc, FinalizeSingle, Transition, Assert, Well;
    }
  }

  lemma ExitWell(g: Group, i: JobId)
    requires WellGroup(g) && i in g.jobs
    ensures WellGroup(CompletedJob(g, i, AllPrepared))
  {
    var j := g.jobs[i];
    WellParts(j);
    var u := Assert(j, j.result.inTxn && !Completed(j.status));
    WellParts(u);
    assert u.result.ret == 0;
    var g1 := Put(Put(g, i, u), i, Transition(u, Waiting));
    assert WellGroup(g1) by { hide Transition, Assert, Well; }
    hide UpdateRc, Assert, Transition, FinalizeAll, ToPending, WellGroup, Well;
    FinalizeWell(g1);
    FinalizeWell(ToPending(g1));
  }

  lemma WindowWell(j: Job)
    requires Well(j)
    ensures Well(ResetIo(j)) && Well(UserResume(j))
  {
  }

  lemma StepWell(g: Group, i: JobId, a: Act)
    requires GroupInv(g) && WellGroup(g) && Guard(g, i, a) && Benign(a)
    ensures WellGroup(Step(g, i, a))
  {
    assert JobInv(g.jobs[i]) && MainFits(g);
    hide GroupInv, CompletedJob, FinalizeAll, FinalizeSingle, LocalStep, Accepts, JobInv, ResetIo, UserResume, SweepOne;
    var j := g.jobs[i];
    if a.ActExit? {
      ExitWell(Put(g, i, j.(co := j.co.(busy := false, pos := Exited))), i);
    } else if a.ActFinalize? {
      FinalizeWell(g);
    } else {
      OneWell(g, i, a);
    }
  }

  lemma OneWell(g: Group, i: JobId, a: Act)
    requires WellGroup(g) && Guard(g, i, a) && Benign(a) && JobInv(g.jobs[i]) && MainFits(g)
    requires !a.ActExit? && !a.ActFinalize?
    ensures WellGroup(Step(g, i, a))
  {
    hide FinalizeSingle, LocalStep, CancelAsync, ResetIo, UserResume, Accepts, JobInv, MayResume, MayCancel, PreparesOk;
    WindowWell(g.jobs[i]);
    WellParts(g.jobs[i]);
    if LocalGuard(g.jobs[i], a) { LocalWell(g.jobs[i], a); }
    hide LocalGuard, Well;
  }

  lemma InitWell(g: Group)
    requires Init(g)
    ensures WellGroup(g)
  {
    assert forall i :: i in g.jobs ==> g.jobs[i] == NewJob(g.jobs[i].options);
  }

  lemma {:induction false} RunWell(r: seq<Group>, acts: seq<(JobId, Act)>, k: nat)
    requires Run(r, acts) && k < |r| && forall m :: 0 <= m < |acts| ==> Benign(acts[m].1)
    ensures WellGroup(r[k])
  {
    hide GroupInv, StepAt, Init, WellGroup, Benign;
    if k == 0 {
      InitWell(r[0]);
    } else {
      RunWell(r, acts, k - 1);
      RunInv(r, acts, k - 1);
      assert StepAt(r, acts, k - 1);
      StepAtWell(r, acts, k - 1);
    }
  }

  lemma StepAtWell(r: seq<Group>, acts: seq<(JobId, Act)>, k: nat)
    requires StepAt(r, acts, k) && GroupInv(r[k]) && WellGroup(r[k]) && Benign(acts[k].1)
    ensures WellGroup(r[k + 1])
  {
    hide GroupInv, Guard, Step, WellGroup, Benign;
    StepWell(r[k], acts[k].0, acts[k].1);
  }

  /** Without errors and cancels every member that has left the group was committed, or failed before it started. */
  lemma AllWellCommits(r: seq<Group>, acts: seq<(JobId, Act)>, k: nat, i: JobId)
    requires Run(r, acts) && k < |r| && forall m :: 0 <= m < |acts| ==> Benign(acts[m].1)
    requires i in r[k].jobs && !r[k].jobs[i].result.inTxn
    ensures r[k].jobs[i].result.events == [Commit, Clean] || (r[k].jobs[i].status.Null? && r[k].jobs[i].co.pos.NoCo?)
  {
    RunWell(r, acts, k);
    RunInv(r, acts, k);
    hide Run;
    assert JobInv(r[k].jobs[i]);
  }
}
