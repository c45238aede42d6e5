/**
 Drained sections and jobs (blockjob.c): a job that is not busy when its nodes are
 drained runs no driver code until the section ends, unless it sleeps in its pause
 point and is entered or cancelled, or is cancelled by force.
 */
module JobDrain {
  import opened JobState
  import opened JobRun
  import opened JobOutcome
  import opened JobWindow

  /**
   The coroutine is not in the driver's code and does not get there before the pause
   ends: it has not started, has returned, or meets a pause point where it stops.  After
   a forced cancel a pause point stops nobody.
   */
  predicate Silent(j: Job) {
    !Exposed(j) && !(j.cancels.force && (j.co.pos.Yielded? || j.status.Created?))
  }

  predicate Drained(j: Job) {
    j.pauses.drains > 0
  }

  /** What .drained_poll looks at: a job that is not busy is silent, unless a forced cancel is still to take effect. */
  lemma IdleIsSilent(j: Job)
    requires JobInv(j) && (!j.co.busy || Completed(j.status))
    ensures Silent(j) <==> !j.cancels.force || Completed(j.status)
  {
  }

  lemma CompletedIsSilent(j: Job)
    requires JobInv(j) && Completed(j.status)
    ensures Silent(j) && !Alive(j) && !j.status.Created?
  {
  }

  /** The step lets a silent job into the driver's code, now or when it is next entered or started. */
  predicate Rouses(m: Main, j: Job, a: Act) {
    if Alive(j) then Forces(m, a) || (j.co.paused && (a.ActEnter? || a.ActCancel? || a.ActCancelEnd?))
    else j.status.Created? && (a.ActSweep? || a.ActSweepEnd?)
  }

  /** In a drained section only job_enter of a paused job breaks the silence, of all steps that touch only the job. */
  lemma DrainedStep(j: Job, a: Act)
    requires JobInv(j) && LocalGuard(j, a) && Silent(j) && Drained(j) && Drained(LocalStep(j, a))
    ensures Silent(LocalStep(j, a)) <==> !(a.ActEnter? && Alive(j) && j.co.paused)
    ensures !Silent(LocalStep(j, a)) ==> Exposed(LocalStep(j, a))
  {
  }

  /** A cancel breaks the silence of a drained job that runs exactly if it is forced or the job is paused. */
  lemma CancelSilence(j: Job, force: bool)
    requires JobInv(j) && Silent(j) && Drained(j) && Alive(j)
    ensures var k := Enter(CancelAsync(j, force));
      && (Silent(k) <==> !force && !j.co.paused) && (!Silent(k) ==> Exposed(k))
      && Drained(k) && !j.co.deferred && !j.co.pos.NoCo?
  {
    CancelKeeps(j, force);
  }

  /** The end of a user's pause wakes nobody while the section is open. */
  lemma ResumeSilence(j: Job)
    requires JobInv(j) && Silent(j) && Drained(j) && j.pauses.user
    ensures Silent(ResetIo(j)) && Silent(UserResume(j))
  {
  }

  // ------------------------------------------------------------ whole runs

  lemma CompletionLeaves(g: Group, d: JobId, p: Prepares, i: JobId)
    requires d in g.jobs && i in g.jobs && i != d && !Completed(g.jobs[i].status) && g.jobs[i].result.inTxn
    ensures i in CompletedJob(g, d, p).jobs && CompletedJob(g, d, p).jobs[i] == g.jobs[i]
  {
    var u := UpdateRc(Assert(g.jobs[d], g.jobs[d].result.inTxn && !Completed(g.jobs[d].status)));
    hide UpdateRc, Assert;
    if u.result.ret == 0 {
      var g1 := Put(Put(g, d, u), d, Transition(u, Waiting));
      assert !AllCompleted(g1) by { assert g1.jobs[i] == g.jobs[i]; }
    }
  }

  lemma CancelLeaves(g: Group, d: JobId, force: bool, i: JobId)
    requires d in g.jobs && i in g.jobs && i != d && !Completed(g.jobs[i].status) && g.jobs[i].result.inTxn
    ensures i in CancelStep(g, d, force).jobs && CancelStep(g, d, force).jobs[i] == g.jobs[i]
  {
    hide CompletedJob, CancelAsync, Enter;
    CompletionLeaves(Put(g, d, CancelAsync(g.jobs[d], force)), d, AllPrepared, i);
  }

  lemma ExitLeaves(g: Group, d: JobId, p: Prepares, i: JobId)
    requires Guard(g, d, ActExit(p)) && i in g.jobs && i != d && !Completed(g.jobs[i].status) && g.jobs[i].result.inTxn
    ensures i in Step(g, d, ActExit(p)).jobs && Step(g, d, ActExit(p)).jobs[i] == g.jobs[i]
  {
    hide CompletedJob, Completed, PreparesOk;
    CompletionLeaves(Put(g, d, g.jobs[d].(co := g.jobs[d].co.(busy := false, pos := Exited))), d, p, i);
  }

  lemma CancelsLeave(g: Group, d: JobId, a: Act, i: JobId)
    requires MainFits(g) && Guard(g, d, a) && (a.ActCancel? || a.ActCancelEnd?)
    requires i in g.jobs && i != d && !Completed(g.jobs[i].status) && g.jobs[i].result.inTxn
    ensures i in Step(g, d, a).jobs && Step(g, d, a).jobs[i] == g.jobs[i]
  {
    var force := CancelIs(g, d, a, i);
    hide Step, Guard, MainFits, CancelStep, Completed, InWindow;
    CancelLeaves(g.(main := Free), d, force, i);
  }

  /** While a member has not completed, nobody can be finalised on request. */
  lemma NotFinalized(g: Group, d: JobId, a: Act, i: JobId)
    requires GroupInv(g) && Guard(g, d, a) && i in g.jobs && g.jobs[i].result.inTxn && !Completed(g.jobs[i].status)
    ensures !a.ActFinalize?
  {
    hide GroupInv, Completed;
    if a.ActFinalize? {
      FinalizeNeedsPending(g, d, a.p);
      NotAllPending(g, d, i);
    }
  }

  lemma MemberFacts(g: Group, i: JobId)
    requires GroupInv(g) && i in g.jobs
    ensures MainFits(g) && JobInv(g.jobs[i]) && (!Completed(g.jobs[i].status) ==> g.jobs[i].result.inTxn)
  {
    hide MainFits, AbortedGroup, GoodGroup;
  }

  /** Steps of other jobs leave a job that has not completed as it is. */
  lemma OthersLeave(g: Group, d: JobId, a: Act, i: JobId)
    requires GroupInv(g) && Guard(g, d, a) && i in g.jobs && i != d && !Completed(g.jobs[i].status)
    ensures i in Step(g, d, a).jobs && Step(g, d, a).jobs[i] == g.jobs[i]
  {
    hide GroupInv, JobInv, MainFits, Guard, Step, Completed;
    MemberFacts(g, i);
    NotFinalized(g, d, a, i);
    if a.ActExit? {
      ExitLeaves(g, d, a.p, i);
    } else if a.ActCancel? || a.ActCancelEnd? {
      CancelsLeave(g, d, a, i);
    } else {
      OnePut(g, d, a);
    }
  }

  lemma FinalizeNeedsPending(g: Group, d: JobId, p: Prepares)
    requires Guard(g, d, ActFinalize(p))
    ensures g.jobs[d].status.Pending?
  {
  }

  /** As long as a member has not completed nobody is pending in a group that is in order. */
  lemma NotAllPending(g: Group, d: JobId, i: JobId)
    requires GroupInv(g) && !g.aborting && d in g.jobs && i in g.jobs
    requires g.jobs[i].result.inTxn && !Completed(g.jobs[i].status)
    ensures !g.jobs[d].status.Pending?
  {
    assert JobInv(g.jobs[d]);
  }

  lemma SweepSilence(j: Job)
    requires JobInv(j) && Silent(j) && !Completed(j.status)
    ensures Silent(CancelAsync(j, true)) <==> !Alive(j) && !j.status.Created?
  {
  }

  /** Cancelling a job that has returned, or has not started, does not let it run. */
  lemma DeadCancel(g: Group, i: JobId, force: bool)
    requires GroupInv(g) && g.main.Free? && i in g.jobs && CancelFits(g.jobs[i], force)
    requires Silent(g.jobs[i]) && !Alive(g.jobs[i]) && !Completed(g.jobs[i].status)
    ensures var h := CancelStep(g, i, force); i in h.jobs && Silent(h.jobs[i])
  {
    var j := g.jobs[i];
    assert JobInv(j);
    CancelKeeps(j, force);
    if j.co.pos.NoCo? {
      UnstartedRc(j);
      CompletedIsSilent(UpdateRc(CancelAsync(j, true)));
      hide GroupInv, JobInv, CancelAsync, UpdateRc, Assert, TxnSuccess, Silent;
    } else {
      hide GroupInv, JobInv, CancelAsync, CompletedJob;
      assert j.co.pos.Ended?;
    }
  }

  lemma SilentCancel(g: Group, i: JobId, force: bool)
    requires i in g.jobs && JobInv(g.jobs[i]) && Silent(g.jobs[i]) && Drained(g.jobs[i]) && Alive(g.jobs[i])
    ensures var h := CancelStep(g, i, force);
      i in h.jobs && (Silent(h.jobs[i]) <==> !force && !g.jobs[i].co.paused)
  {
    var j := g.jobs[i];
    CancelSilence(j, force);
    CancelKeeps(j, force);
    hide CancelAsync, Enter, Silent, Drained, CompletedJob, TxnAbort;
    assert CancelStep(g, i, force) == Put(g, i, Enter(CancelAsync(j, force)));
  }

  lemma SilentWindow(g: Group, i: JobId, a: Act)
    requires GroupInv(g) && Guard(g, i, a) && JobInv(g.jobs[i]) && Silent(g.jobs[i]) && Drained(g.jobs[i])
    requires Opens(a) || a.ActResumeEnd?
    ensures i in Step(g, i, a).jobs && Silent(Step(g, i, a).jobs[i])
  {
    if Opens(a) { OpenIs(g, i, a, i); } else { CloseIs(g, i, a, i); }
    hide Step, Guard, GroupInv, JobInv, Silent, Drained, ResetIo, UserResume, InWindow;
    ResumeSilence(g.jobs[i]);
  }

  lemma SilentSweep(g: Group, i: JobId, a: Act)
    requires GroupInv(g) && Guard(g, i, a) && (a.ActSweep? || a.ActSweepEnd?)
    requires JobInv(g.jobs[i]) && Silent(g.jobs[i]) && !Completed(g.jobs[i].status)
    ensures i in Step(g, i, a).jobs && (Silent(Step(g, i, a).jobs[i]) <==> !Rouses(g.main, g.jobs[i], a))
  {
    CloseIs(g, i, a, i);
    hide Step, Guard, GroupInv, JobInv, CancelAsync, InWindow, Silent, Alive;
    SweepSilence(g.jobs[i]);
  }

  lemma SilentCancels(g: Group, i: JobId, a: Act)
    requires GroupInv(g) && Guard(g, i, a) && Silent(g.jobs[i]) && Drained(g.jobs[i]) && !Completed(g.jobs[i].status)
    requires a.ActCancel? || a.ActCancelEnd?
    ensures i in Step(g, i, a).jobs && (Silent(Step(g, i, a).jobs[i]) <==> !Rouses(g.main, g.jobs[i], a))
  {
    MemberFacts(g, i);
    var force := CancelIs(g, i, a, i);
    CancelReaches(g, i, a, force);
    hide Step, Guard, GroupInv, JobInv, Silent, Drained, CancelStep, InWindow, Alive, Completed, CancelFits, Forces;
    if Alive(g.jobs[i]) {
      SilentCancel(g.(main := Free), i, force);
    } else {
      DeadCancel(g.(main := Free), i, force);
    }
  }

  lemma CancelReaches(g: Group, i: JobId, a: Act, force: bool)
    requires GroupInv(g) && Guard(g, i, a) && (a.ActCancel? || a.ActCancelEnd?) && force == Forces(g.main, a)
    ensures GroupInv(g.(main := Free)) && CancelFits(g.jobs[i], force)
  {
    MemberFacts(g, i);
    if a.ActCancel? {
      hide GroupInv, JobInv;
      MayCancelFits(g.jobs[i], force);
      assert g.(main := Free) == g;
    } else {
      hide GroupInv, JobInv, CancelFits;
      MainFree(g);
    }
  }

  lemma LocalSilence(g: Group, i: JobId, a: Act)
    requires Guard(g, i, a) && LocalGuard(g.jobs[i], a) && JobInv(g.jobs[i])
    requires Silent(g.jobs[i]) && Drained(g.jobs[i])
    requires i in Step(g, i, a).jobs && Drained(Step(g, i, a).jobs[i])
    ensures Silent(Step(g, i, a).jobs[i]) <==> !Rouses(g.main, g.jobs[i], a)
  {
    var j := g.jobs[i];
    LocalIs(g, i, a);
    LocalForce(j, a);
    hide JobInv, Step, Guard, Silent, Drained, LocalStep, LocalGuard, Alive, Completed;
    DrainedStep(j, a);
  }

  /** What is left when a step of a silent job is neither its own nor a cancel. */
  lemma OtherActs(g: Group, i: JobId, a: Act)
    requires Guard(g, i, a) && !LocalGuard(g.jobs[i], a) && !Completed(g.jobs[i].status)
    ensures a.ActCancel? || a.ActCancelEnd? || a.ActExit? || Opens(a) || a.ActResumeEnd? || a.ActSweep? ||
      a.ActSweepEnd?
  {
    hide LocalGuard, PreparesOk;
  }

  /** A step of its own keeps a drained job silent exactly if it does not rouse it. */
  lemma SilentOwn(g: Group, i: JobId, a: Act)
    requires GroupInv(g) && Guard(g, i, a) && Silent(g.jobs[i]) && Drained(g.jobs[i]) && !Completed(g.jobs[i].status)
    requires i in Step(g, i, a).jobs && Drained(Step(g, i, a).jobs[i])
    ensures Silent(Step(g, i, a).jobs[i]) <==> !Rouses(g.main, g.jobs[i], a)
  {
    assert i in g.jobs;
    hide GroupInv, JobInv, MainFits, Step, Guard, LocalGuard, Silent, Drained, Completed;
    MemberFacts(g, i);
    if LocalGuard(g.jobs[i], a) {
      LocalSilence(g, i, a);
    } else {
      OtherActs(g, i, a);
      if Opens(a) || a.ActResumeEnd? {
        SilentWindow(g, i, a);
      } else if a.ActExit? {
        ExitIsSilent(g, i, a.p);
      } else if a.ActSweep? || a.ActSweepEnd? {
        SilentSweep(g, i, a);
      } else {
        SilentCancels(g, i, a);
      }
    }
  }

  lemma ExitIsSilent(g: Group, i: JobId, p: Prepares)
    requires GroupInv(g) && Guard(g, i, ActExit(p))
    ensures i in Step(g, i, ActExit(p)).jobs && Silent(Step(g, i, ActExit(p)).jobs[i])
    ensures !Rouses(g.main, g.jobs[i], ActExit(p))
  {
    hide GroupInv, Step, JobInv, Completed, Silent;
    StepKeys(g, i, ActExit(p));
    StepKeeps(g, i, ActExit(p));
    ExitCompletes(g, i, p);
    MemberFacts(Step(g, i, ActExit(p)), i);
    CompletedIsSilent(Step(g, i, ActExit(p)).jobs[i]);
  }

  lemma SuccessCompletes(g: Group, i: JobId, p: Prepares)
    requires i in g.jobs && Completed(Transition(g.jobs[i], Waiting).status)
    ensures i in TxnSuccess(g, i, p).jobs && Completed(TxnSuccess(g, i, p).jobs[i].status)
  {
    var w := Put(g, i, Transition(g.jobs[i], Waiting));
    hide DoFinalize, ToPending, AllCompleted, Transition, Completed;
    PendingStays(w, i);
    FinalizeStays(ToPending(w), i, p);
    assert Stays(ToPending(w).jobs[i], DoFinalize(ToPending(w), i, p).jobs[i]);
  }

  lemma ExitCompletes(g: Group, i: JobId, p: Prepares)
    requires GroupInv(g) && Guard(g, i, ActExit(p))
    ensures i in Step(g, i, ActExit(p)).jobs && Completed(Step(g, i, ActExit(p)).jobs[i].status)
  {
    var j := g.jobs[i];
    var e := j.(co := j.co.(busy := false, pos := Exited));
    var u := UpdateRc(Assert(e, e.result.inTxn && !Completed(e.status)));
    ExitKeeps(j) by { hide Step; }
    hide GroupInv, JobInv, UpdateRc, Assert, PreparesOk, TxnSuccess;
    PutPut(g, i, e, u);
    if u.result.ret == 0 { SuccessCompletes(Put(g, i, u), i, p); }
  }

  lemma PendingStays(g: Group, i: JobId)
    requires i in g.jobs
    ensures i in ToPending(g).jobs && Stays(g.jobs[i], ToPending(g).jobs[i])
  {
  }

  /**
   While the section is open a step breaks the silence of a job exactly if it enters or
   cancels the job in its pause point, or cancels it by force.
   */
  lemma SilentStep(g: Group, d: JobId, a: Act, i: JobId)
    requires GroupInv(g) && Guard(g, d, a) && i in g.jobs && Silent(g.jobs[i]) && Drained(g.jobs[i])
    requires i in Step(g, d, a).jobs && Drained(Step(g, d, a).jobs[i])
    ensures Silent(Step(g, d, a).jobs[i]) <==> !(d == i && Rouses(g.main, g.jobs[i], a))
  {
    hide GroupInv, JobInv, MainFits, Step, Guard, Completed, Silent, Drained, Alive;
    MemberFacts(g, i);
    if Completed(g.jobs[i].status) {
      StaysSilentWhenDone(g, d, a, i);
    } else if d != i {
      OthersLeave(g, d, a, i);
    } else {
      hide Rouses;
      SilentOwn(g, i, a);
    }
  }

  lemma StaysSilentWhenDone(g: Group, d: JobId, a: Act, i: JobId)
    requires GroupInv(g) && Guard(g, d, a) && i in g.jobs && Completed(g.jobs[i].status)
    ensures i in Step(g, d, a).jobs && Silent(Step(g, d, a).jobs[i]) && !Rouses(g.main, g.jobs[i], a)
  {
    hide GroupInv, JobInv, MainFits, Step, Guard, Completed, Silent;
    MemberFacts(g, i);
    CompletedIsSilent(g.jobs[i]);
    StepStays(g, d, a);
    StepKeeps(g, d, a);
    assert Stays(g.jobs[i], Step(g, d, a).jobs[i]);
    MemberFacts(Step(g, d, a), i);
    CompletedIsSilent(Step(g, d, a).jobs[i]);
  }

  lemma StepAtSilent(r: seq<Group>, acts: seq<(JobId, Act)>, k: nat, i: JobId)
    requires StepAt(r, acts, k) && GroupInv(r[k]) && i in r[k].jobs && Silent(r[k].jobs[i]) && Drained(r[k].jobs[i])
    requires i in r[k + 1].jobs && Drained(r[k + 1].jobs[i])
    ensures Silent(r[k + 1].jobs[i]) <==> !(acts[k].0 == i && Rouses(r[k].main, r[k].jobs[i], acts[k].1))
  {
    hide GroupInv, Guard, Step, Silent, Drained, Rouses;
    SilentStep(r[k], acts[k].0, acts[k].1, i);
  }

  /** The drained section of job i stays open from k to m. */
  ghost predicate SectionOpen(r: seq<Group>, i: JobId, k: nat, m: nat) {
    forall q :: k <= q <= m && q < |r| ==> i in r[q].jobs && Drained(r[q].jobs[i])
  }

  /** Job i is entered or cancelled in its pause point at q, or cancelled by force. */
  predicate RousedAt(r: seq<Group>, acts: seq<(JobId, Act)>, i: JobId, q: nat) {
    q < |acts| && q < |r| && acts[q].0 == i && i in r[q].jobs && Rouses(r[q].main, r[q].jobs[i], acts[q].1)
  }

  /** A job that is silent when it is drained stays so until the section ends or it is roused. */
  lemma {:induction false} DrainedStaysSilent(r: seq<Group>, acts: seq<(JobId, Act)>, i: JobId, k: nat, m: nat)
    requires Run(r, acts) && k <= m < |r| && SectionOpen(r, i, k, m) && i in r[k].jobs && Silent(r[k].jobs[i])
    requires forall q :: k <= q < m ==> !RousedAt(r, acts, i, q)
    ensures i in r[m].jobs && Silent(r[m].jobs[i])
    decreases m
  {
    hide StepAt, GroupInv, Init, Silent, Drained, Rouses;
    if k < m {
      DrainedStaysSilent(r, acts, i, k, m - 1);
      RunInv(r, acts, m - 1);
      assert StepAt(r, acts, m - 1);
      StepAtSilent(r, acts, m - 1, i);
      assert !RousedAt(r, acts, i, m - 1);
    }
  }

  /** And it is silent all along exactly if nobody does. */
  lemma SilentIff(r: seq<Group>, acts: seq<(JobId, Act)>, i: JobId, k: nat, m: nat)
    requires Run(r, acts) && k <= m < |r| && SectionOpen(r, i, k, m) && i in r[k].jobs && Silent(r[k].jobs[i])
    ensures (forall q :: k <= q <= m ==> Silent(r[q].jobs[i])) <==>
      (forall q :: k <= q < m ==> !RousedAt(r, acts, i, q))
  {
    hide StepAt, GroupInv, Init, Silent, Drained, Rouses;
    if forall q :: k <= q < m ==> !RousedAt(r, acts, i, q) {
      forall q | k <= q <= m ensures Silent(r[q].jobs[i]) { DrainedStaysSilent(r, acts, i, k, q); }
    }
    forall q | k <= q < m && RousedAt(r, acts, i, q) ensures exists p :: k <= p <= m && !Silent(r[p].jobs[i]) {
      if Silent(r[q].jobs[i]) {
        RunInv(r, acts, q);
        assert StepAt(r, acts, q);
        StepAtSilent(r, acts, q, i);
        assert !Silent(r[q + 1].jobs[i]);
      }
    }
  }
}
