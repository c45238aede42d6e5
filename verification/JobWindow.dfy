/**
 The windows in which job_user_resume_locked and job_cancel_async_locked give up the
 job lock for the driver's user_resume callback (job.c).  An error that the job stops
 for in such a window is recorded and then forgotten: the job runs on while its
 iostatus says that it failed.
 */
module JobWindow {
  import opened JobState
  import opened JobRun
  import opened JobOutcome

  /** iostatus says that the job stopped for an error, but nothing holds the job for it. */
  predicate Lost(j: Job) {
    j.pauses.ioFailed && !j.pauses.user
  }

  predicate Opens(a: Act) {
    a.ActResumeBegin? || a.ActCancelBegin? || a.ActSweepBegin?
  }

  predicate Closes(a: Act) {
    a.ActResumeEnd? || a.ActCancelEnd? || a.ActSweepEnd?
  }

  /** The step cancels the job for good. */
  predicate Forces(m: Main, a: Act) {
    (a.ActCancel? && a.force) || (a.ActCancelEnd? && m.Cancelling? && m.force) || a.ActSweep? || a.ActSweepEnd?
  }

  // -------------------------------------------------- what a step does to it

  /** The pauses and the cancel flags are the same. */
  predicate SameMarks(j: Job, k: Job) {
    k.pauses == j.pauses && k.cancels == j.cancels
  }

  lemma FinalizeIo(j: Job)
    ensures SameMarks(j, FinalizeSingle(j))
  {
  }

  lemma RcIo(j: Job, ret: int)
    ensures SameMarks(j, UpdateRc(j)) && SameMarks(j, UpdateRc(j.(result := j.result.(ret := ret))))
  {
  }

  lemma FinalizationIo(g: Group, d: JobId, p: Prepares, i: JobId)
    requires d in g.jobs && i in g.jobs && g.main.Free?
    ensures var h := DoFinalize(g, d, p); i in h.jobs && SameMarks(g.jobs[i], h.jobs[i]) && !InWindow(h.main, i)
  {
    if p.PrepareFails? { RcIo(g.jobs[i], p.code); } else { RcIo(g.jobs[i], 0); }
    FinalizeIo(UpdateRc(g.jobs[i]));
    hide UpdateRc, FinalizeSingle;
  }

  lemma PendingIo(g: Group, i: JobId)
    requires i in g.jobs
    ensures var h := ToPending(g); i in h.jobs && SameMarks(g.jobs[i], h.jobs[i])
  {
  }

  lemma SuccessIo(g: Group, d: JobId, p: Prepares, i: JobId)
    requires d in g.jobs && i in g.jobs && g.main.Free?
    ensures var h := TxnSuccess(g, d, p); i in h.jobs && SameMarks(g.jobs[i], h.jobs[i]) && !InWindow(h.main, i)
  {
    var w := Transition(g.jobs[d], Waiting);
    assert SameMarks(g.jobs[d], w);
    hide Transition, AllCompleted, DoFinalize;
    var g1 := Put(g, d, w);
    PendingIo(g1, i);
    FinalizationIo(ToPending(g1), d, p, i);
    hide ToPending;
  }

  lemma CompletionIo(g: Group, d: JobId, p: Prepares, i: JobId)
    requires d in g.jobs && i in g.jobs && g.main.Free?
    ensures var h := CompletedJob(g, d, p); i in h.jobs && SameMarks(g.jobs[i], h.jobs[i]) && !InWindow(h.main, i)
  {
    var j := Assert(g.jobs[d], g.jobs[d].result.inTxn && !Completed(g.jobs[d].status));
    RcIo(j, 0);
    hide UpdateRc, TxnSuccess, Completed;
    SuccessIo(Put(g, d, UpdateRc(j)), d, p, i);
  }

  lemma CancelIo(g: Group, d: JobId, force: bool, i: JobId)
    requires d in g.jobs && i in g.jobs && g.main.Free?
    ensures var h := CancelStep(g, d, force);
      i in h.jobs && !InWindow(h.main, i) &&
      SameMarks(if i == d then CancelAsync(g.jobs[d], force) else g.jobs[i], h.jobs[i])
  {
    var j := CancelAsync(g.jobs[d], force);
    assert SameMarks(j, Enter(j));
    CompletionIo(Put(g, d, j), d, AllPrepared, i);
    hide CancelAsync, Enter, CompletedJob;
  }

  /**
   The pauses of a job after a step of its own.  An error is recorded as the driver
   reports it and forgotten as a window opens; a user's pause ends as a window closes; a
   user can pause a job that has not completed; the first pause ends with job_start.
   */
  function PausesAfter(j: Job, a: Act): Pauses {
    var p := j.pauses;
    if Opens(a) then p.(ioFailed := false)
    else if Closes(a) then p.(user := false, count := p.count - 1)
    else match a
      case ActError => p.(user := true, ioFailed := true, count := if p.user then p.count else p.count + 1)
      case ActUserPause =>
        if p.user || Completed(j.status) then p else p.(user := true, count := p.count + 1)
      case ActDrainBegin => p.(drains := p.drains + 1, count := p.count + 1)
      case ActDrainEnd => if p.drains > 0 then p.(drains := p.drains - 1, count := p.count - 1) else p
      case ActStart => p.(count := p.count - 1)
      case _ => p
  }

  predicate ForPauses(a: Act) {
    a.ActError? || a.ActUserPause? || a.ActDrainBegin? || a.ActDrainEnd? || a.ActStart?
  }

  lemma PausingIo(j: Job, a: Act)
    requires JobInv(j) && LocalGuard(j, a) && ForPauses(a)
    ensures LocalStep(j, a).pauses == PausesAfter(j, a)
  {
  }

  lemma OtherIo(j: Job, a: Act)
    requires JobInv(j) && LocalGuard(j, a) && !ForPauses(a)
    ensures LocalStep(j, a).pauses == j.pauses
  {
  }

  lemma LocalIo(j: Job, a: Act)
    requires JobInv(j) && LocalGuard(j, a)
    ensures LocalStep(j, a).pauses == PausesAfter(j, a)
  {
    assert !Opens(a) && !Closes(a);
    hide JobInv, LocalStep, LocalGuard;
    if ForPauses(a) { PausingIo(j, a); } else { OtherIo(j, a); }
  }

  /** A step changes the pauses of its own job, and only as above; windows open and close for user's pauses. */
  predicate IoStep(g: Group, d: JobId, a: Act, h: Group, i: JobId) {
    && i in g.jobs && i in h.jobs
    && (InWindow(h.main, i) <==> if InWindow(g.main, i) then !(d == i && Closes(a)) else d == i && Opens(a))
    && (d == i && Opens(a) ==> !InWindow(g.main, i) && g.jobs[i].pauses.user)
    && (d == i && Closes(a) ==> InWindow(g.main, i) && g.jobs[i].pauses.user)
    && h.jobs[i].pauses == if d == i then PausesAfter(g.jobs[i], a) else g.jobs[i].pauses
  }

  lemma EndIo(j: Job, force: bool)
    requires JobInv(j)
    ensures CancelAsync(j, force).pauses == DropUserPause(j).pauses
    ensures var p := j.pauses;
      DropUserPause(j).pauses == if p.user then p.(user := false, count := p.count - 1) else p
    ensures var p := j.pauses; p.user ==> UserResume(j).pauses == p.(user := false, count := p.count - 1)
    ensures j.pauses.user ==> ResetIo(j).pauses == j.pauses.(ioFailed := false)
  {
  }

  /** The lock is given up by a thread that holds no window yet. */
  lemma OpenIs(g: Group, d: JobId, a: Act, i: JobId)
    requires Guard(g, d, a) && Opens(a)
    ensures g.jobs[d].pauses.user && !InWindow(g.main, i) && (InWindow(Step(g, d, a).main, i) <==> i == d)
    ensures Step(g, d, a).jobs == Put(g, d, ResetIo(g.jobs[d])).jobs
  {
    hide ResetIo, MayCancel, LocalGuard, LocalStep, CompletedJob, CancelStep, DoFinalize, FinalizeSingle, SweepOne;
  }

  lemma OpenIo(g: Group, d: JobId, a: Act, i: JobId)
    requires GroupInv(g) && Guard(g, d, a) && i in g.jobs && Opens(a)
    ensures IoStep(g, d, a, Step(g, d, a), i)
  {
    assert d in g.jobs && JobInv(g.jobs[d]) by { hide JobInv; }
    hide GroupInv, JobInv, Guard, Step, ResetIo, UserResume, CancelAsync, DropUserPause, InWindow;
    OpenIs(g, d, a, i);
    EndIo(g.jobs[d], true);
  }

  lemma CloseIs(g: Group, d: JobId, a: Act, i: JobId)
    requires MainFits(g) && Guard(g, d, a) && (a.ActResumeEnd? || a.ActSweepEnd? || a.ActSweep?)
    ensures g.jobs[d].pauses.user <==> Closes(a)
    ensures (InWindow(g.main, i) <==> i == d && Closes(a)) && !InWindow(Step(g, d, a).main, i)
    ensures Step(g, d, a).jobs ==
      Put(g, d, if a.ActResumeEnd? then UserResume(g.jobs[d]) else CancelAsync(g.jobs[d], true)).jobs
  {
    hide UserResume, CancelAsync, LocalGuard, LocalStep, CompletedJob, CancelStep, DoFinalize, FinalizeSingle;
  }

  lemma CloseIo(g: Group, d: JobId, a: Act, i: JobId)
    requires GroupInv(g) && Guard(g, d, a) && i in g.jobs && (a.ActResumeEnd? || a.ActSweepEnd? || a.ActSweep?)
    ensures IoStep(g, d, a, Step(g, d, a), i)
  {
    assert d in g.jobs && JobInv(g.jobs[d]) && MainFits(g) by { hide JobInv, MainFits; }
    hide GroupInv, JobInv, MainFits, Guard, Step, ResetIo, UserResume, CancelAsync, DropUserPause, InWindow;
    CloseIs(g, d, a, i);
    EndIo(g.jobs[d], true);
  }

  lemma CancelIs(g: Group, d: JobId, a: Act, i: JobId) returns (force: bool)
    requires MainFits(g) && Guard(g, d, a) && (a.ActCancel? || a.ActCancelEnd?)
    ensures g.jobs[d].pauses.user <==> Closes(a)
    ensures InWindow(g.main, i) <==> i == d && Closes(a)
    ensures Step(g, d, a) == CancelStep(g.(main := Free), d, force) && force == Forces(g.main, a)
  {
    hide MayCancel, CancelFits, LocalGuard, LocalStep, CompletedJob, CancelStep, DoFinalize, FinalizeSingle, SweepOne;
    force := if a.ActCancel? then a.force else g.main.force;
    assert a.ActCancel? ==> g.(main := Free) == g;
  }

  lemma CancelStepIo(g: Group, d: JobId, a: Act, i: JobId)
    requires GroupInv(g) && Guard(g, d, a) && i in g.jobs && (a.ActCancel? || a.ActCancelEnd?)
    ensures IoStep(g, d, a, Step(g, d, a), i)
  {
    assert JobInv(g.jobs[d]) && MainFits(g) by { hide JobInv, MainFits; }
    hide GroupInv, JobInv, Guard, Step, CancelStep, DropUserPause, CancelAsync, UserResume, ResetIo, InWindow, MainFits;
    var force := CancelIs(g, d, a, i);
    EndIo(g.jobs[d], force);
    CancelIo(g.(main := Free), d, force, i);
  }

  lemma LocalIs(g: Group, d: JobId, a: Act)
    requires Guard(g, d, a) && LocalGuard(g.jobs[d], a)
    ensures Step(g, d, a) == Put(g, d, LocalStep(g.jobs[d], a)) && !Opens(a) && !Closes(a)
  {
    hide LocalStep;
  }

  lemma LocalStepIo(g: Group, d: JobId, a: Act, i: JobId)
    requires GroupInv(g) && Guard(g, d, a) && i in g.jobs && LocalGuard(g.jobs[d], a)
    ensures IoStep(g, d, a, Step(g, d, a), i)
  {
    assert JobInv(g.jobs[d]) by { hide JobInv; }
    hide GroupInv, JobInv, LocalStep, LocalGuard, Guard, Step, Opens, Closes;
    LocalIs(g, d, a);
    LocalIo(g.jobs[d], a);
  }

  lemma CompletingIo(g: Group, d: JobId, a: Act, i: JobId)
    requires Guard(g, d, a) && i in g.jobs && (a.ActExit? || a.ActFinalize? || a.ActAbortNext?)
    ensures IoStep(g, d, a, Step(g, d, a), i)
  {
    hide CompletedJob, DoFinalize, FinalizeSingle, PreparesOk, Accepts;
    var j := g.jobs[d];
    if a.ActExit? {
      CompletionIo(Put(g, d, j.(co := j.co.(busy := false, pos := Exited))), d, a.p, i);
    } else if a.ActFinalize? {
      FinalizationIo(g, d, a.p, i);
    } else {
      FinalizeIo(j);
    }
  }

  lemma StepIo(g: Group, d: JobId, a: Act, i: JobId)
    requires GroupInv(g) && Guard(g, d, a) && i in g.jobs
    ensures IoStep(g, d, a, Step(g, d, a), i)
  {
    hide GroupInv, Step, IoStep;
    if a.ActExit? || a.ActFinalize? || a.ActAbortNext? {
      CompletingIo(g, d, a, i);
    } else if a.ActCancel? || a.ActCancelEnd? {
      CancelStepIo(g, d, a, i);
    } else if LocalGuard(g.jobs[d], a) {
      LocalStepIo(g, d, a, i);
    } else if Opens(a) {
      OpenIo(g, d, a, i);
    } else {
      CloseIo(g, d, a, i);
    }
  }

  /** The step cancels job j: by force, or while the coroutine has not yet returned to the main loop. */
  predicate Asks(m: Main, j: Job, a: Act) {
    Forces(m, a) || ((a.ActCancel? || a.ActCancelEnd?) && !j.co.deferred)
  }

  /**
   A job is cancelled for good by a forced cancel or by an abort of its group, and never
   otherwise; any cancel is noted as long as the job has not returned to the main loop.
   */
  predicate ForceStep(g: Group, d: JobId, a: Act, h: Group, i: JobId) {
    && i in g.jobs && i in h.jobs
    && (h.jobs[i].cancels.force <==> g.jobs[i].cancels.force || (d == i && Forces(g.main, a)))
    && (h.jobs[i].cancels.asked <==> g.jobs[i].cancels.asked || (d == i && Asks(g.main, g.jobs[i], a)))
  }

  lemma CancelForces(j: Job, force: bool)
    ensures CancelAsync(j, force).cancels.force <==> j.cancels.force || force
    ensures CancelAsync(j, force).cancels.asked <==> j.cancels.asked || force || !j.co.deferred
  {
  }

  lemma WindowForce(j: Job)
    ensures ResetIo(j).cancels == j.cancels && UserResume(j).cancels == j.cancels
  {
  }

  lemma LocalForce(j: Job, a: Act)
    requires LocalGuard(j, a)
    ensures LocalStep(j, a).cancels == j.cancels && !Forces(Free, a) && !a.ActCancel? && !a.ActCancelEnd?
  {
  }

  lemma CompletingForce(g: Group, d: JobId, a: Act, i: JobId)
    requires Guard(g, d, a) && i in g.jobs && (a.ActExit? || a.ActFinalize? || a.ActAbortNext?)
    ensures ForceStep(g, d, a, Step(g, d, a), i)
  {
    hide CompletedJob, DoFinalize, FinalizeSingle, PreparesOk, Accepts;
    var j := g.jobs[d];
    if a.ActExit? {
      CompletionIo(Put(g, d, j.(co := j.co.(busy := false, pos := Exited))), d, a.p, i);
    } else if a.ActFinalize? {
      FinalizationIo(g, d, a.p, i);
    } else {
      FinalizeIo(j);
    }
  }

  lemma CancelStepForce(g: Group, d: JobId, a: Act, i: JobId)
    requires MainFits(g) && Guard(g, d, a) && i in g.jobs && (a.ActCancel? || a.ActCancelEnd?)
    ensures ForceStep(g, d, a, Step(g, d, a), i)
  {
    assert d in g.jobs;
    hide Guard, Step, MainFits, CancelAsync, CancelStep, InWindow, Forces;
    var force := CancelIs(g, d, a, i);
    CancelForces(g.jobs[d], force);
    CancelIo(g.(main := Free), d, force, i);
  }

  lemma OpenForce(g: Group, d: JobId, a: Act, i: JobId)
    requires Guard(g, d, a) && i in g.jobs && Opens(a)
    ensures ForceStep(g, d, a, Step(g, d, a), i)
  {
    WindowForce(g.jobs[d]);
    OpenIs(g, d, a, i);
    hide Guard, Step, ResetIo, UserResume, InWindow;
  }

  lemma CloseForce(g: Group, d: JobId, a: Act, i: JobId)
    requires MainFits(g) && Guard(g, d, a) && i in g.jobs && (a.ActResumeEnd? || a.ActSweep? || a.ActSweepEnd?)
    ensures ForceStep(g, d, a, Step(g, d, a), i)
  {
    WindowForce(g.jobs[d]);
    CancelForces(g.jobs[d], true);
    CloseIs(g, d, a, i);
    hide Guard, Step, MainFits, CancelAsync, ResetIo, UserResume, InWindow;
  }

  lemma LocalStepForce(g: Group, d: JobId, a: Act, i: JobId)
    requires Guard(g, d, a) && i in g.jobs && LocalGuard(g.jobs[d], a)
    ensures ForceStep(g, d, a, Step(g, d, a), i)
  {
    assert d in g.jobs;
    hide Guard, Step, LocalStep, LocalGuard;
    LocalIs(g, d, a);
    LocalForce(g.jobs[d], a);
  }

  lemma StepForce(g: Group, d: JobId, a: Act, i: JobId)
    requires GroupInv(g) && Guard(g, d, a) && i in g.jobs
    ensures ForceStep(g, d, a, Step(g, d, a), i)
  {
    assert MainFits(g) by { hide AllFit, MainFits, AbortedGroup, GoodGroup; }
    hide GroupInv, Step, MainFits, ForceStep;
    if a.ActExit? || a.ActFinalize? || a.ActAbortNext? {
      CompletingForce(g, d, a, i);
    } else if a.ActCancel? || a.ActCancelEnd? {
      CancelStepForce(g, d, a, i);
    } else if LocalGuard(g.jobs[d], a) {
      LocalStepForce(g, d, a, i);
    } else if Opens(a) {
      OpenForce(g, d, a, i);
    } else {
      CloseForce(g, d, a, i);
    }
  }

  // ------------------------------------------------------------ whole runs

  /** A piece of a run, from any state that fits. */
  ghost predicate Path(r: seq<Group>, acts: seq<(JobId, Act)>) {
    |r| == |acts| + 1 && GroupInv(r[0]) && forall k :: 0 <= k < |acts| ==> StepAt(r, acts, k)
  }

  lemma {:induction false} PathInv(r: seq<Group>, acts: seq<(JobId, Act)>, k: nat)
    requires Path(r, acts) && k < |r|
    ensures GroupInv(r[k]) && r[k].jobs.Keys == r[0].jobs.Keys
  {
    hide GroupInv, StepAt;
    if k > 0 {
      PathInv(r, acts, k - 1);
      assert StepAt(r, acts, k - 1);
      StepAtKeeps(r, acts, k - 1);
    }
  }

  lemma RunIsPath(r: seq<Group>, acts: seq<(JobId, Act)>)
    requires Run(r, acts)
    ensures Path(r, acts)
  {
    hide GroupInv, StepAt, Init;
    InitInv(r[0]);
  }

  lemma PathIo(r: seq<Group>, acts: seq<(JobId, Act)>, k: nat, i: JobId)
    requires Path(r, acts) && k < |acts| && i in r[0].jobs
    ensures IoStep(r[k], acts[k].0, acts[k].1, r[k + 1], i)
  {
    PathInv(r, acts, k) by { hide GroupInv, StepAt; }
    assert StepAt(r, acts, k) by { hide GroupInv, StepAt; }
    hide GroupInv, Guard, Step, IoStep;
    StepIo(r[k], acts[k].0, acts[k].1, i);
  }

  /** Job i stops for an error while the main thread is in its callback. */
  predicate HitAt(r: seq<Group>, acts: seq<(JobId, Act)>, i: JobId, k: nat) {
    k < |acts| && k < |r| && acts[k] == (i, ActError) && InWindow(r[k].main, i)
  }

  /** An error has been lost, or will be when the callback returns. */
  predicate Tainted(g: Group, i: JobId) {
    i in g.jobs && (Lost(g.jobs[i]) || (InWindow(g.main, i) && g.jobs[i].pauses.ioFailed))
  }

  lemma InitUntainted(g: Group, i: JobId)
    requires Init(g)
    ensures !Tainted(g, i)
  {
    if i in g.jobs {
      assert g.jobs[i] == NewJob(g.jobs[i].options);
    }
  }

  /** Errors are lost in windows only. */
  lemma {:induction false} LostInWindow(r: seq<Group>, acts: seq<(JobId, Act)>, i: JobId, m: nat)
    requires Run(r, acts) && m < |r| && Tainted(r[m], i)
    ensures exists k :: 0 <= k < m && HitAt(r, acts, i, k)
  {
    hide GroupInv, StepAt, Init;
    RunIsPath(r, acts);
    PathInv(r, acts, m);
    InitUntainted(r[0], i);
    if m > 0 {
      PathIo(r, acts, m - 1, i);
      if !HitAt(r, acts, i, m - 1) {
        hide Run, Path, InWindow;
        assert Tainted(r[m - 1], i);
        LostInWindow(r, acts, i, m - 1);
      }
    }
  }

  /** An error that is recorded in a window is lost when the window closes. */
  lemma {:induction false} HitIsLost(r: seq<Group>, acts: seq<(JobId, Act)>, i: JobId, k: nat, m: nat)
    requires Path(r, acts) && k < m < |r| && i in r[0].jobs && HitAt(r, acts, i, k)
    ensures i in r[m].jobs
    ensures (InWindow(r[m].main, i) && r[m].jobs[i].pauses.ioFailed) ||
      exists q :: k < q <= m && i in r[q].jobs && Lost(r[q].jobs[i])
    decreases m
  {
    hide GroupInv, StepAt;
    PathIo(r, acts, m - 1, i);
    hide InWindow;
    if k < m - 1 {
      HitIsLost(r, acts, i, k, m - 1);
      if InWindow(r[m].main, i) && r[m].jobs[i].pauses.ioFailed {
      } else if InWindow(r[m - 1].main, i) && r[m - 1].jobs[i].pauses.ioFailed {
        assert Lost(r[m].jobs[i]);
      }
    }
  }

  /**
   Over a whole run at whose end no callback of job i is running: its iostatus always
   goes with a pause exactly if the job never stops for an error in a window.
   */
  lemma ErrorsKeptIff(r: seq<Group>, acts: seq<(JobId, Act)>, i: JobId)
    requires Run(r, acts) && i in r[0].jobs && !InWindow(r[|acts|].main, i)
    ensures (forall m :: 0 <= m < |r| ==> i in r[m].jobs)
    ensures (forall m :: 0 <= m < |r| ==> !Lost(r[m].jobs[i])) <==>
      (forall k :: 0 <= k < |acts| ==> !HitAt(r, acts, i, k))
  {
    hide GroupInv, StepAt, Init, InWindow;
    RunIsPath(r, acts);
    forall m | 0 <= m < |r| ensures i in r[m].jobs { PathInv(r, acts, m); }
    forall m | 0 <= m < |r| && Lost(r[m].jobs[i]) ensures exists k :: 0 <= k < |acts| && HitAt(r, acts, i, k) {
      LostInWindow(r, acts, i, m);
    }
    forall k | 0 <= k < |acts| && HitAt(r, acts, i, k) ensures exists m :: 0 <= m < |r| && Lost(r[m].jobs[i]) {
      HitIsLost(r, acts, i, k, |acts|);
    }
  }

  /** The window of job i opens at b and is still open at e. */
  ghost predicate OpenWindow(r: seq<Group>, acts: seq<(JobId, Act)>, i: JobId, b: nat, e: nat) {
    && b < e < |r| && b < |acts| && acts[b].0 == i && Opens(acts[b].1)
    && forall k :: b < k < e && k < |acts| ==> acts[k].0 != i || !Closes(acts[k].1)
  }

  lemma {:induction false} InsideWindow(r: seq<Group>, acts: seq<(JobId, Act)>, i: JobId, b: nat, e: nat)
    requires Path(r, acts) && i in r[0].jobs && OpenWindow(r, acts, i, b, e)
    ensures i in r[e].jobs && InWindow(r[e].main, i)
    ensures r[e].jobs[i].pauses.user &&
      (r[e].jobs[i].pauses.ioFailed <==> exists k :: b < k < e && acts[k] == (i, ActError))
    decreases e
  {
    hide GroupInv, StepAt, InWindow;
    PathIo(r, acts, e - 1, i);
    hide Path;
    if b < e - 1 {
      InsideWindow(r, acts, i, b, e - 1);
    }
  }

  /**
   A resume or a cancel ends a user's pause.  When it is done the job's iostatus goes
   with its pauses again exactly if the job did not stop for an error in between.
   */
  lemma WindowOutcome(r: seq<Group>, acts: seq<(JobId, Act)>, i: JobId, b: nat, e: nat)
    requires Path(r, acts) && i in r[0].jobs && OpenWindow(r, acts, i, b, e) && e < |acts|
    requires acts[e].0 == i && Closes(acts[e].1)
    ensures i in r[e + 1].jobs && !r[e + 1].jobs[i].pauses.user
    ensures Lost(r[e + 1].jobs[i]) <==> exists k :: b < k < e && acts[k] == (i, ActError)
  {
    hide GroupInv, StepAt, InWindow, OpenWindow;
    InsideWindow(r, acts, i, b, e);
    PathIo(r, acts, e, i);
  }

  // ------------------------------------------------ when a window is harmless

  /** The coroutine can get into the driver's code although a pause counts. */
  predicate Exposed(j: Job) {
    || j.co.pos.Driver? || (j.co.pos.Woken? && j.co.pos.after.ThenUnpause?)
    || (j.cancels.force && (j.co.pos.Start? || j.co.pos.Pausing? || j.co.pos.Woken?))
  }

  /** The coroutine has been created and has not returned. */
  predicate Alive(j: Job) {
    !j.co.pos.NoCo? && !j.co.pos.Ended? && !j.co.pos.Exited?
  }

  /** job_enter would let the coroutine into the driver's code. */
  predicate Wakeable(j: Job) {
    j.co.pos.Yielded? && (j.co.paused || j.cancels.force)
  }

  lemma ExposedStep(j: Job, a: Act)
    requires JobInv(j) && j.pauses.user && !Exposed(j) && AnyThread(a) && LocalGuard(j, a)
    ensures !a.ActError? && (Exposed(LocalStep(j, a)) <==> a.ActEnter? && Wakeable(j))
  {
  }

  lemma WindowAlive(g: Group, i: JobId)
    requires GroupInv(g) && InWindow(g.main, i)
    ensures i in g.jobs && JobInv(g.jobs[i]) && !g.jobs[i].refs.freed && g.jobs[i].pauses.user
  {
    assert i in g.jobs && JobInv(g.jobs[i]);
  }

  /** In a window only other threads make steps. */
  lemma WindowStep(g: Group, d: JobId, a: Act, i: JobId)
    requires Guard(g, d, a) && InWindow(g.main, i) && (d == i ==> !Closes(a))
    ensures AnyThread(a) && LocalGuard(g.jobs[d], a) && Step(g, d, a) == Put(g, d, LocalStep(g.jobs[d], a))
  {
    hide LocalGuard, LocalStep, MayResume, MayCancel, PreparesOk, Accepts;
  }

  lemma WindowExposure(g: Group, d: JobId, a: Act, i: JobId)
    requires GroupInv(g) && Guard(g, d, a) && InWindow(g.main, i) && (d == i ==> !Closes(a))
    requires i in g.jobs && !Exposed(g.jobs[i]) && (d == i && a.ActEnter? ==> !Wakeable(g.jobs[i]))
    ensures i in Step(g, d, a).jobs && !Exposed(Step(g, d, a).jobs[i]) && (d == i ==> !a.ActError?)
  {
    WindowAlive(g, i);
    WindowStep(g, d, a, i);
    hide GroupInv, JobInv, Guard, Step, LocalGuard, LocalStep, Exposed, Wakeable, AnyThread, InWindow;
    if d == i { ExposedStep(g.jobs[i], a); }
  }

  /** Nobody calls job_enter for job i while that would let it into the driver's code. */
  ghost predicate NotWoken(r: seq<Group>, acts: seq<(JobId, Act)>, i: JobId) {
    forall k :: 0 <= k < |acts| && k < |r| && acts[k] == (i, ActEnter) ==> i in r[k].jobs && !Wakeable(r[k].jobs[i])
  }

  lemma {:induction false} StaysUnexposed(r: seq<Group>, acts: seq<(JobId, Act)>, i: JobId, e: nat)
    requires Path(r, acts) && i in r[0].jobs && OpenWindow(r, acts, i, 0, e) && NotWoken(r, acts, i)
    requires !Exposed(r[0].jobs[i])
    ensures i in r[e].jobs && !Exposed(r[e].jobs[i]) && forall k :: 0 < k < e ==> acts[k] != (i, ActError)
    decreases e
  {
    assert StepAt(r, acts, e - 1) by { hide StepAt, GroupInv; }
    PathInv(r, acts, e - 1) by { hide StepAt, GroupInv; }
    hide GroupInv, Guard, Step, InWindow, Exposed, Wakeable;
    if e == 1 {
      OpenExposure(r[0], i, acts[0].1);
    } else {
      hide StepAt;
      StaysUnexposed(r, acts, i, e - 1);
      InsideWindow(r, acts, i, 0, e - 1);
      assert StepAt(r, acts, e - 1);
      StepAtExposure(r, acts, i, e - 1);
    }
  }

  lemma StepAtExposure(r: seq<Group>, acts: seq<(JobId, Act)>, i: JobId, k: nat)
    requires StepAt(r, acts, k) && GroupInv(r[k]) && InWindow(r[k].main, i) && (acts[k].0 == i ==> !Closes(acts[k].1))
    requires i in r[k].jobs && !Exposed(r[k].jobs[i]) && (acts[k] == (i, ActEnter) ==> !Wakeable(r[k].jobs[i]))
    ensures i in r[k + 1].jobs && !Exposed(r[k + 1].jobs[i]) && acts[k] != (i, ActError)
  {
    hide GroupInv, Guard, Step, InWindow, Exposed, Wakeable;
    WindowExposure(r[k], acts[k].0, acts[k].1, i);
  }

  lemma OpenExposure(g: Group, i: JobId, a: Act)
    requires Guard(g, i, a) && Opens(a)
    ensures i in Step(g, i, a).jobs && (Exposed(Step(g, i, a).jobs[i]) <==> Exposed(g.jobs[i]))
  {
    OpenIs(g, i, a, i);
    hide Guard, Step, InWindow;
  }

  // --------------------------------------------- and when it is not harmless

  /** What the main thread does when the callback of job i returns. */
  function Closing(m: Main): Act {
    if m.Resuming? then ActResumeEnd else if m.Cancelling? then ActCancelEnd else ActSweepEnd
  }

  /** The next step of a coroutine on its way into the driver's code, or of somebody who enters it. */
  function Approach(p: Pos): Act {
    if p.Start? then ActPausePoint
    else if p.Pausing? then ActPauseHere
    else if p.Yielded? then ActEnter
    else ActContinue
  }

  /** How many such steps there are at most. */
  function Distance(p: Pos): nat {
    match p
    case Woken(after) => if after.ThenUnpause? then 1 else 4
    case Yielded(after) => if after.ThenUnpause? then 2 else 5
    case Pausing => 3
    case Start => 4
    case _ => 0
  }

  lemma Approaches(j: Job)
    requires JobInv(j) && Alive(j) && !j.co.pos.Driver?
    ensures var c := Approach(j.co.pos);
      && AnyThread(c) && LocalGuard(j, c) && !c.ActError? && !Closes(c)
      && Alive(LocalStep(j, c)) && Distance(LocalStep(j, c).co.pos) < Distance(j.co.pos)
      && (Exposed(j) ==> !c.ActEnter? && Exposed(LocalStep(j, c)))
  {
  }

  lemma OwnStep(g: Group, i: JobId, a: Act)
    requires GroupInv(g) && InWindow(g.main, i) && AnyThread(a) && i in g.jobs && LocalGuard(g.jobs[i], a)
    ensures Guard(g, i, a) && Step(g, i, a) == Put(g, i, LocalStep(g.jobs[i], a)) && GroupInv(Step(g, i, a))
  {
    WindowAlive(g, i);
    hide LocalGuard, LocalStep, GroupInv, JobInv;
    assert Guard(g, i, a);
    StepKeeps(g, i, a);
  }

  lemma MayClose(g: Group, i: JobId)
    requires InWindow(g.main, i) && i in g.jobs && !g.jobs[i].refs.freed
    ensures Guard(g, i, Closing(g.main)) && Closes(Closing(g.main))
  {
    hide LocalGuard, MayCancel, MayResume, PreparesOk, Accepts;
  }

  /** From a window with the coroutine in the driver's code: an error, and the callback returns. */
  lemma HitAndClose(g: Group, i: JobId) returns (h: Group, f: Group)
    requires GroupInv(g) && InWindow(g.main, i) && i in g.jobs && g.jobs[i].co.pos.Driver?
    ensures Guard(g, i, ActError) && h == Step(g, i, ActError) && h.main == g.main
    ensures Guard(h, i, Closing(g.main)) && f == Step(h, i, Closing(g.main)) && Closes(Closing(g.main))
  {
    OwnStep(g, i, ActError);
    h := Step(g, i, ActError);
    assert h.main == g.main;
    hide GroupInv, Step;
    WindowAlive(h, i);
    MayClose(h, i);
    f := Step(h, i, Closing(h.main));
  }

  /** A resume or cancel of job i, from g to the end of its window, in which an error is lost. */
  ghost predicate Loses(g: Group, i: JobId, a: Act, r: seq<Group>, acts: seq<(JobId, Act)>) {
    && Path(r, acts) && |acts| > 1 && r[0] == g && acts[0] == (i, a)
    && OpenWindow(r, acts, i, 0, |acts| - 1) && acts[|acts| - 1].0 == i && Closes(acts[|acts| - 1].1)
    && i in r[|acts|].jobs && Lost(r[|acts|].jobs[i])
  }

  /** One step more. */
  lemma Extend(r: seq<Group>, acts: seq<(JobId, Act)>, i: JobId, a: Act)
    requires Path(r, acts) && Guard(r[|acts|], i, a)
    ensures Path(r + [Step(r[|acts|], i, a)], acts + [(i, a)])
  {
    var r', acts' := r + [Step(r[|acts|], i, a)], acts + [(i, a)];
    hide GroupInv, Guard, Step;
    forall k | 0 <= k < |acts'| ensures StepAt(r', acts', k) {
      if k < |acts| { assert StepAt(r, acts, k); }
    }
  }

  /**
   At the end of the path the window of job i is open and its coroutine can get into the
   driver's code; it was not entered if it could do so from the beginning.
   */
  ghost predicate Inside(g: Group, i: JobId, a: Act, r: seq<Group>, acts: seq<(JobId, Act)>) {
    && Path(r, acts) && |acts| > 0 && r[0] == g && acts[0] == (i, a) && Opens(a)
    && (forall k :: 0 < k < |acts| ==> !Closes(acts[k].1))
    && i in g.jobs && GroupInv(r[|acts|]) && InWindow(r[|acts|].main, i)
    && i in r[|acts|].jobs && Alive(r[|acts|].jobs[i])
    && (Exposed(g.jobs[i]) ==> Exposed(r[|acts|].jobs[i]) && forall k :: 0 <= k < |acts| ==> !acts[k].1.ActEnter?)
  }

  lemma OpenStep(g: Group, i: JobId, a: Act)
    requires GroupInv(g) && Guard(g, i, a) && Opens(a)
    ensures var h := Step(g, i, a);
      GroupInv(h) && i in g.jobs && InWindow(h.main, i) && i in h.jobs &&
      (Exposed(h.jobs[i]) <==> Exposed(g.jobs[i])) && (Alive(h.jobs[i]) <==> Alive(g.jobs[i]))
  {
    OpenIs(g, i, a, i);
    hide Guard, Step, GroupInv, InWindow, Exposed;
    StepKeeps(g, i, a);
    OpenExposure(g, i, a);
  }

  lemma ApproachStep(g: Group, i: JobId)
    requires GroupInv(g) && InWindow(g.main, i) && i in g.jobs && Alive(g.jobs[i]) && !g.jobs[i].co.pos.Driver?
    ensures var c := Approach(g.jobs[i].co.pos);
      && Guard(g, i, c) && !Closes(c) && GroupInv(Step(g, i, c)) && Step(g, i, c).main == g.main
      && i in Step(g, i, c).jobs && Alive(Step(g, i, c).jobs[i])
      && Distance(Step(g, i, c).jobs[i].co.pos) < Distance(g.jobs[i].co.pos)
      && (Exposed(g.jobs[i]) ==> !c.ActEnter? && Exposed(Step(g, i, c).jobs[i]))
  {
    WindowAlive(g, i);
    hide GroupInv, JobInv, InWindow, Exposed, LocalGuard, LocalStep, Guard, Step, Approach, Distance, Alive;
    Approaches(g.jobs[i]);
    OwnStep(g, i, Approach(g.jobs[i].co.pos));
  }

  lemma InsideMore(g: Group, i: JobId, a: Act, r: seq<Group>, acts: seq<(JobId, Act)>)
    requires Inside(g, i, a, r, acts) && !r[|acts|].jobs[i].co.pos.Driver?
    ensures var s := r[|acts|];
      var c := Approach(s.jobs[i].co.pos);
      && Guard(s, i, c) && Inside(g, i, a, r + [Step(s, i, c)], acts + [(i, c)])
      && Distance(Step(s, i, c).jobs[i].co.pos) < Distance(s.jobs[i].co.pos)
  {
    hide GroupInv, InWindow, Exposed, Guard, Step, StepAt, Approach, Distance, Alive, Closes;
    ApproachStep(r[|acts|], i);
    Extend(r, acts, i, Approach(r[|acts|].jobs[i].co.pos));
  }

  lemma {:induction false} ReachDriver(g: Group, i: JobId, a: Act, r0: seq<Group>, acts0: seq<(JobId, Act)>)
      returns (r: seq<Group>, acts: seq<(JobId, Act)>)
    requires Inside(g, i, a, r0, acts0)
    ensures Inside(g, i, a, r, acts) && r[|acts|].jobs[i].co.pos.Driver?
    decreases Distance(r0[|acts0|].jobs[i].co.pos)
  {
    if r0[|acts0|].jobs[i].co.pos.Driver? {
      return r0, acts0;
    }
    InsideMore(g, i, a, r0, acts0);
    var s := r0[|acts0|];
    var c := Approach(s.jobs[i].co.pos);
    var r1, acts1 := r0 + [Step(s, i, c)], acts0 + [(i, c)];
    assert r1[|acts1|] == Step(s, i, c);
    hide Inside, Guard, Step, Approach, Distance;
    r, acts := ReachDriver(g, i, a, r1, acts1);
  }

  lemma EntersWindow(g: Group, i: JobId, a: Act)
    requires GroupInv(g) && Guard(g, i, a) && Opens(a) && Alive(g.jobs[i])
    ensures Inside(g, i, a, [g] + [Step(g, i, a)], [] + [(i, a)])
  {
    hide Guard, Step, GroupInv, InWindow, Exposed, StepAt, Alive;
    OpenStep(g, i, a);
    Extend([g], [], i, a);
  }

  lemma HitAtEnd(g: Group, i: JobId, a: Act, r0: seq<Group>, acts0: seq<(JobId, Act)>)
      returns (r: seq<Group>, acts: seq<(JobId, Act)>)
    requires Inside(g, i, a, r0, acts0) && r0[|acts0|].jobs[i].co.pos.Driver?
    ensures Path(r, acts) && |acts| == |acts0| + 2 && acts[..|acts0|] == acts0 && r[0] == r0[0]
    ensures acts[|acts0|] == (i, ActError) && acts[|acts0| + 1].0 == i && Closes(acts[|acts0| + 1].1)
  {
    hide Guard, Step, GroupInv, InWindow, Exposed, StepAt, Alive, Closes;
    var h, f := HitAndClose(r0[|acts0|], i);
    Extend(r0, acts0, i, ActError);
    var r1, acts1 := r0 + [h], acts0 + [(i, ActError)];
    Extend(r1, acts1, i, Closing(h.main));
    r, acts := r1 + [f], acts1 + [(i, Closing(h.main))];
  }

  /** A coroutine that is not done can lose an error; it need not be entered for that if it is exposed. */
  lemma AliveLoses(g: Group, i: JobId, a: Act) returns (r: seq<Group>, acts: seq<(JobId, Act)>)
    requires GroupInv(g) && Guard(g, i, a) && Opens(a) && Alive(g.jobs[i])
    ensures Loses(g, i, a, r, acts) && (Exposed(g.jobs[i]) ==> NotWoken(r, acts, i))
  {
    hide Guard, Step, GroupInv, InWindow, Exposed, Lost, StepAt, Alive, Wakeable;
    EntersWindow(g, i, a);
    var r0, acts0 := ReachDriver(g, i, a, [g] + [Step(g, i, a)], [] + [(i, a)]);
    r, acts := HitAtEnd(g, i, a, r0, acts0);
    var n := |acts0|;
    forall k | 0 <= k < n ensures acts[k] == acts0[k] { assert acts[k] == acts[..n][k]; }
    hide Path;
    WindowOutcome(r, acts, i, 0, n + 1);
  }

  lemma ExposedIsAlive(j: Job)
    requires Exposed(j)
    ensures Alive(j)
  {
  }

  /**
   What a caller can check before the call: as long as nobody enters the job, a resume
   or a cancel can lose an error exactly if the job's coroutine is in the driver's code
   or on its way there past the pause.
   */
  lemma LosesIffExposed(g: Group, i: JobId, a: Act)
    requires GroupInv(g) && Guard(g, i, a) && Opens(a)
    ensures Exposed(g.jobs[i]) <==> exists r, acts :: Loses(g, i, a, r, acts) && NotWoken(r, acts, i)
  {
    assert i in g.jobs;
    hide GroupInv, Guard, Step, InWindow, Exposed, Alive;
    if Exposed(g.jobs[i]) {
      ExposedIsAlive(g.jobs[i]);
      var r, acts := AliveLoses(g, i, a);
    } else {
      forall r, acts ensures !(Loses(g, i, a, r, acts) && NotWoken(r, acts, i)) {
        if Loses(g, i, a, r, acts) && NotWoken(r, acts, i) {
          StaysUnexposed(r, acts, i, |acts| - 1);
          WindowOutcome(r, acts, i, 0, |acts| - 1);
        }
      }
    }
  }

  // ------------------------------------------- when others may enter the job

  lemma DeadStep(j: Job, a: Act)
    requires JobInv(j) && !Alive(j) && AnyThread(a) && LocalGuard(j, a)
    ensures !a.ActError? && !Alive(LocalStep(j, a))
  {
  }

  lemma StepAtDead(r: seq<Group>, acts: seq<(JobId, Act)>, i: JobId, k: nat)
    requires StepAt(r, acts, k) && GroupInv(r[k]) && InWindow(r[k].main, i) && (acts[k].0 == i ==> !Closes(acts[k].1))
    requires i in r[k].jobs && !Alive(r[k].jobs[i])
    ensures i in r[k + 1].jobs && !Alive(r[k + 1].jobs[i]) && acts[k] != (i, ActError)
  {
    var g, d, a := r[k], acts[k].0, acts[k].1;
    WindowAlive(g, i);
    WindowStep(g, d, a, i);
    hide GroupInv, JobInv, Guard, Step, LocalGuard, LocalStep, AnyThread, InWindow, Alive;
    if d == i { DeadStep(g.jobs[i], a); }
  }

  lemma {:induction false} StaysDead(r: seq<Group>, acts: seq<(JobId, Act)>, i: JobId, e: nat)
    requires Path(r, acts) && i in r[0].jobs && OpenWindow(r, acts, i, 0, e) && !Alive(r[0].jobs[i])
    ensures i in r[e].jobs && !Alive(r[e].jobs[i]) && forall k :: 0 < k < e ==> acts[k] != (i, ActError)
    decreases e
  {
    hide GroupInv, Guard, Step, InWindow, Alive;
    assert StepAt(r, acts, e - 1) by { hide StepAt; }
    PathInv(r, acts, e - 1) by { hide StepAt; }
    if e == 1 {
      OpenStep(r[0], i, acts[0].1);
    } else {
      hide StepAt;
      StaysDead(r, acts, i, e - 1);
      InsideWindow(r, acts, i, 0, e - 1);
      StepAtDead(r, acts, i, e - 1);
    }
  }

  /** If others may enter the job in the window, it can lose an error exactly if its coroutine is alive. */
  lemma LosesIffAlive(g: Group, i: JobId, a: Act)
    requires GroupInv(g) && Guard(g, i, a) && Opens(a)
    ensures Alive(g.jobs[i]) <==> exists r, acts :: Loses(g, i, a, r, acts)
  {
    assert i in g.jobs;
    hide GroupInv, Guard, Step, InWindow, Exposed, Alive;
    if Alive(g.jobs[i]) {
      var r, acts := AliveLoses(g, i, a);
    } else {
      forall r, acts ensures !Loses(g, i, a, r, acts) {
        if Loses(g, i, a, r, acts) {
          StaysDead(r, acts, i, |acts| - 1);
          WindowOutcome(r, acts, i, 0, |acts| - 1);
        }
      }
    }
  }
}
