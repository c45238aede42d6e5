/**
 What the steps of a group do to its jobs (job.c, blockjob.c), told from the outside:
 where a coroutine gets to, which status a job has then, what it returns, and who may
 wake it.
 */
module JobEffects {
  import opened JobState
  import opened JobRun
  import opened JobOutcome
  import opened JobWindow
  import opened JobPrepare

  /** A pause counts, and the job has not been cancelled for good. */
  predicate Held(j: Job) {
    j.pauses.count > 0 && !j.cancels.force
  }

  /**
   What wakes a coroutine that sleeps: job_enter, the timer, a cancel, a new pause
   unless it sleeps for a pause already, and the end of the last pause unless it sleeps
   for a time.
   */
  predicate Wakes(j: Job, a: Act) {
    || a.ActEnter? || a.ActTimer? || a.ActCancel? || a.ActCancelEnd?
    || ((a.ActDrainBegin? || (a.ActUserPause? && !j.pauses.user)) && !j.co.paused)
    || ((a.ActDrainEnd? || a.ActResumeEnd?) && j.pauses.count == 1 && !j.co.timer)
  }

  /** Where a step of its own takes a coroutine. */
  function Course(j: Job, a: Act): Pos {
    if j.co.pos.Yielded? then (if Wakes(j, a) then Woken(j.co.pos.after) else j.co.pos)
    else match a
      case ActStart => Start
      case ActContinue => if Held(j) && j.co.pos == Woken(ThenCheck) then Pausing else Driver
      case ActPausePoint => if Held(j) then Pausing else Driver
      case ActPauseHere => if Held(j) then Yielded(ThenUnpause(j.status)) else Driver
      case ActYield(_) =>
        if j.cancels.force then Driver else if j.pauses.count > 0 then Pausing else Yielded(ThenCheck)
      case ActFinish(_) => Ended
      case ActExit(_) => Exited
      case _ => j.co.pos
  }

  /** The coroutine is where its own step takes it, and a timer is pending while it sleeps for a time. */
  predicate Courses(j: Job, a: Act, k: Job) {
    && k.co.pos == Course(j, a)
    && (k.co.timer <==>
          || (k.co.pos == j.co.pos && j.co.timer)
          || (a == ActYield(true) && !j.co.pos.Yielded? && k.co.pos.Yielded?))
  }

  /** The status in which a finalised job is left: it is gone if nobody has to look at it. */
  function Left(j: Job): Status {
    if j.options.autoDismiss || j.co.pos.NoCo? then Null else Concluded
  }

  /** The status after a step that touches only the job. */
  function OwnStatus(j: Job, a: Act): Status {
    match a
    case ActStart => Running
    case ActReady => Ready
    case ActPauseHere => if !Held(j) then j.status else if j.status.Ready? then Standby else Paused
    case ActContinue => if j.status.Paused? then Running else if j.status.Standby? then Ready else j.status
    case ActDismiss => Null
    case ActEarlyFail => Null
    case _ => j.status
  }

  // --------------------------------------------------------- the job itself

  lemma CoroutineCourses(j: Job, a: Act)
    requires JobInv(j) && LocalGuard(j, a)
    requires a.ActContinue? || a.ActPausePoint? || a.ActPauseHere? || a.ActYield? || a.ActFinish?
    ensures Courses(j, a, LocalStep(j, a))
  {
  }

  lemma PauseCourses(j: Job, a: Act)
    requires JobInv(j) && LocalGuard(j, a) && (a.ActDrainBegin? || a.ActDrainEnd? || a.ActUserPause? || a.ActError?)
    ensures Courses(j, a, LocalStep(j, a))
  {
  }

  lemma LifeCourses(j: Job, a: Act)
    requires JobInv(j) && LocalGuard(j, a)
    requires a.ActStart? || a.ActEnter? || a.ActTimer? || a.ActReady? || a.ActRef? || a.ActUnref? || a.ActDismiss?
      || a.ActEarlyFail?
    ensures Courses(j, a, LocalStep(j, a))
  {
  }

  lemma CoroutineStatus(j: Job, a: Act)
    requires JobInv(j) && LocalGuard(j, a)
    requires a.ActContinue? || a.ActPausePoint? || a.ActPauseHere? || a.ActYield? || a.ActFinish?
    ensures LocalStep(j, a).status == OwnStatus(j, a)
  {
  }

  lemma PauseStatus(j: Job, a: Act)
    requires JobInv(j) && LocalGuard(j, a) && (a.ActDrainBegin? || a.ActDrainEnd? || a.ActUserPause? || a.ActError?)
    ensures LocalStep(j, a).status == OwnStatus(j, a)
  {
  }

  lemma LocalStatus(j: Job, a: Act)
    requires JobInv(j) && LocalGuard(j, a)
    ensures LocalStep(j, a).status == OwnStatus(j, a)
  {
    if a.ActContinue? || a.ActPausePoint? || a.ActPauseHere? || a.ActYield? || a.ActFinish? {
      hide JobInv, LocalStep, OwnStatus;
      CoroutineStatus(j, a);
    } else if a.ActDrainBegin? || a.ActDrainEnd? || a.ActUserPause? || a.ActError? {
      hide JobInv, LocalStep, OwnStatus;
      PauseStatus(j, a);
    }
  }

  lemma LocalReturn(j: Job, a: Act)
    requires JobInv(j) && LocalGuard(j, a)
    ensures LocalStep(j, a).result.ret == if a.ActFinish? then a.ret else j.result.ret
  {
  }

  /** Steps that leave what the job was created with, its readiness and its references alone. */
  lemma PlainRest(j: Job, a: Act)
    requires JobInv(j) && LocalGuard(j, a)
    requires !a.ActReady? && !a.ActRef? && !a.ActUnref? && !a.ActDismiss? && !a.ActEarlyFail?
    ensures var k := LocalStep(j, a); k.options == j.options && k.readied == j.readied && k.refs == j.refs
  {
  }

  lemma LocalRest(j: Job, a: Act)
    requires JobInv(j) && LocalGuard(j, a)
    ensures var k := LocalStep(j, a);
      && k.options == j.options && (k.readied <==> j.readied || a.ActReady?)
      && k.refs.pins == j.refs.pins + (if a.ActRef? then 1 else if a.ActUnref? then -1 else 0)
  {
    if !a.ActReady? && !a.ActRef? && !a.ActUnref? && !a.ActDismiss? && !a.ActEarlyFail? {
      hide JobInv, LocalStep;
      PlainRest(j, a);
    }
  }

  lemma LocalCourses(j: Job, a: Act)
    requires JobInv(j) && LocalGuard(j, a)
    ensures Courses(j, a, LocalStep(j, a))
  {
    hide JobInv, LocalStep, Courses;
    if a.ActContinue? || a.ActPausePoint? || a.ActPauseHere? || a.ActYield? || a.ActFinish? { CoroutineCourses(j, a); }
    else if a.ActDrainBegin? || a.ActDrainEnd? || a.ActUserPause? || a.ActError? { PauseCourses(j, a); }
    else { LifeCourses(j, a); }
  }

  // -------------------------------------------------------- completing jobs

  /** What job_update_rc_locked makes of the return value; ECANCELED is 125. */
  function Returns(j: Job): int {
    if j.result.ret == 0 && j.cancels.force then -125 else j.result.ret
  }

  /** The job has this status and this return value now, and its coroutine is where it was. */
  predicate Settled(j: Job, k: Job, status: Status, ret: int) {
    && k.co.pos == j.co.pos && k.co.timer == j.co.timer && k.options == j.options && k.readied == j.readied
    && k.refs.pins == j.refs.pins && k.status == status && k.result.ret == ret
  }

  lemma RcSettles(j: Job)
    requires JobInv(j) && (Completed(j.status) || j.co.pos.NoCo?) && j.result.inTxn
    ensures Settled(j, UpdateRc(j), if Returns(j) != 0 then Aborting else j.status, Returns(j))
  {
  }

  lemma FinalizeSettles(j: Job)
    requires JobInv(j) && j.result.inTxn
    requires j.status.Pending? || j.status.Aborting? || (Completed(j.status) && j.cancels.force)
    ensures Settled(j, FinalizeSingle(j), Left(j), Returns(j))
  {
    UpdateRcKeeps(j);
    RcSettles(j);
    hide UpdateRc, JobInv;
  }

  lemma CommitSettles(j: Job)
    requires JobInv(j) && j.result.inTxn && j.status.Pending? && !j.cancels.force
    ensures Settled(j, FinalizeSingle(UpdateRc(j)), Left(j), 0)
  {
    UpdateRcKeeps(j);
    FinalizeSettles(j);
    assert j.result.ret == 0;
    hide UpdateRc, JobInv, FinalizeSingle;
  }

  lemma ExitSettles(j: Job)
    requires JobInv(j) && j.co.pos.Ended?
    ensures var e := j.(co := j.co.(busy := false, pos := Exited));
      var u := UpdateRc(Assert(e, e.result.inTxn && !Completed(e.status)));
      if Returns(j) != 0 then Settled(e, u, Aborting, Returns(j))
      else u == e && Settled(e, Transition(e, Waiting), Waiting, 0)
  {
  }

  // ------------------------------------------------------- the whole group

  predicate OthersCompleted(g: Group, d: JobId) {
    forall k :: k in g.jobs && k != d && g.jobs[k].result.inTxn ==> Completed(g.jobs[k].status)
  }

  /** Where finalisation leaves a member: if a prepare callback fails, all but that job are still pending. */
  function FinalStatus(i: JobId, j: Job, p: Prepares): Status {
    if p.AllPrepared? then Left(j) else if i == p.job then Aborting else Pending
  }

  function FinalReturn(i: JobId, p: Prepares): int {
    if p.PrepareFails? && i == p.job then p.code else 0
  }

  predicate Cancels(a: Act) {
    a.ActCancel? || a.ActCancelEnd?
  }

  /**
   The status of job i after a step of job d.  Members wait for one another and then go
   on together, by hand or at once; a job that returns with an error or was cancelled
   does not wait, and one that was cancelled before it started is as good as returned.
   */
  function NextStatus(g: Group, d: JobId, a: Act, i: JobId): Status
    requires d in g.jobs && i in g.jobs
  {
    var j := g.jobs[i];
    if Finalizes(g, d, a) then (if j.result.inTxn then FinalStatus(i, j, a.p) else j.status)
    else if a.ActExit? && Returns(g.jobs[d]) == 0 && OthersCompleted(g, d) then
      (if j.result.inTxn then Pending else j.status)
    else if i != d then j.status
    else if a.ActExit? then (if Returns(j) == 0 then Waiting else Aborting)
    else if a.ActAbortNext? then Left(j)
    else if Cancels(a) && j.co.pos.NoCo? then Aborting
    else OwnStatus(j, a)
  }

  /** The return value of job i after a step of job d. */
  function NextReturn(g: Group, d: JobId, a: Act, i: JobId): int
    requires d in g.jobs && i in g.jobs
  {
    var j := g.jobs[i];
    if PrepareFailsAt(g, d, a) && a.p.job == i then a.p.code
    else if i != d then j.result.ret
    else if a.ActFinish? then a.ret
    else if a.ActExit? || a.ActAbortNext? then Returns(j)
    else if Cancels(a) && j.co.pos.NoCo? then -125
    else j.result.ret
  }

  /** All that a step of job d does to job i besides its pauses and cancels. */
  predicate Effect(g: Group, d: JobId, a: Act, h: Group, i: JobId) {
    && d in g.jobs && i in g.jobs && i in h.jobs
    && var j, k := g.jobs[i], h.jobs[i];
       && (if i == d then Courses(j, a, k) else k.co.pos == j.co.pos && k.co.timer == j.co.timer)
       && k.status == NextStatus(g, d, a, i) && k.result.ret == NextReturn(g, d, a, i)
       && k.options == j.options && (k.readied <==> j.readied || (i == d && a.ActReady?))
       && k.refs.pins == j.refs.pins + (if i != d then 0 else if a.ActRef? then 1 else if a.ActUnref? then -1 else 0)
  }

  /** Steps that complete nobody. */
  predicate Plain(a: Act) {
    !a.ActExit? && !a.ActFinalize? && !a.ActAbortNext? && !Cancels(a)
  }

  lemma PlainNext(g: Group, d: JobId, a: Act, i: JobId)
    requires d in g.jobs && i in g.jobs && Plain(a)
    ensures NextStatus(g, d, a, i) == if i == d then OwnStatus(g.jobs[i], a) else g.jobs[i].status
    ensures NextReturn(g, d, a, i) == if i == d && a.ActFinish? then a.ret else g.jobs[i].result.ret
  {
    hide OwnStatus, Returns, OthersCompleted, LastToComplete, FinalStatus;
  }

  /** A step that puts a new job k in the place of job d. */
  lemma PutEffect(g: Group, d: JobId, a: Act, h: Group, k: Job, i: JobId)
    requires d in g.jobs && i in g.jobs && h.jobs == Put(g, d, k).jobs
    requires var j := g.jobs[d];
      && Courses(j, a, k) && k.status == NextStatus(g, d, a, d) && k.result.ret == NextReturn(g, d, a, d)
      && k.options == j.options && (k.readied <==> j.readied || a.ActReady?)
      && k.refs.pins == j.refs.pins + (if a.ActRef? then 1 else if a.ActUnref? then -1 else 0)
    requires i != d ==> NextStatus(g, d, a, i) == g.jobs[i].status && NextReturn(g, d, a, i) == g.jobs[i].result.ret
    ensures Effect(g, d, a, h, i)
  {
    hide Courses, NextStatus, NextReturn;
  }

  lemma LocalEffect(g: Group, d: JobId, a: Act, i: JobId)
    requires d in g.jobs && JobInv(g.jobs[d]) && Guard(g, d, a) && i in g.jobs && LocalGuard(g.jobs[d], a)
    ensures Effect(g, d, a, Step(g, d, a), i)
  {
    hide JobInv, LocalStep, LocalGuard, Guard, Step, Courses, OwnStatus, NextStatus, NextReturn, Effect, Plain;
    LocalIs(g, d, a);
    LocalActs(g.jobs[d], a);
    PlainNext(g, d, a, d);
    PlainNext(g, d, a, i);
    LocalCourses(g.jobs[d], a);
    LocalStatus(g.jobs[d], a);
    LocalReturn(g.jobs[d], a);
    LocalRest(g.jobs[d], a);
    PutEffect(g, d, a, Step(g, d, a), LocalStep(g.jobs[d], a), i);
  }

  lemma LocalActs(j: Job, a: Act)
    requires LocalGuard(j, a)
    ensures Plain(a)
  {
  }

  /** Steps that end or begin a window, and those of a sweep, leave everything else alone. */
  lemma WindowSettles(j: Job)
    requires JobInv(j)
    ensures Settled(j, ResetIo(j), j.status, j.result.ret)
    ensures Settled(j, CancelAsync(j, true), j.status, j.result.ret)
    ensures Settled(j.(co := UserResume(j).co), UserResume(j), j.status, j.result.ret)
  {
  }

  lemma ResumeCourses(j: Job)
    requires JobInv(j) && j.pauses.user
    ensures Courses(j, ActResumeEnd, UserResume(j))
  {
  }

  /** The job keeps its course, its status and its return value. */
  lemma StandsStill(j: Job, a: Act, k: Job)
    requires JobInv(j) && Settled(j, k, j.status, j.result.ret) && (Opens(a) || a.ActSweep? || a.ActSweepEnd?)
    ensures Courses(j, a, k) && OwnStatus(j, a) == j.status && Plain(a)
  {
  }

  lemma OpenEffect(g: Group, d: JobId, a: Act, i: JobId)
    requires d in g.jobs && JobInv(g.jobs[d]) && Guard(g, d, a) && i in g.jobs && Opens(a)
    ensures Effect(g, d, a, Step(g, d, a), i)
  {
    var j := g.jobs[d];
    WindowSettles(j);
    StandsStill(j, a, ResetIo(j));
    assert !a.ActReady? && !a.ActRef? && !a.ActUnref? && !a.ActFinish?;
    hide JobInv, Guard, Step, ResetIo, CancelAsync, UserResume, InWindow, Courses, OwnStatus, NextStatus, NextReturn,
      Effect, Plain, Opens;
    OpenIs(g, d, a, i);
    PlainNext(g, d, a, d);
    PlainNext(g, d, a, i);
    PutEffect(g, d, a, Step(g, d, a), ResetIo(j), i);
  }

  lemma SweepEffect(g: Group, d: JobId, a: Act, i: JobId)
    requires d in g.jobs && JobInv(g.jobs[d]) && MainFits(g) && Guard(g, d, a) && i in g.jobs
    requires a.ActSweepEnd? || a.ActSweep?
    ensures Effect(g, d, a, Step(g, d, a), i)
  {
    var j := g.jobs[d];
    WindowSettles(j);
    StandsStill(j, a, CancelAsync(j, true));
    hide JobInv, MainFits, Guard, Step, ResetIo, CancelAsync, UserResume, InWindow, Courses, OwnStatus, NextStatus,
      NextReturn, Effect, Plain, Opens, Closes;
    CloseIs(g, d, a, i);
    PlainNext(g, d, a, d);
    PlainNext(g, d, a, i);
    PutEffect(g, d, a, Step(g, d, a), CancelAsync(j, true), i);
  }

  lemma ResumeEffect(g: Group, d: JobId, i: JobId)
    requires d in g.jobs && JobInv(g.jobs[d]) && MainFits(g) && Guard(g, d, ActResumeEnd) && i in g.jobs
    ensures Effect(g, d, ActResumeEnd, Step(g, d, ActResumeEnd), i)
  {
    var j, a := g.jobs[d], ActResumeEnd;
    WindowSettles(j);
    hide JobInv, MainFits, Guard, Step, ResetIo, CancelAsync, UserResume, InWindow, Courses, NextStatus,
      NextReturn, Effect;
    CloseIs(g, d, a, i);
    ResumeCourses(j);
    PlainNext(g, d, a, d);
    PlainNext(g, d, a, i);
    PutEffect(g, d, a, Step(g, d, a), UserResume(j), i);
  }

  lemma AbortNextIs(g: Group, d: JobId)
    requires GroupInv(g) && Guard(g, d, ActAbortNext)
    ensures var j := g.jobs[d];
      && JobInv(j) && j.result.inTxn && !j.co.pos.Yielded? && Step(g, d, ActAbortNext) == Put(g, d, FinalizeSingle(j))
      && (j.status.Pending? || j.status.Aborting? || (Completed(j.status) && j.cancels.force))
  {
    var j := g.jobs[d];
    assert if d == CauseJob(g.cause) then Culprit(j, g.cause) else DoomedMember(j);
    assert JobInv(j) && (j.status.Aborting? ==> j.result.ret != 0) && !j.co.pos.Yielded?;
    hide FinalizeSingle, GroupInv, JobInv;
  }

  lemma AbortNextEffect(g: Group, d: JobId, i: JobId)
    requires GroupInv(g) && Guard(g, d, ActAbortNext) && d in g.jobs && i in g.jobs
    ensures Effect(g, d, ActAbortNext, Step(g, d, ActAbortNext), i)
  {
    hide GroupInv, JobInv, Guard, Step, FinalizeSingle, Returns, OthersCompleted, Effect, LastToComplete, OwnStatus,
      Left;
    AbortNextIs(g, d);
    var j := g.jobs[d];
    FinalizeSettles(j);
    PutEffect(g, d, ActAbortNext, Step(g, d, ActAbortNext), FinalizeSingle(j), i);
  }

  // ------------------------------------------------------------ finalisation

  /** All prepare callbacks return 0. */
  lemma CommittedSettles(g: Group, i: JobId)
    requires AllFit(g) && AllPending(g) && i in g.jobs
    ensures var h := FinalizeAll(g);
      && i in h.jobs
      && if g.jobs[i].result.inTxn then Settled(g.jobs[i], h.jobs[i], Left(g.jobs[i]), 0) else h.jobs[i] == g.jobs[i]
  {
    var j := g.jobs[i];
    assert JobInv(j) && (j.result.inTxn ==> j.status.Pending? && !j.cancels.force);
    hide AllFit, AllPending, JobInv, UpdateRc, FinalizeSingle, Settled;
    if j.result.inTxn { CommitSettles(j); }
  }

  /** A prepare callback fails. */
  lemma PreparedSettles(g: Group, p: Prepares, i: JobId)
    requires AllFit(g) && AllPending(g) && PreparesOk(g, p) && p.PrepareFails? && i in g.jobs
    ensures var h := Prepared(g, p);
      && i in h.jobs && h.jobs[i].result.inTxn == g.jobs[i].result.inTxn
      && if !g.jobs[i].result.inTxn then h.jobs[i] == g.jobs[i]
         else if i == p.job then Settled(g.jobs[i], h.jobs[i], Aborting, p.code)
         else Settled(g.jobs[i], h.jobs[i], Pending, 0)
  {
    var j := g.jobs[i];
    assert JobInv(j) && (j.result.inTxn ==> j.status.Pending? && !j.cancels.force);
    assert p.code != 0 && (i == p.job || i in p.before ==> j.result.inTxn);
    hide AllFit, AllPending, JobInv, UpdateRc, PreparesOk, Settled;
    RcMember(j, p.code);
    if j.result.inTxn {
      PendingSettles(j);
      PrepareSettles(j, p.code);
    }
  }

  lemma FinalizationSettles(g: Group, d: JobId, p: Prepares, i: JobId)
    requires AllFit(g) && AllPending(g) && PreparesOk(g, p) && d in g.jobs && i in g.jobs && g.jobs[d].result.inTxn
    ensures var h := DoFinalize(g, d, p);
      && i in h.jobs
      && if g.jobs[i].result.inTxn then Settled(g.jobs[i], h.jobs[i], FinalStatus(i, g.jobs[i], p), FinalReturn(i, p))
         else h.jobs[i] == g.jobs[i]
  {
    hide AllFit, AllPending, PreparesOk, Settled, FinalizeAll, Prepared, Left;
    if p.AllPrepared? {
      CommittedSettles(g, i);
    } else {
      PreparedSettles(g, p, i);
      PreparedSettles(g, p, d);
    }
  }

  lemma PendingSettles(j: Job)
    requires JobInv(j) && j.result.inTxn && j.status.Pending? && !j.cancels.force
    ensures UpdateRc(j) == j && Settled(j, j, Pending, 0)
  {
  }

  lemma PrepareSettles(j: Job, code: int)
    requires JobInv(j) && j.result.inTxn && j.status.Pending? && code != 0
    ensures Settled(j, UpdateRc(j.(result := j.result.(ret := code))), Aborting, code)
  {
  }

  lemma AllArePending(g: Group, d: JobId)
    requires GoodGroup(g) && d in g.jobs && g.jobs[d].result.inTxn && g.jobs[d].status.Pending?
    ensures AllPending(g)
  {
    forall k | k in g.jobs && g.jobs[k].result.inTxn ensures g.jobs[k].status.Pending? && !g.jobs[k].cancels.force {
      assert GoodMember(g.jobs[k]);
    }
  }

  lemma PendingReturn(g: Group, i: JobId)
    requires AllFit(g) && AllPending(g) && i in g.jobs && g.jobs[i].result.inTxn
    ensures g.jobs[i].result.ret == 0 && !g.jobs[i].co.pos.Yielded?
  {
    assert JobInv(g.jobs[i]);
  }

  lemma FinalizeIs(g: Group, d: JobId, p: Prepares)
    requires GroupInv(g) && Guard(g, d, ActFinalize(p))
    ensures AllFit(g) && AllPending(g) && PreparesOk(g, p) && !g.aborting && g.jobs[d].result.inTxn
    ensures p.PrepareFails? ==> p.job in g.jobs && g.jobs[p.job].result.inTxn
    ensures Step(g, d, ActFinalize(p)) == DoFinalize(g, d, p)
  {
    assert JobInv(g.jobs[d]);
    AllArePending(g, d);
    hide GroupInv, AllPending, PreparesOk, DoFinalize;
  }

  lemma FinalizeEffect(g: Group, d: JobId, p: Prepares, i: JobId)
    requires GroupInv(g) && Guard(g, d, ActFinalize(p)) && d in g.jobs && i in g.jobs
    ensures Effect(g, d, ActFinalize(p), Step(g, d, ActFinalize(p)), i)
  {
    hide GroupInv, AllFit, Guard, Step, JobInv, DoFinalize, AllPending, PreparesOk, LastToComplete, Left, FinalStatus;
    FinalizeIs(g, d, p);
    FinalizationSettles(g, d, p, i);
    PendingReturn(g, d);
    if g.jobs[i].result.inTxn { PendingReturn(g, i); }
    hide Returns, OthersCompleted, OwnStatus;
  }

  // -------------------------------------------------------- a job returns

  function Returned(j: Job): Job {
    j.(co := j.co.(busy := false, pos := Exited))
  }

  /** The job fails: it aborts its group or joins an abort. */
  lemma FailedExit(g: Group, d: JobId, p: Prepares)
    requires d in g.jobs && JobInv(g.jobs[d]) && Guard(g, d, ActExit(p)) && Returns(g.jobs[d]) != 0
    ensures var h := Step(g, d, ActExit(p));
      && d in h.jobs && h.jobs == Put(g, d, h.jobs[d]).jobs
      && Settled(Returned(g.jobs[d]), h.jobs[d], Aborting, Returns(g.jobs[d]))
  {
    var j := g.jobs[d];
    var e := Returned(j);
    var u := UpdateRc(Assert(e, e.result.inTxn && !Completed(e.status)));
    ExitSettles(j);
    ExitKeeps(j);
    hide JobInv, UpdateRc, Assert, TxnSuccess, Transition, PreparesOk, LocalGuard, Settled, Returns;
    PutPut(g, d, e, u);
  }

  /** The job has done well: it waits for the others, or goes on together with them. */
  lemma GoodExit(g: Group, d: JobId, p: Prepares)
    requires d in g.jobs && JobInv(g.jobs[d]) && Guard(g, d, ActExit(p)) && Returns(g.jobs[d]) == 0
    ensures var e := Returned(g.jobs[d]);
      && Settled(e, Transition(e, Waiting), Waiting, 0) && JobInv(Transition(e, Waiting))
      && Transition(e, Waiting).result == e.result && Transition(e, Waiting).cancels == e.cancels && !e.cancels.force
      && Step(g, d, ActExit(p)) == TxnSuccess(Put(g, d, e), d, p)
  {
    var j := g.jobs[d];
    ExitSettles(j);
    ExitKeeps(j);
    hide JobInv, UpdateRc, TxnAbort, TxnSuccess, Transition, PreparesOk, LocalGuard, Settled;
    PutPut(g, d, Returned(j), Returned(j));
  }

  /** What becomes of the group when the job has done well, with w for the job that waits. */
  lemma GoodExitIs(g: Group, d: JobId, p: Prepares, w: Job)
    requires d in g.jobs && g.jobs[d].result.inTxn && w.result.inTxn
    requires var e := Returned(g.jobs[d]); w == Transition(e, Waiting) && w.options == e.options && w.status.Waiting?
    ensures var h, g1 := TxnSuccess(Put(g, d, Returned(g.jobs[d])), d, p), Put(g, d, w);
      if !OthersCompleted(g, d) then h == g1
      else if LastToComplete(g, d) then h == DoFinalize(ToPending(g1), d, p)
      else Returns(g.jobs[d]) == 0 ==> h == ToPending(g1)
  {
    var e, g1 := Returned(g.jobs[d]), Put(g, d, w);
    WaitingCompleted(g, d, e);
    assert w.options == g.jobs[d].options;
    hide DoFinalize, ToPending, Transition, AllCompleted, Completed;
    PutPut(g, d, e, w);
    forall k | k in g.jobs
      ensures g1.jobs[k].result.inTxn == g.jobs[k].result.inTxn && g1.jobs[k].options == g.jobs[k].options
    {
    }
  }

  /** All members have done well and become pending together. */
  lemma PendTogether(g: Group, d: JobId, p: Prepares, w: Job)
    requires GroupInv(g) && !g.aborting && g.main.Free? && d in g.jobs && g.jobs[d].result.inTxn && PreparesOk(g, p)
    requires !Completed(g.jobs[d].status) && OthersCompleted(g, d)
    requires JobInv(w) && w.status.Waiting? && w.result.inTxn && !w.cancels.force && w.result.events == []
    ensures var g2 := ToPending(Put(g, d, w));
      && AllFit(g2) && AllPending(g2) && PreparesOk(g2, p) && g2.jobs.Keys == g.jobs.Keys
      && g2.jobs[d] == w.(status := Pending)
      && forall k :: k in g.jobs && k != d ==>
           g2.jobs[k] == if g.jobs[k].result.inTxn then g.jobs[k].(status := Pending) else g.jobs[k]
  {
    hide JobInv, GoodMember, Ends;
    var g1 := Put(g, d, w);
    WaitingKeeps(g, d, w);
    assert AllCompleted(g1) by {
      forall k | k in g1.jobs && g1.jobs[k].result.inTxn ensures Completed(g1.jobs[k].status) {
        if k != d { assert Completed(g.jobs[k].status); }
      }
    }
    hide Completed;
    AllWaiting(g1, d);
    ToPendingKeeps(g1);
    hide ToPending;
    PendingFacts(g1, ToPending(g1), d);
    PutMember(g, d, w);
  }

  lemma ExitIs(g: Group, d: JobId, p: Prepares)
    requires GroupInv(g) && Guard(g, d, ActExit(p)) && d in g.jobs
    ensures var j := g.jobs[d];
      && JobInv(j) && j.co.pos.Ended? && !j.co.timer && j.result.inTxn && j.result.events == [] && !Completed(j.status)
      && g.main.Free? && PreparesOk(g, p) && (Returns(j) == 0 ==> !g.aborting)
      && (p.PrepareFails? ==> p.job in g.jobs && g.jobs[p.job].result.inTxn)
  {
    var j := g.jobs[d];
    assert JobInv(j);
    if g.aborting { WaitedForAreCancelled(g, d); }
  }

  lemma FailedExitEffect(g: Group, d: JobId, p: Prepares, i: JobId)
    requires GroupInv(g) && Guard(g, d, ActExit(p)) && d in g.jobs && i in g.jobs && Returns(g.jobs[d]) != 0
    ensures Effect(g, d, ActExit(p), Step(g, d, ActExit(p)), i)
  {
    hide GroupInv, Guard, Step, JobInv, Completed, PreparesOk, Effect, OwnStatus, Left, OthersCompleted;
    ExitIs(g, d, p);
    FailedExit(g, d, p);
    PutEffect(g, d, ActExit(p), Step(g, d, ActExit(p)), Step(g, d, ActExit(p)).jobs[d], i);
  }

  lemma WaitEffect(g: Group, d: JobId, p: Prepares, w: Job, h: Group, i: JobId)
    requires d in g.jobs && i in g.jobs && g.jobs[d].co.pos.Ended? && !g.jobs[d].co.timer
    requires Returns(g.jobs[d]) == 0 && !OthersCompleted(g, d)
    requires Settled(Returned(g.jobs[d]), w, Waiting, 0) && h == Put(g, d, w)
    ensures Effect(g, d, ActExit(p), h, i)
  {
    hide OwnStatus, Left, Effect;
    PutEffect(g, d, ActExit(p), h, w, i);
  }

  /** Job i before, waiting or as it was, and pending. */
  predicate Pended(g: Group, d: JobId, w: Job, g2: Group, i: JobId) {
    && d in g.jobs && i in g.jobs && i in g2.jobs
    && g2.jobs[i] == if i == d then w.(status := Pending)
                     else if g.jobs[i].result.inTxn then g.jobs[i].(status := Pending)
                     else g.jobs[i]
  }

  lemma PendEffect(g: Group, d: JobId, p: Prepares, w: Job, g2: Group, i: JobId)
    requires Pended(g, d, w, g2, i) && g.jobs[d].co.pos.Ended? && !g.jobs[d].co.timer && g.jobs[d].result.inTxn
    requires Returns(g.jobs[d]) == 0 && OthersCompleted(g, d) && !LastToComplete(g, d)
    requires Settled(Returned(g.jobs[d]), w, Waiting, 0)
    ensures Effect(g, d, ActExit(p), g2, i)
  {
    hide OwnStatus, Left, OthersCompleted, LastToComplete;
  }

  lemma LastEffect(g: Group, d: JobId, p: Prepares, w: Job, g2: Group, h: Group, i: JobId)
    requires Pended(g, d, w, g2, i) && g.jobs[d].co.pos.Ended? && !g.jobs[d].co.timer && g.jobs[d].result.inTxn
    requires !g.aborting && LastToComplete(g, d) && Returns(g.jobs[d]) == 0 && i in h.jobs && w.result.inTxn
    requires Settled(Returned(g.jobs[d]), w, Waiting, 0)
    requires if g2.jobs[i].result.inTxn then
        g2.jobs[i].result.ret == 0 && Settled(g2.jobs[i], h.jobs[i], FinalStatus(i, g2.jobs[i], p), FinalReturn(i, p))
      else h.jobs[i] == g2.jobs[i]
    requires p.PrepareFails? && i == p.job ==> g.jobs[i].result.inTxn
    ensures Effect(g, d, ActExit(p), h, i)
  {
    hide OwnStatus, OthersCompleted, LastToComplete;
  }

  lemma GoodExitEffect(g: Group, d: JobId, p: Prepares, i: JobId)
    requires GroupInv(g) && Guard(g, d, ActExit(p)) && d in g.jobs && i in g.jobs && Returns(g.jobs[d]) == 0
    ensures Effect(g, d, ActExit(p), Step(g, d, ActExit(p)), i)
  {
    hide GroupInv, Guard, Step, JobInv, Transition, Completed, PreparesOk, Effect, LastToComplete, OthersCompleted,
      TxnSuccess, DoFinalize, ToPending, AllFit, AllPending, Returns;
    ExitIs(g, d, p);
    GoodExit(g, d, p);
    var h, w := Step(g, d, ActExit(p)), Transition(Returned(g.jobs[d]), Waiting);
    GoodExitIs(g, d, p, w);
    if !OthersCompleted(g, d) {
      WaitEffect(g, d, p, w, h, i);
    } else {
      PendTogether(g, d, p, w);
      var g2 := ToPending(Put(g, d, w));
      assert Pended(g, d, w, g2, i);
      if LastToComplete(g, d) {
        FinalizationSettles(g2, d, p, i);
        if g2.jobs[i].result.inTxn { PendingReturn(g2, i); }
        LastEffect(g, d, p, w, g2, h, i);
      } else {
        PendEffect(g, d, p, w, g2, i);
      }
    }
  }

  // ---------------------------------------------------------------- cancels

  lemma CancelSettles(j: Job, force: bool)
    requires JobInv(j)
    ensures Settled(j, CancelAsync(j, force), j.status, j.result.ret) && CancelAsync(j, force).result == j.result
    ensures CancelAsync(j, force).co == j.co
    ensures !j.co.pos.NoCo? && !j.co.deferred ==>
      var k := Enter(CancelAsync(j, force));
      && k.status == j.status && k.result == j.result && k.options == j.options && k.readied == j.readied
      && k.refs == j.refs
      && if j.co.pos.Yielded? then k.co.pos == Woken(j.co.pos.after) && !k.co.timer else k.co == j.co
  {
  }

  /** A job that has not started completes as cancelled. */
  lemma UnstartedSettles(j: Job)
    requires JobInv(j) && j.co.pos.NoCo? && j.status.Created?
    ensures Settled(j, UpdateRc(CancelAsync(j, true)), Aborting, -125)
  {
  }

  lemma CancelJobs(g: Group, d: JobId, force: bool)
    requires g.main.Free? && d in g.jobs && JobInv(g.jobs[d]) && CancelFits(g.jobs[d], force)
    ensures var h := CancelStep(g, d, force);
      && d in h.jobs && h.jobs == Put(g, d, h.jobs[d]).jobs
      && h.jobs[d] == if g.jobs[d].co.pos.NoCo? then UpdateRc(CancelAsync(g.jobs[d], true))
                      else if g.jobs[d].co.deferred then CancelAsync(g.jobs[d], force)
                      else Enter(CancelAsync(g.jobs[d], force))
  {
    var j := g.jobs[d];
    CancelSettles(j, force);
    if j.co.pos.NoCo? {
      UnstartedRc(j);
      PutPut(g, d, CancelAsync(j, true), UpdateRc(CancelAsync(j, true)));
    }
    hide JobInv, CancelAsync, Enter, UpdateRc, Assert, TxnSuccess, Settled;
  }

  lemma CancelNext(g: Group, d: JobId, a: Act, i: JobId)
    requires d in g.jobs && i in g.jobs && Cancels(a)
    ensures var j := g.jobs[i];
      && NextStatus(g, d, a, i) == (if i == d && j.co.pos.NoCo? then Aborting else j.status)
      && NextReturn(g, d, a, i) == (if i == d && j.co.pos.NoCo? then -125 else j.result.ret)
  {
    hide Left, Returns, OthersCompleted, LastToComplete, FinalStatus;
  }

  lemma CancelledIs(j: Job, force: bool, a: Act, k: Job)
    requires JobInv(j) && CancelFits(j, force) && Cancels(a)
    requires k == if j.co.pos.NoCo? then UpdateRc(CancelAsync(j, true))
                  else if j.co.deferred then CancelAsync(j, force)
                  else Enter(CancelAsync(j, force))
    ensures Courses(j, a, k) && k.options == j.options && k.readied == j.readied && k.refs.pins == j.refs.pins
    ensures k.status == if j.co.pos.NoCo? then Aborting else j.status
    ensures k.result.ret == if j.co.pos.NoCo? then -125 else j.result.ret
  {
    CancelSettles(j, force);
    if j.co.pos.NoCo? { UnstartedSettles(j); }
    assert (j.co.deferred ==> !j.co.pos.Yielded?) && (j.co.timer ==> j.co.pos.Yielded?);
    hide JobInv, CancelAsync, Enter, UpdateRc, CancelFits;
  }

  lemma CancelEffect(g: Group, d: JobId, a: Act, i: JobId)
    requires d in g.jobs && JobInv(g.jobs[d]) && MainFits(g) && Guard(g, d, a) && i in g.jobs && Cancels(a)
    ensures Effect(g, d, a, Step(g, d, a), i)
  {
    var j := g.jobs[d];
    assert a.ActCancel? ==> MayCancel(j, a.force);
    assert a.ActCancelEnd? ==> CancelFits(j, g.main.force);
    assert g.main.Free? || g.main.Cancelling?;
    hide JobInv, MainFits, Guard, Step, CancelStep, CancelAsync, Enter, UpdateRc, MayCancel, CancelFits, InWindow,
      Effect, Courses, NextStatus, NextReturn;
    var force := CancelIs(g, d, a, d);
    if a.ActCancel? { MayCancelFits(j, force); }
    CancelJobs(g.(main := Free), d, force);
    CancelledIs(j, force, a, Step(g, d, a).jobs[d]);
    CancelNext(g, d, a, d);
    CancelNext(g, d, a, i);
    PutEffect(g, d, a, Step(g, d, a), Step(g, d, a).jobs[d], i);
  }

  /** Every step does to every job exactly what the tables say. */
  lemma StepEffect(g: Group, d: JobId, a: Act, i: JobId)
    requires GroupInv(g) && Guard(g, d, a) && i in g.jobs
    ensures Effect(g, d, a, Step(g, d, a), i)
  {
    assert d in g.jobs && JobInv(g.jobs[d]) && MainFits(g) by { hide JobInv, MainFits; }
    hide GroupInv, JobInv, MainFits, Step, Effect;
    if a.ActExit? {
      if Returns(g.jobs[d]) == 0 { GoodExitEffect(g, d, a.p, i); } else { FailedExitEffect(g, d, a.p, i); }
    } else if a.ActFinalize? {
      FinalizeEffect(g, d, a.p, i);
    } else if a.ActAbortNext? {
      AbortNextEffect(g, d, i);
    } else if Cancels(a) {
      CancelEffect(g, d, a, i);
    } else if LocalGuard(g.jobs[d], a) {
      LocalEffect(g, d, a, i);
    } else if Opens(a) {
      OpenEffect(g, d, a, i);
    } else if a.ActResumeEnd? {
      ResumeEffect(g, d, i);
    } else {
      SweepEffect(g, d, a, i);
    }
  }

  // ------------------------------------------------------------ whole runs

  lemma StepAtEffect(r: seq<Group>, acts: seq<(JobId, Act)>, k: nat, i: JobId)
    requires Run(r, acts) && k < |acts| && i in r[k].jobs
    ensures Effect(r[k], acts[k].0, acts[k].1, r[k + 1], i) && GroupInv(r[k])
  {
    hide GroupInv, Init;
    RunInv(r, acts, k);
    assert StepAt(r, acts, k);
    hide Guard, Step, Effect;
    StepEffect(r[k], acts[k].0, acts[k].1, i);
  }

  /** Job i is woken at q if it sleeps. */
  predicate WokenAt(r: seq<Group>, acts: seq<(JobId, Act)>, i: JobId, q: nat) {
    q < |acts| && q < |r| && acts[q].0 == i && i in r[q].jobs && Wakes(r[q].jobs[i], acts[q].1)
  }

  /**
   A coroutine that sleeps goes on sleeping, with its timer, exactly as long as it is not
   entered, timed out, cancelled, newly paused or released from its last pause.
   */
  lemma {:induction false} SleepsUntilWoken(r: seq<Group>, acts: seq<(JobId, Act)>, k: nat, m: nat, i: JobId)
    requires Run(r, acts) && k <= m < |r| && i in r[k].jobs && r[k].jobs[i].co.pos.Yielded?
    requires forall q :: k <= q < m - 1 ==> !WokenAt(r, acts, i, q)
    ensures i in r[m].jobs
    ensures var c, c' := r[k].jobs[i].co, r[m].jobs[i].co;
      if m > k && WokenAt(r, acts, i, m - 1) then c'.pos == Woken(c.pos.after)
      else c'.pos == c.pos && c'.timer == c.timer
    decreases m
  {
    hide GroupInv, StepAt, Init, Wakes;
    if k < m {
      SleepsUntilWoken(r, acts, k, m - 1, i);
      StepAtEffect(r, acts, m - 1, i);
      hide Run, NextStatus, NextReturn;
    }
  }

  predicate HasReturned(j: Job, ret: int) {
    (j.co.pos.Ended? || j.co.pos.Exited?) && j.result.ret == ret
  }

  /** Finalisation finds no member that has returned an error. */
  lemma NoErrorFinalizes(g: Group, d: JobId, a: Act, i: JobId)
    requires GroupInv(g) && Guard(g, d, a) && Finalizes(g, d, a) && i in g.jobs && g.jobs[i].result.inTxn
    ensures g.jobs[i].result.ret == 0
  {
    assert JobInv(g.jobs[d]) && JobInv(g.jobs[i]) && GoodMember(g.jobs[i]);
  }

  lemma FailingIsMember(g: Group, d: JobId, a: Act)
    requires Guard(g, d, a) && PrepareFailsAt(g, d, a)
    ensures a.p.job in g.jobs && g.jobs[a.p.job].result.inTxn
  {
  }

  /** What a job that has returned does no more. */
  predicate OfCoroutine(a: Act) {
    a.ActFinish? || a.ActContinue? || a.ActPausePoint? || a.ActPauseHere? || a.ActYield? || a.ActStart?
  }

  lemma ReturnedActs(g: Group, d: JobId, a: Act)
    requires d in g.jobs && JobInv(g.jobs[d]) && Guard(g, d, a) && (g.jobs[d].co.pos.Ended? || g.jobs[d].co.pos.Exited?)
    ensures !OfCoroutine(a)
  {
    hide MayResume, MayCancel, PreparesOk, Accepts;
  }

  lemma EffectKeepsError(g: Group, d: JobId, a: Act, h: Group, i: JobId, ret: int)
    requires Effect(g, d, a, h, i) && HasReturned(g.jobs[i], ret) && ret != 0 && (d == i ==> !OfCoroutine(a))
    requires !(PrepareFailsAt(g, d, a) && a.p.job == i) && !(d == i && g.jobs[i].co.pos.NoCo?)
    ensures HasReturned(h.jobs[i], ret)
  {
    hide PrepareFailsAt, NextStatus;
  }

  lemma StepKeepsError(g: Group, d: JobId, a: Act, i: JobId, ret: int)
    requires GroupInv(g) && Guard(g, d, a) && i in g.jobs && HasReturned(g.jobs[i], ret) && ret != 0
    ensures i in Step(g, d, a).jobs && HasReturned(Step(g, d, a).jobs[i], ret)
  {
    assert d in g.jobs && JobInv(g.jobs[d]) by { hide JobInv; }
    hide GroupInv, JobInv, Guard, Step, PrepareFailsAt, Effect, OfCoroutine;
    if d == i { ReturnedActs(g, d, a); }
    if PrepareFailsAt(g, d, a) && a.p.job == i {
      FailingIsMember(g, d, a);
      FailingFinalizes(g, d, a);
      NoErrorFinalizes(g, d, a, i);
    }
    StepEffect(g, d, a, i);
    assert i in Step(g, d, a).jobs by { StepKeys(g, d, a); }
    EffectKeepsError(g, d, a, Step(g, d, a), i, ret);
  }

  lemma FailingFinalizes(g: Group, d: JobId, a: Act)
    requires PrepareFailsAt(g, d, a)
    ensures Finalizes(g, d, a)
  {
  }

  lemma StepAtKeepsError(r: seq<Group>, acts: seq<(JobId, Act)>, k: nat, i: JobId, ret: int)
    requires StepAt(r, acts, k) && GroupInv(r[k]) && i in r[k].jobs && HasReturned(r[k].jobs[i], ret) && ret != 0
    ensures i in r[k + 1].jobs && HasReturned(r[k + 1].jobs[i], ret)
  {
    hide GroupInv, Guard, Step, HasReturned;
    StepKeepsError(r[k], acts[k].0, acts[k].1, i, ret);
  }

  /** An error that the driver's run function returns stays the job's result. */
  lemma {:induction false} ErrorStays(r: seq<Group>, acts: seq<(JobId, Act)>, k: nat, m: nat, i: JobId, ret: int)
    requires Run(r, acts) && k < m < |r| && k < |acts| && acts[k] == (i, ActFinish(ret)) && ret != 0
    ensures i in r[m].jobs && HasReturned(r[m].jobs[i], ret)
    decreases m
  {
    hide GroupInv, Init;
    RunInv(r, acts, m - 1);
    assert StepAt(r, acts, m - 1);
    if m == k + 1 {
      StepAtEffect(r, acts, k, i);
      hide Run, GroupInv, StepAt, NextStatus;
      FinishReturns(r[k], i, ret, r[m]);
    } else {
      hide StepAt, HasReturned;
      ErrorStays(r, acts, k, m - 1, i, ret);
      StepAtKeepsError(r, acts, m - 1, i, ret);
    }
  }

  lemma FinishReturns(g: Group, i: JobId, ret: int, h: Group)
    requires Guard(g, i, ActFinish(ret)) && Effect(g, i, ActFinish(ret), h, i)
    ensures i in h.jobs && HasReturned(h.jobs[i], ret)
  {
  }

  /** In a group where nothing has gone wrong a job with an error is still a member, and nobody has been finalised. */
  lemma ErrorUnfinished(g: Group, i: JobId, ret: int)
    requires GroupInv(g) && !g.aborting && i in g.jobs && HasReturned(g.jobs[i], ret) && ret != 0
    ensures g.jobs[i].result.inTxn && NoneFinalized(g)
  {
    assert JobInv(g.jobs[i]) && Ends(g.jobs[i], Commit);
    NobodyYet(g, i);
  }

  /** An error keeps the group from being aborted for a failed prepare. */
  lemma ErrorForestalls(g: Group, d: JobId, a: Act, i: JobId, ret: int)
    requires GroupInv(g) && Guard(g, d, a) && i in g.jobs && HasReturned(g.jobs[i], ret) && ret != 0
    requires !g.cause.ByPrepare?
    ensures !Step(g, d, a).cause.ByPrepare?
  {
    hide GroupInv, Guard, Step, HasReturned;
    if g.aborting {
      CauseStays(g, d, a);
    } else {
      PrepareCause(g, d, a);
      if PrepareFailsAt(g, d, a) {
        ErrorUnfinished(g, i, ret);
        FailingFinalizes(g, d, a);
        ErrorIs(g, i, ret);
        NoErrorFinalizes(g, d, a, i);
      }
    }
  }

  lemma ErrorIs(g: Group, i: JobId, ret: int)
    requires i in g.jobs && HasReturned(g.jobs[i], ret)
    ensures g.jobs[i].result.ret == ret
  {
  }

  lemma StepAtForestalls(r: seq<Group>, acts: seq<(JobId, Act)>, k: nat, i: JobId, ret: int)
    requires StepAt(r, acts, k) && GroupInv(r[k]) && i in r[k].jobs && HasReturned(r[k].jobs[i], ret) && ret != 0
    requires !r[k].cause.ByPrepare?
    ensures !r[k + 1].cause.ByPrepare?
  {
    hide GroupInv, Guard, Step, HasReturned;
    ErrorForestalls(r[k], acts[k].0, acts[k].1, i, ret);
  }

  lemma FinishCause(g: Group, i: JobId, ret: int)
    requires GroupInv(g) && Guard(g, i, ActFinish(ret))
    ensures !Step(g, i, ActFinish(ret)).cause.ByPrepare?
  {
    assert JobInv(g.jobs[i]);
    hide LocalStep;
  }

  lemma {:induction false} NeverForPrepare(r: seq<Group>, acts: seq<(JobId, Act)>, k: nat, m: nat, i: JobId, ret: int)
    requires Run(r, acts) && k < m < |r| && k < |acts| && acts[k] == (i, ActFinish(ret)) && ret != 0
    ensures !r[m].cause.ByPrepare?
    decreases m
  {
    hide GroupInv, Init, HasReturned;
    RunInv(r, acts, m - 1);
    assert StepAt(r, acts, m - 1);
    if m == k + 1 {
      hide Guard, Step;
      FinishCause(r[k], i, ret);
    } else {
      hide StepAt;
      NeverForPrepare(r, acts, k, m - 1, i, ret);
      ErrorStays(r, acts, k, m - 1, i, ret);
      StepAtForestalls(r, acts, m - 1, i, ret);
    }
  }

  /** An error that a run function returns makes every member that is finalised later abort. */
  lemma ErrorReturnAborts(r: seq<Group>, acts: seq<(JobId, Act)>, k: nat, m: nat, i: JobId, ret: int, x: JobId)
    requires Run(r, acts) && k < m < |r| && k < |acts| && acts[k] == (i, ActFinish(ret)) && ret != 0
    requires x in r[m].jobs && r[m].jobs[x].result.events != []
    ensures r[m].jobs[x].result.events == [Abort, Clean]
  {
    hide GroupInv, Init, StepAt, HasReturned;
    ErrorStays(r, acts, k, m, i, ret);
    NeverForPrepare(r, acts, k, m, i, ret);
    GroupOutcome(r, acts, m, x);
    RunInv(r, acts, m);
    CauseMeansAborting(r[m]);
    if !r[m].aborting { ErrorUnfinished(r[m], i, ret); }
  }
}
