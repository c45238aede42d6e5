/**
 Jobs in a group (JobTxn in job.c): every interleaving of the coroutines, the timer,
 users, drained sections, cancels and the group's completion.  One step is what is
 done between taking the job lock and giving it up again.  Resuming a job and ending a
 user's pause by a cancel are two steps each, because the lock is given up for a
 callback in between; so are the two loops of job_completed_txn_abort_locked, member
 by member.
 */
module JobRun {
  import opened Common
  import opened JobState

  type JobId = nat

  /**
   Why the group is being aborted: a member completed with an error or was cancelled, or
   the prepare callback of a member failed while another one, or itself, drove finalisation.
   */
  datatype Cause = NoCause | ByCompletion(job: JobId) | ByCancel(job: JobId) | ByPrepare(driver: JobId, failing: JobId)

  /**
   What the main thread is in the middle of while it has given up the job lock for the
   driver's user_resume callback: resuming a job, cancelling one, or the first loop of
   job_completed_txn_abort_locked, which still has to cancel `todo` and is `at` one of them.
   */
  datatype Main =
    | Free
    | Resuming(job: JobId)
    | Cancelling(job: JobId, force: bool)
    | Sweeping(todo: set<JobId>, at: Option<JobId>)

  datatype Group = Group(jobs: map<JobId, Job>, aborting: bool, cause: Cause, main: Main)

  /** How the prepare callbacks go: all return 0, or those of `before` do and that of `job` returns `code`. */
  datatype Prepares = AllPrepared | PrepareFails(before: set<JobId>, job: JobId, code: int)

  function Members(g: Group): set<JobId> {
    set i | i in g.jobs && g.jobs[i].result.inTxn
  }

  predicate AllCompleted(g: Group) {
    forall i :: i in g.jobs && g.jobs[i].result.inTxn ==> Completed(g.jobs[i].status)
  }

  function Put(g: Group, i: JobId, j: Job): Group {
    g.(jobs := g.jobs[i := j])
  }

  // ---------------------------------------------------- completing the group

  /** The loop over the members that are still to be cancelled. */
  function SweepRest(todo: set<JobId>): Main {
    if todo == {} then Free else Sweeping(todo, None)
  }

  /** job_completed_txn_abort_locked up to its first loop, which then cancels the other members. */
  function TxnAbort(g: Group, d: JobId, cause: Cause): Group
    requires d in g.jobs
  {
    if !g.jobs[d].result.inTxn then Put(g, d, g.jobs[d].(failed := true))
    else if g.aborting then g
    else g.(aborting := true, cause := cause, main := SweepRest(Members(g) - {d}))
  }

  function FinalizeAll(g: Group): Group {
    g.(jobs := map i | i in g.jobs :: if g.jobs[i].result.inTxn then FinalizeSingle(UpdateRc(g.jobs[i])) else g.jobs[i])
  }

  /** The members after the prepare callbacks when one of them fails. */
  function Prepared(g: Group, p: Prepares): Group
    requires p.PrepareFails?
  {
    g.(jobs := map i | i in g.jobs ::
      if i == p.job then UpdateRc(g.jobs[i].(result := g.jobs[i].result.(ret := p.code)))
      else if i in p.before then UpdateRc(g.jobs[i])
      else g.jobs[i])
  }

  /** job_do_finalize_locked */
  function DoFinalize(g: Group, d: JobId, p: Prepares): Group
    requires d in g.jobs
  {
    if p.AllPrepared? then FinalizeAll(g) else TxnAbort(Prepared(g, p), d, ByPrepare(d, p.job))
  }

  function ToPending(g: Group): Group {
    g.(jobs := map i | i in g.jobs ::
      if g.jobs[i].result.inTxn then Transition(Assert(g.jobs[i], g.jobs[i].result.ret == 0), Pending) else g.jobs[i])
  }

  /** job_completed_txn_success_locked */
  function TxnSuccess(g: Group, i: JobId, p: Prepares): Group
    requires i in g.jobs
  {
    var g1 := Put(g, i, Transition(g.jobs[i], Waiting));
    if !AllCompleted(g1) then g1
    else if exists k :: k in g1.jobs && g1.jobs[k].result.inTxn && !g1.jobs[k].options.autoFinalize then ToPending(g1)
    else DoFinalize(ToPending(g1), i, p)
  }

  /** job_completed_locked */
  function CompletedJob(g: Group, i: JobId, p: Prepares): Group
    requires i in g.jobs
  {
    var j := UpdateRc(Assert(g.jobs[i], g.jobs[i].result.inTxn && !Completed(g.jobs[i].status)));
    if j.result.ret != 0 then TxnAbort(Put(g, i, j), i, ByCompletion(i)) else TxnSuccess(Put(g, i, j), i, p)
  }

  // ---------------------------------------------------------------- steps

  datatype Act =
    | ActEnter | ActContinue | ActPausePoint | ActPauseHere | ActYield(sleep: bool) | ActReady | ActError
    | ActFinish(ret: int)
    | ActStart | ActTimer | ActDrainBegin | ActDrainEnd | ActUserPause | ActRef | ActUnref | ActDismiss | ActEarlyFail
    | ActResumeBegin | ActResumeEnd
    | ActCancel(force: bool) | ActCancelBegin(force: bool) | ActCancelEnd
    | ActExit(p: Prepares) | ActFinalize(p: Prepares)
    | ActSweep | ActSweepBegin | ActSweepEnd | ActAbortNext

  /** Steps of the coroutine, and job_enter, which drivers call from anywhere; all others belong to the main thread. */
  predicate AnyThread(a: Act) {
    || a.ActEnter? || a.ActContinue? || a.ActPausePoint? || a.ActPauseHere? || a.ActYield? || a.ActReady? || a.ActError?
    || a.ActFinish?
  }

  /** Steps that touch only the job itself. */
  predicate LocalGuard(j: Job, a: Act) {
    match a
    case ActStart => j.status.Created?
    case ActEnter => true
    case ActTimer => j.co.timer
    case ActContinue => j.co.pos.Woken?
    case ActPausePoint => j.co.pos.Start? || j.co.pos.Driver?
    case ActPauseHere => j.co.pos.Pausing?
    case ActYield(_) => j.co.pos.Driver?
    case ActReady => j.co.pos.Driver? && !j.readied
    case ActError => j.co.pos.Driver?
    case ActFinish(_) => j.co.pos.Driver?
    case ActDrainBegin => true
    case ActDrainEnd => j.pauses.drains > 0
    case ActUserPause => true
    case ActRef => true
    case ActUnref => j.refs.pins > 0
    case ActDismiss => Accepts(j.status, Dismiss)
    case ActEarlyFail => j.status.Created?
    case _ => false
  }

  function LocalStep(j: Job, a: Act): Job
    requires LocalGuard(j, a)
  {
    match a
    case ActStart => StartJob(j)
    case ActEnter => Enter(j)
    case ActTimer => Enter(j.(co := j.co.(timer := false)))
    case ActContinue => Continue(j)
    case ActPausePoint => PausePoint(j)
    case ActPauseHere => PauseHere(j)
    case ActYield(sleep) => YieldHere(j, sleep)
    case ActReady => MakeReady(j)
    case ActError => StopOnError(j)
    case ActFinish(ret) => Finish(j, ret)
    case ActDrainBegin => PauseJob(j.(pauses := j.pauses.(drains := j.pauses.drains + 1)))
    case ActDrainEnd => ResumeJob(j.(pauses := j.pauses.(drains := j.pauses.drains - 1)))
    case ActUserPause => UserPause(j)
    case ActRef => j.(refs := j.refs.(count := j.refs.count + 1, pins := j.refs.pins + 1))
    case ActUnref => Unref(j.(refs := j.refs.(pins := j.refs.pins - 1)))
    case ActDismiss => DismissJob(j)
    case ActEarlyFail => DismissJob(j)
  }

  predicate PreparesOk(g: Group, p: Prepares) {
    p.PrepareFails? ==> p.code != 0 && p.job in Members(g) && p.before <= Members(g) - {p.job}
  }

  /**
   A request to cancel that gets as far as job_cancel_async_locked: of a user, whom the
   verb table lets through, or of someone else for a job that has started.  The driver's
   cancel callback may force it, and does so for a job that has not started.
   */
  predicate MayCancel(j: Job, force: bool) {
    && (Accepts(j.status, Cancel) || (j.status.Aborting? && !j.co.pos.NoCo?))
    && (j.co.pos.NoCo? ==> force)
  }

  /** When a step can be taken; the main thread does one thing at a time. */
  predicate Guard(g: Group, i: JobId, a: Act) {
    && i in g.jobs && !g.jobs[i].refs.freed
    && var j := g.jobs[i];
       match a
       case ActResumeBegin => g.main.Free? && MayResume(j)
       case ActResumeEnd => g.main == Resuming(i)
       case ActCancel(force) => g.main.Free? && MayCancel(j, force) && !j.pauses.user
       case ActCancelBegin(force) => g.main.Free? && MayCancel(j, force) && j.pauses.user
       case ActCancelEnd => g.main.Cancelling? && g.main.job == i
       case ActExit(p) => g.main.Free? && j.co.pos.Ended? && PreparesOk(g, p)
       case ActFinalize(p) => g.main.Free? && Accepts(j.status, Finalize) && !g.aborting && PreparesOk(g, p)
       case ActSweep => g.main.Sweeping? && g.main.at.None? && i in g.main.todo && !j.pauses.user
       case ActSweepBegin => g.main.Sweeping? && g.main.at.None? && i in g.main.todo && j.pauses.user
       case ActSweepEnd => g.main.Sweeping? && g.main.at == Some(i)
       case ActAbortNext => g.main.Free? && g.aborting && j.result.inTxn && Completed(j.status)
       case _ => (AnyThread(a) || g.main.Free?) && LocalGuard(j, a)
  }

  /** job_cancel_locked */
  function CancelStep(g: Group, i: JobId, force: bool): Group
    requires i in g.jobs
  {
    var j := CancelAsync(g.jobs[i], force);
    if j.co.pos.NoCo? then CompletedJob(Put(g, i, j), i, AllPrepared)
    else if j.co.deferred then (if j.cancels.force then TxnAbort(Put(g, i, j), i, ByCancel(i)) else Put(g, i, j))
    else Put(g, i, Enter(j))
  }

  /** One more member has been cancelled. */
  function SweepOne(g: Group, i: JobId): Group
    requires i in g.jobs && g.main.Sweeping?
  {
    Put(g, i, CancelAsync(g.jobs[i], true)).(main := SweepRest(g.main.todo - {i}))
  }

  function Step(g: Group, i: JobId, a: Act): Group
    requires Guard(g, i, a)
  {
    var j := g.jobs[i];
    match a
    case ActResumeBegin => Put(g, i, ResetIo(j)).(main := Resuming(i))
    case ActResumeEnd => Put(g, i, UserResume(j)).(main := Free)
    case ActCancel(force) => CancelStep(g, i, force)
    case ActCancelBegin(force) => Put(g, i, ResetIo(j)).(main := Cancelling(i, force))
    case ActCancelEnd => CancelStep(g.(main := Free), i, g.main.force)
    case ActExit(p) => CompletedJob(Put(g, i, j.(co := j.co.(busy := false, pos := Exited))), i, p)
    case ActFinalize(p) => DoFinalize(g, i, p)
    case ActSweep => SweepOne(g, i)
    case ActSweepBegin => Put(g, i, ResetIo(j)).(main := g.main.(at := Some(i)))
    case ActSweepEnd => SweepOne(g, i)
    case ActAbortNext => Put(g, i, FinalizeSingle(j))
    case _ => Put(g, i, LocalStep(j, a))
  }

  predicate Init(g: Group) {
    && !g.aborting && g.cause == NoCause && g.main.Free?
    && forall i :: i in g.jobs ==> g.jobs[i] == NewJob(g.jobs[i].options)
  }

  predicate StepAt(r: seq<Group>, acts: seq<(JobId, Act)>, k: nat) {
    && k < |acts| && k + 1 < |r|
    && Guard(r[k], acts[k].0, acts[k].1) && r[k + 1] == Step(r[k], acts[k].0, acts[k].1)
  }

  ghost predicate Run(r: seq<Group>, acts: seq<(JobId, Act)>) {
    |r| == |acts| + 1 && Init(r[0]) && forall k :: 0 <= k < |acts| ==> StepAt(r, acts, k)
  }

  // ------------------------------------------------------ one job at a time

  lemma EnterKeeps(j: Job)
    requires JobFits(j)
    ensures JobInv(Enter(j))
  {
  }

  /** What a step of its own leaves alone: cancels, callbacks, and everything that completion decided. */
  predicate LocalChange(j: Job, k: Job) {
    && k.cancels == j.cancels && k.options == j.options && k.result.events == j.result.events
    && (k.result.inTxn ==> j.result.inTxn)
    && (k.result.inTxn ==> (Completed(k.status) <==> Completed(j.status)))
    && (Completed(j.status) ==>
          Completed(k.status) && k.result.ret == j.result.ret && (k.result.inTxn ==> k.status == j.status))
  }

  /** What a step leaves alone that may come while the main thread is in a callback. */
  predicate ThreadChange(j: Job, k: Job) {
    && k.result.inTxn == j.result.inTxn && (j.pauses.user ==> k.pauses.user)
    && (k.co.pos.NoCo? <==> j.co.pos.NoCo?) && (j.co.pos.NoCo? ==> k.status == j.status)
  }

  lemma ThreadKeeps(j: Job, a: Act)
    requires JobInv(j) && LocalGuard(j, a) && AnyThread(a)
    ensures ThreadChange(j, LocalStep(j, a))
  {
  }

  lemma CoroutineKeeps(j: Job, a: Act)
    requires JobInv(j) && LocalGuard(j, a) && (a.ActPauseHere? || a.ActYield? || a.ActReady? || a.ActFinish?)
    ensures JobInv(LocalStep(j, a)) && LocalChange(j, LocalStep(j, a))
  {
  }

  lemma ContinueKeeps(j: Job, a: Act)
    requires JobInv(j) && LocalGuard(j, a) && (a.ActContinue? || a.ActPausePoint?)
    ensures JobInv(LocalStep(j, a)) && LocalChange(j, LocalStep(j, a))
  {
  }

  lemma PausesKeep(j: Job, p: Pauses)
    requires JobInv(j) && PausesFit(p, !j.co.pos.NoCo?)
    ensures JobFits(j.(pauses := p)) && JobInv(Enter(j.(pauses := p))) && Enter(j.(pauses := p)).pauses == p
    ensures LocalChange(j, j.(pauses := p)) && LocalChange(j, Enter(j.(pauses := p)))
  {
  }

  lemma DrainKeeps(j: Job, a: Act)
    requires JobInv(j) && LocalGuard(j, a) && (a.ActDrainBegin? || a.ActDrainEnd?)
    ensures JobInv(LocalStep(j, a)) && LocalChange(j, LocalStep(j, a))
  {
    var p := j.pauses;
    if a.ActDrainBegin? {
      PausesKeep(j, p.(drains := p.drains + 1, count := p.count + 1));
    } else {
      PausesKeep(j, p.(drains := p.drains - 1, count := p.count - 1));
    }
  }

  lemma UserKeeps(j: Job, a: Act)
    requires JobInv(j) && LocalGuard(j, a) && (a.ActError? || a.ActUserPause?)
    ensures JobInv(LocalStep(j, a)) && LocalChange(j, LocalStep(j, a))
  {
    var p := j.pauses;
    if a.ActError? {
      PausesKeep(j, p.(user := true, ioFailed := true, count := if p.user then p.count else p.count + 1));
    } else {
      if !p.user { PausesKeep(j, p.(user := true, count := p.count + 1)); }
    }
  }

  lemma UserResumeKeeps(j: Job)
    requires JobInv(j) && j.pauses.user
    ensures JobInv(UserResume(j)) && LocalChange(j, UserResume(j))
  {
    PausesKeep(j, j.pauses.(user := false, count := j.pauses.count - 1));
  }

  lemma ResetIoKeeps(j: Job)
    requires JobInv(j) && j.pauses.user
    ensures ResetIo(j) == j.(pauses := j.pauses.(ioFailed := false))
    ensures JobInv(ResetIo(j)) && LocalChange(j, ResetIo(j))
  {
  }

  lemma DismissKeeps(j: Job)
    requires JobInv(j) && !j.refs.freed && (j.status.Created? || j.status.Concluded?)
    ensures JobInv(DismissJob(j)) && LocalChange(j, DismissJob(j))
  {
  }

  lemma LifeKeeps(j: Job, a: Act)
    requires JobInv(j) && LocalGuard(j, a)
    requires a.ActStart? || a.ActEnter? || a.ActTimer? || a.ActRef? || a.ActUnref?
    requires !j.refs.freed
    ensures JobInv(LocalStep(j, a)) && LocalChange(j, LocalStep(j, a))
  {
  }

  lemma LocalKeeps(j: Job, a: Act)
    requires JobInv(j) && !j.refs.freed && LocalGuard(j, a)
    ensures JobInv(LocalStep(j, a)) && LocalChange(j, LocalStep(j, a))
  {
    if a.ActDismiss? || a.ActEarlyFail? {
      DismissKeeps(j);
    } else {
      hide JobInv, LocalStep, LocalChange;
      if a.ActDrainBegin? || a.ActDrainEnd? { DrainKeeps(j, a); }
      else if a.ActError? || a.ActUserPause? { UserKeeps(j, a); }
      else if a.ActContinue? || a.ActPausePoint? { ContinueKeeps(j, a); }
      else if a.ActPauseHere? || a.ActYield? || a.ActReady? || a.ActFinish? { CoroutineKeeps(j, a); }
      else { LifeKeeps(j, a); }
    }
  }

  lemma CancelKeeps(j: Job, force: bool)
    requires JobInv(j)
    ensures var k := CancelAsync(j, force);
      && JobFits(k) && (force || Deaf(j.co) ==> JobInv(k)) && k == j.(pauses := k.pauses, cancels := k.cancels)
      && (force ==> k.cancels.force) && (j.cancels.force ==> k.cancels.force)
  {
    var p := j.pauses;
    if p.user { PausesKeep(j, p.(user := false, count := p.count - 1)); }
  }

  /** job_update_rc_locked on a member that is not paused. */
  lemma UpdateRcKeeps(j: Job)
    requires JobInv(j) && (Completed(j.status) || j.co.pos.NoCo?) && j.result.inTxn
    ensures var k := UpdateRc(j);
      && JobInv(k) && k == j.(status := k.status, result := j.result.(ret := k.result.ret))
      && (k.result.ret == 0 <==> j.result.ret == 0 && !j.cancels.force)
      && (if k.result.ret == 0 then k == j else k.status.Aborting?)
  {
  }

  /** Finalising a completed member calls commit or abort, then clean, and takes it out of the group. */
  lemma FinalizeKeeps(j: Job)
    requires JobInv(j) && j.result.inTxn
    requires j.status.Pending? || j.status.Aborting? || (Completed(j.status) && j.cancels.force)
    ensures var k := FinalizeSingle(j);
      && JobInv(k) && !k.result.inTxn && k.cancels == j.cancels
      && k.result.events == [if j.result.ret == 0 && !j.cancels.force then Commit else Abort, Clean]
  {
    UpdateRcKeeps(j);
    ConcludeKeeps(UpdateRc(j));
    hide UpdateRc, Conclude, JobInv;
  }

  lemma ConcludeKeeps(k: Job)
    requires JobInv(k) && k.result.inTxn && (k.status.Pending? || k.status.Aborting?)
    ensures var r := Conclude(k.(result := Finalized(k.result)));
      && JobInv(r) && !r.result.inTxn && r.cancels == k.cancels
      && r.result.events == [if k.result.ret == 0 then Commit else Abort, Clean]
  {
  }

  /** The coroutine has returned: the job completes with an error, or waits for the others. */
  lemma ExitKeeps(j: Job)
    requires JobInv(j) && j.co.pos.Ended?
    ensures var e := j.(co := j.co.(busy := false, pos := Exited));
      var u := UpdateRc(Assert(e, e.result.inTxn && !Completed(e.status)));
      && u.cancels == j.cancels && u.options == j.options && u.refs == j.refs
      && (if j.result.ret == 0 && !j.cancels.force then
            u == e && JobInv(Transition(u, Waiting)) && Transition(u, Waiting).status.Waiting?
          else u.result.ret != 0 && JobInv(u) && u.status.Aborting?)
      && u.result.inTxn == j.result.inTxn == true && u.result.events == j.result.events == []
  {
  }

  // ------------------------------------------------------- the whole group

  function CauseJob(c: Cause): JobId
    requires !c.NoCause?
  {
    match c
    case ByCompletion(i) => i
    case ByCancel(i) => i
    case ByPrepare(d, _) => d
  }

  predicate Ends(j: Job, e: Event) {
    j.result.events != [] ==> j.result.events == [e, Clean]
  }

  /** A member while nothing has gone wrong: if it has completed, then well. */
  predicate GoodMember(j: Job) {
    j.result.inTxn && Completed(j.status) ==> (j.status.Waiting? || j.status.Pending?) && !j.cancels.force
  }

  /** While nothing has gone wrong the members reach PENDING together and are committed together. */
  predicate GoodGroup(g: Group) {
    && g.cause == NoCause
    && (forall i :: i in g.jobs ==> GoodMember(g.jobs[i]) && Ends(g.jobs[i], Commit))
    && (forall i, k :: i in g.jobs && k in g.jobs && g.jobs[i].result.inTxn && g.jobs[k].result.inTxn ==>
          (g.jobs[i].status.Pending? ==> g.jobs[k].status.Pending?))
    && (forall i, k :: i in g.jobs && k in g.jobs && g.jobs[i].result.events != [] ==> !g.jobs[k].result.inTxn)
  }

  /** A member of a group that is being aborted is cancelled for good and ends with abort. */
  predicate DoomedMember(j: Job) {
    (j.result.inTxn ==> j.cancels.force) && Ends(j, Abort)
  }

  /** The member because of which the group is being aborted. */
  predicate Culprit(j: Job, c: Cause) {
    match c
    case NoCause => false
    case ByCompletion(_) => (j.result.inTxn ==> j.status.Aborting?) && Ends(j, Abort)
    case ByCancel(_) => (j.result.inTxn ==> j.cancels.force) && Ends(j, Abort)
    case ByPrepare(d, p) =>
      if p == d then (j.result.inTxn ==> j.status.Aborting?) && Ends(j, Abort)
      else (j.result.inTxn ==> j.status.Pending?) && Ends(j, if j.cancels.force then Abort else Commit)
  }

  predicate AbortedGroup(g: Group) {
    && !g.cause.NoCause? && CauseJob(g.cause) in g.jobs && Culprit(g.jobs[CauseJob(g.cause)], g.cause)
    && (forall i :: i in g.jobs && i != CauseJob(g.cause) && i !in Todo(g.main) ==> DoomedMember(g.jobs[i]))
    && (g.cause.ByPrepare? ==> AllCompleted(g))
  }

  /** The members that an abort has not cancelled yet. */
  function Todo(m: Main): set<JobId> {
    if m.Sweeping? then m.todo else {}
  }

  /** The main thread is in the user_resume callback of job i. */
  predicate InWindow(m: Main, i: JobId) {
    m == Resuming(i) || (m.Cancelling? && m.job == i) || (m.Sweeping? && m.at == Some(i))
  }

  /** A job that a cancel has reached. */
  predicate CancelFits(j: Job, force: bool) {
    j.result.inTxn && (j.co.pos.NoCo? ==> force && j.status.Created?)
  }

  /** A callback is called for a member that a user has paused; an abort cancels all members but the culprit. */
  predicate MainFits(g: Group) {
    match g.main
    case Free => true
    case Resuming(i) => i in g.jobs && g.jobs[i].result.inTxn && g.jobs[i].pauses.user
    case Cancelling(i, force) => i in g.jobs && CancelFits(g.jobs[i], force) && g.jobs[i].pauses.user
    case Sweeping(todo, at) =>
      && g.aborting && !g.cause.NoCause? && todo != {} && CauseJob(g.cause) !in todo
      && (forall i :: i in todo ==> i in g.jobs && g.jobs[i].result.inTxn)
      && (at.Some? ==> at.value in todo && g.jobs[at.value].pauses.user)
  }

  predicate AllFit(g: Group) {
    forall i :: i in g.jobs ==> JobInv(g.jobs[i])
  }

  predicate GroupInv(g: Group) {
    AllFit(g) && MainFits(g) && if g.aborting then AbortedGroup(g) else GoodGroup(g)
  }

  /** A member of a good group that does not change its standing. */
  lemma GoodPut(g: Group, i: JobId, j: Job, m: Main)
    requires GroupInv(g) && !g.aborting && i in g.jobs && JobInv(j) && GoodMember(j)
    requires j.result.events == g.jobs[i].result.events
    requires j.result.inTxn ==> g.jobs[i].result.inTxn && (j.status.Pending? <==> g.jobs[i].status.Pending?)
    requires MainFits(Put(g, i, j).(main := m))
    ensures GroupInv(Put(g, i, j).(main := m))
  {
    hide JobInv, GoodMember, MainFits;
  }

  lemma AbortedPut(g: Group, i: JobId, j: Job, m: Main)
    requires GroupInv(g) && g.aborting && i in g.jobs && JobInv(j)
    requires if i == CauseJob(g.cause) then Culprit(j, g.cause) else i in Todo(m) || DoomedMember(j)
    requires j.result.inTxn && Completed(g.jobs[i].status) ==> Completed(j.status)
    requires j.result.inTxn ==> g.jobs[i].result.inTxn
    requires MainFits(Put(g, i, j).(main := m)) && Todo(g.main) <= Todo(m) + {i}
    ensures GroupInv(Put(g, i, j).(main := m))
  {
    hide JobInv, DoomedMember, Culprit, MainFits;
  }

  lemma LocalGroupKeeps(g: Group, i: JobId, j: Job, m: Main)
    requires GroupInv(g) && i in g.jobs && JobInv(j) && LocalChange(g.jobs[i], j)
    requires MainFits(Put(g, i, j).(main := m)) && Todo(m) == Todo(g.main)
    ensures GroupInv(Put(g, i, j).(main := m))
  {
    hide MainFits;
    if g.aborting {
      assert if i == CauseJob(g.cause) then Culprit(g.jobs[i], g.cause) else i in Todo(m) || DoomedMember(g.jobs[i]);
      hide JobInv;
      AbortedPut(g, i, j, m);
    } else {
      assert GoodMember(g.jobs[i]);
      hide JobInv;
      GoodPut(g, i, j, m);
    }
  }

  /** A step of any thread does not disturb the main thread. */
  lemma ThreadMain(g: Group, i: JobId, j: Job)
    requires MainFits(g) && i in g.jobs && (g.main.Free? || ThreadChange(g.jobs[i], j))
    ensures MainFits(Put(g, i, j))
  {
  }

  predicate NoneFinalized(g: Group) {
    forall i :: i in g.jobs ==> g.jobs[i].result.events == []
  }

  /** While a member is left in a group where nothing has gone wrong, nobody has been finalised. */
  lemma NobodyYet(g: Group, i: JobId)
    requires GoodGroup(g) && i in g.jobs && g.jobs[i].result.inTxn
    ensures NoneFinalized(g)
  {
    hide GoodMember, Ends;
  }

  /** An abort begins: the other members are to be cancelled. */
  lemma TxnAbortKeeps(g: Group, d: JobId, cause: Cause)
    requires AllFit(g) && NoneFinalized(g) && !g.aborting && g.main.Free? && d in g.jobs && g.jobs[d].result.inTxn
    requires !cause.NoCause? && CauseJob(cause) == d && Culprit(g.jobs[d], cause) &&
      (cause.ByPrepare? ==> AllCompleted(g))
    ensures GroupInv(TxnAbort(g, d, cause)) && TxnAbort(g, d, cause).cause == cause && TxnAbort(g, d, cause).aborting
  {
    hide JobInv;
  }

  /** Cancelling a member dooms it. */
  lemma SweepKeeps(g: Group, i: JobId)
    requires GroupInv(g) && i in g.jobs && g.main.Sweeping? && i in g.main.todo
    ensures GroupInv(SweepOne(g, i))
  {
    var k := CancelAsync(g.jobs[i], true);
    CancelKeeps(g.jobs[i], true);
    hide CancelAsync;
    assert k.result.events == [];
    hide JobInv;
    AbortedPut(g, i, k, SweepRest(g.main.todo - {i}));
  }

  lemma MayCancelFits(j: Job, force: bool)
    requires JobInv(j) && MayCancel(j, force)
    ensures CancelFits(j, force)
  {
  }

  lemma CancelStepKeeps(g: Group, i: JobId, force: bool)
    requires GroupInv(g) && g.main.Free? && i in g.jobs && CancelFits(g.jobs[i], force)
    ensures GroupInv(CancelStep(g, i, force))
  {
    CancelKeeps(g.jobs[i], force);
    hide CancelAsync, GroupInv, CompletedJob, TxnAbort, Enter;
    if g.jobs[i].co.pos.NoCo? {
      CancelUnstartedKeeps(g, i);
    } else if g.jobs[i].co.deferred {
      CancelDoneKeeps(g, i, force);
    } else {
      CancelRunningKeeps(g, i, force);
    }
  }

  /** A job that runs is told and entered. */
  lemma CancelRunningKeeps(g: Group, i: JobId, force: bool)
    requires GroupInv(g) && g.main.Free? && i in g.jobs && !g.jobs[i].co.pos.NoCo? && !g.jobs[i].co.deferred
    ensures GroupInv(Put(g, i, Enter(CancelAsync(g.jobs[i], force))))
  {
    var j := CancelAsync(g.jobs[i], force);
    CancelKeeps(g.jobs[i], force);
    hide CancelAsync;
    EnterKeeps(j);
    var k := Enter(j);
    assert k.result == j.result && k.status == j.status && k.cancels == j.cancels && !Completed(j.status);
    hide Enter;
    if g.aborting {
      assert if i == CauseJob(g.cause) then Culprit(g.jobs[i], g.cause) else DoomedMember(g.jobs[i]);
      hide JobInv;
      AbortedPut(g, i, k, Free);
    } else {
      hide JobInv;
      GoodPut(g, i, k, Free);
    }
  }

  /** A job that has not started completes at once when it is cancelled. */
  lemma CancelUnstartedKeeps(g: Group, i: JobId)
    requires GroupInv(g) && g.main.Free? && i in g.jobs && g.jobs[i].co.pos.NoCo? && g.jobs[i].status.Created?
    ensures GroupInv(CompletedJob(Put(g, i, CancelAsync(g.jobs[i], true)), i, AllPrepared))
  {
    var j := CancelAsync(g.jobs[i], true);
    UnstartedRc(g.jobs[i]);
    hide CancelAsync, JobInv, UpdateRc, TxnAbort, Assert;
    PutPut(g, i, j, UpdateRc(j));
    AbortOrJoin(g, i, UpdateRc(j));
  }

  lemma UnstartedRc(j: Job)
    requires JobInv(j) && j.co.pos.NoCo? && j.status.Created?
    ensures var k := CancelAsync(j, true);
      var u := UpdateRc(k);
      && j.result.inTxn && Assert(k, k.result.inTxn && !Completed(k.status)) == k
      && JobInv(u) && u.status.Aborting? && u.result.inTxn && u.result.events == [] && u.cancels.force &&
         u.result.ret != 0
  {
    CancelKeeps(j, true);
    hide CancelAsync;
    assert j.result.inTxn && j.result.events == [];
    UpdateRcKeeps(CancelAsync(j, true));
    hide JobInv, UpdateRc;
  }

  /** A member that completes with an error aborts the group, or joins an abort that is under way. */
  lemma AbortOrJoin(g: Group, i: JobId, u: Job)
    requires GroupInv(g) && g.main.Free? && i in g.jobs && g.jobs[i].result.inTxn && !Completed(g.jobs[i].status)
    requires JobInv(u) && u.status.Aborting? && u.result.inTxn && u.result.events == []
    requires g.jobs[i].cancels.force ==> u.cancels.force
    ensures GroupInv(TxnAbort(Put(g, i, u), i, ByCompletion(i)))
  {
    var g1 := Put(g, i, u);
    if g.aborting {
      assert if i == CauseJob(g.cause) then Culprit(g.jobs[i], g.cause) else DoomedMember(g.jobs[i]);
      hide JobInv;
      AbortedPut(g, i, u, Free);
    } else {
      hide JobInv;
      NobodyYet(g, i);
      TxnAbortKeeps(g1, i, ByCompletion(i));
    }
  }

  /** A forced cancel of a job that is done aborts the group. */
  lemma CancelDoneKeeps(g: Group, i: JobId, force: bool)
    requires GroupInv(g) && g.main.Free? && i in g.jobs && g.jobs[i].co.deferred && g.jobs[i].result.inTxn
    ensures var j := CancelAsync(g.jobs[i], force);
      GroupInv(if j.cancels.force then TxnAbort(Put(g, i, j), i, ByCancel(i)) else Put(g, i, j))
  {
    var j := CancelAsync(g.jobs[i], force);
    CancelKeeps(g.jobs[i], force);
    hide CancelAsync, JobInv;
    if g.aborting {
      assert if i == CauseJob(g.cause) then Culprit(g.jobs[i], g.cause) else DoomedMember(g.jobs[i]);
      AbortedPut(g, i, j, Free);
    } else if j.cancels.force {
      NobodyYet(g, i);
      TxnAbortKeeps(Put(g, i, j), i, ByCancel(i));
    } else {
      assert GoodMember(g.jobs[i]);
      GoodPut(g, i, j, Free);
    }
  }

  lemma AbortNextKeeps(g: Group, i: JobId)
    requires GroupInv(g) && Guard(g, i, ActAbortNext)
    ensures GroupInv(Put(g, i, FinalizeSingle(g.jobs[i])))
  {
    var j := g.jobs[i];
    assert if i == CauseJob(g.cause) then Culprit(j, g.cause) else DoomedMember(j);
    assert JobInv(j) && (j.status.Aborting? ==> j.result.ret != 0);
    hide JobInv;
    FinalizeKeeps(j);
    hide FinalizeSingle;
    AbortedPut(g, i, FinalizeSingle(j), Free);
  }

  lemma ToPendingKeeps(g: Group)
    requires AllFit(g) && forall i :: i in g.jobs && g.jobs[i].result.inTxn ==> g.jobs[i].status.Waiting?
    ensures AllFit(ToPending(g))
    ensures forall i :: i in g.jobs ==> var j, k := g.jobs[i], ToPending(g).jobs[i];
      k == if j.result.inTxn then j.(status := Pending) else j
  {
  }

  predicate AllPending(g: Group) {
    forall i :: i in g.jobs && g.jobs[i].result.inTxn ==> g.jobs[i].status.Pending? && !g.jobs[i].cancels.force
  }

  lemma CommitOneKeeps(j: Job)
    requires JobInv(j) && j.result.inTxn && j.status.Pending? && !j.cancels.force
    ensures var k := FinalizeSingle(UpdateRc(j)); JobInv(k) && !k.result.inTxn && k.result.events == [Commit, Clean]
  {
    UpdateRcKeeps(j);
    FinalizeKeeps(j);
    hide FinalizeSingle, UpdateRc;
  }

  lemma FinalizeAllKeeps(g: Group)
    requires AllFit(g) && AllPending(g) && NoneFinalized(g) && !g.aborting && g.cause == NoCause && g.main.Free?
    ensures GroupInv(FinalizeAll(g)) && FinalizeAll(g).cause == NoCause
    ensures forall i :: i in g.jobs && g.jobs[i].result.inTxn ==>
      FinalizeAll(g).jobs[i].result.events == [Commit, Clean]
  {
    hide JobInv, FinalizeSingle, UpdateRc;
    var g' := FinalizeAll(g);
    forall i | i in g.jobs ensures JobInv(g'.jobs[i]) && !g'.jobs[i].result.inTxn &&
      g'.jobs[i].result.events == if g.jobs[i].result.inTxn then [Commit, Clean] else []
    {
      if g.jobs[i].result.inTxn { CommitOneKeeps(g.jobs[i]); }
    }
    assert forall i :: i in g'.jobs ==> GoodMember(g'.jobs[i]) && Ends(g'.jobs[i], Commit);
  }

  lemma PreparedOne(g: Group, p: Prepares, i: JobId)
    requires AllFit(g) && AllPending(g) && NoneFinalized(g) && PreparesOk(g, p) && p.PrepareFails? && i in g.jobs
    ensures var j, k := g.jobs[i], Prepared(g, p).jobs[i];
      && JobInv(k) && k.result.events == []
      && (j.result.inTxn <==> k.result.inTxn)
      && (k.result.inTxn ==> if i == p.job then k.status.Aborting? else k.status.Pending?)
  {
    PrepareOneKeeps(g.jobs[i], p.code);
    if g.jobs[i].result.inTxn { UpdateRcKeeps(g.jobs[i]); }
    hide JobInv, UpdateRc;
  }

  lemma PrepareFailsKeeps(g: Group, d: JobId, p: Prepares)
    requires AllFit(g) && AllPending(g) && NoneFinalized(g) && !g.aborting && g.main.Free?
    requires d in g.jobs && g.jobs[d].result.inTxn && PreparesOk(g, p) && p.PrepareFails?
    ensures GroupInv(DoFinalize(g, d, p)) && DoFinalize(g, d, p).aborting
    ensures DoFinalize(g, d, p).cause == ByPrepare(d, p.job)
  {
    var g1 := Prepared(g, p);
    forall i | i in g.jobs ensures JobInv(g1.jobs[i]) && g1.jobs[i].result.events == [] &&
      (g.jobs[i].result.inTxn <==> g1.jobs[i].result.inTxn) &&
      (g1.jobs[i].result.inTxn ==> if i == p.job then g1.jobs[i].status.Aborting? else g1.jobs[i].status.Pending?)
    {
      PreparedOne(g, p, i);
      hide Prepared, JobInv;
    }
    hide JobInv, Prepared;
    TxnAbortKeeps(g1, d, ByPrepare(d, p.job));
  }

  lemma PrepareOneKeeps(j: Job, code: int)
    requires JobInv(j) && code != 0 && (j.result.inTxn ==> j.status.Pending? && !j.cancels.force)
    ensures j.result.inTxn ==> var k := UpdateRc(j.(result := j.result.(ret := code)));
      JobInv(k) && k.status.Aborting? && k.result.inTxn && k.result.events == j.result.events
  {
  }

  lemma DoFinalizeKeeps(g: Group, d: JobId, p: Prepares)
    requires AllFit(g) && AllPending(g) && NoneFinalized(g) && !g.aborting && g.cause == NoCause && g.main.Free?
    requires d in g.jobs && g.jobs[d].result.inTxn && PreparesOk(g, p)
    ensures GroupInv(DoFinalize(g, d, p))
  {
    if p.AllPrepared? { FinalizeAllKeeps(g); } else { PrepareFailsKeeps(g, d, p); }
  }

  /** When all members have completed well they are all WAITING. */
  lemma AllWaiting(g: Group, i: JobId)
    requires GoodGroup(g) && AllCompleted(g) && i in g.jobs && g.jobs[i].result.inTxn && g.jobs[i].status.Waiting?
    ensures forall k :: k in g.jobs && g.jobs[k].result.inTxn ==> g.jobs[k].status.Waiting?
  {
    forall k | k in g.jobs && g.jobs[k].result.inTxn ensures g.jobs[k].status.Waiting? { assert GoodMember(g.jobs[k]); }
  }

  lemma WaitingKeeps(g: Group, i: JobId, w: Job)
    requires GroupInv(g) && !g.aborting && g.main.Free? && i in g.jobs && g.jobs[i].result.inTxn
    requires !Completed(g.jobs[i].status)
    requires JobInv(w) && w.status.Waiting? && w.result.inTxn && !w.cancels.force && w.result.events == []
    ensures GroupInv(Put(g, i, w)) && NoneFinalized(Put(g, i, w))
  {
    hide JobInv;
    NobodyYet(g, i);
    GoodPut(g, i, w, Free);
  }

  lemma AllDoneKeeps(g: Group, i: JobId, p: Prepares)
    requires GroupInv(g) && !g.aborting && g.main.Free? && NoneFinalized(g) && AllCompleted(g) && PreparesOk(g, p)
    requires i in g.jobs && g.jobs[i].result.inTxn && g.jobs[i].status.Waiting?
    ensures GroupInv(ToPending(g)) && GroupInv(DoFinalize(ToPending(g), i, p))
  {
    hide JobInv;
    AllWaiting(g, i);
    ToPendingKeeps(g);
    var g2 := ToPending(g);
    hide ToPending;
    PendingFacts(g, g2, i);
    DoFinalizeKeeps(g2, i, p);
    hide DoFinalize;
    assert GoodGroup(g2);
  }

  lemma PutPut(g: Group, i: JobId, j: Job, k: Job)
    ensures Put(Put(g, i, j), i, k) == Put(g, i, k)
  {
  }

  lemma PutMember(g: Group, i: JobId, j: Job)
    requires i in g.jobs && g.jobs[i].result.inTxn && j.result.inTxn
    ensures Members(Put(g, i, j)) == Members(g)
  {
  }

  lemma TxnSuccessKeeps(g: Group, i: JobId, j: Job, p: Prepares)
    requires GroupInv(g) && !g.aborting && g.main.Free? && i in g.jobs && g.jobs[i].result.inTxn
    requires !Completed(g.jobs[i].status)
    requires JobInv(Transition(j, Waiting)) && Transition(j, Waiting).status.Waiting? && j.result.inTxn &&
      !j.cancels.force
    requires j.result.events == [] && PreparesOk(g, p)
    ensures GroupInv(TxnSuccess(Put(g, i, j), i, p))
  {
    var w := Transition(j, Waiting);
    assert w.result == j.result && w.cancels == j.cancels;
    hide Transition, JobInv, GroupInv, NoneFinalized, DoFinalize, ToPending, AllCompleted, Completed;
    var g1 := Put(g, i, w);
    PutPut(g, i, j, w);
    WaitingKeeps(g, i, w);
    PutMember(g, i, w);
    if AllCompleted(g1) { AllDoneKeeps(g1, i, p); }
  }

  lemma PendingFacts(g: Group, g2: Group, i: JobId)
    requires GoodGroup(g) && NoneFinalized(g) && AllCompleted(g)
    requires g.jobs.Keys == g2.jobs.Keys && g2.cause == g.cause
    requires forall k :: k in g.jobs ==>
      g2.jobs[k] == if g.jobs[k].result.inTxn then g.jobs[k].(status := Pending) else g.jobs[k]
    ensures AllPending(g2) && NoneFinalized(g2) && Members(g2) == Members(g) && GoodGroup(g2)
  {
    forall k | k in g2.jobs ensures g2.jobs[k].result == g.jobs[k].result {}
    forall k | k in g2.jobs && g2.jobs[k].result.inTxn ensures !g2.jobs[k].cancels.force {
      assert GoodMember(g.jobs[k]);
    }
  }

  /** The members that an abort still has to wait for have been cancelled. */
  lemma WaitedForAreCancelled(g: Group, i: JobId)
    requires GroupInv(g) && g.aborting && g.main.Free? && i in g.jobs && g.jobs[i].result.inTxn
    requires !Completed(g.jobs[i].status)
    ensures g.jobs[i].cancels.force && g.jobs[i].cancels.asked
  {
    assert if i == CauseJob(g.cause) then Culprit(g.jobs[i], g.cause) else DoomedMember(g.jobs[i]);
  }

  lemma ExitStepKeeps(g: Group, i: JobId, p: Prepares)
    requires GroupInv(g) && Guard(g, i, ActExit(p))
    ensures GroupInv(CompletedJob(Put(g, i, g.jobs[i].(co := g.jobs[i].co.(busy := false, pos := Exited))), i, p))
  {
    var j := g.jobs[i];
    var e := j.(co := j.co.(busy := false, pos := Exited));
    var u := UpdateRc(Assert(e, e.result.inTxn && !Completed(e.status)));
    ExitKeeps(j);
    assert !Completed(j.status);
    hide UpdateRc, Assert, JobInv, Transition, GroupInv, TxnSuccess, TxnAbort, Completed;
    PutPut(g, i, e, u);
    if u.result.ret == 0 {
      if g.aborting { WaitedForAreCancelled(g, i); }
      TxnSuccessKeeps(g, i, u, p);
    } else {
      AbortOrJoin(g, i, u);
    }
  }

  lemma FinalizeStepKeeps(g: Group, i: JobId, p: Prepares)
    requires GroupInv(g) && Guard(g, i, ActFinalize(p))
    ensures GroupInv(Step(g, i, ActFinalize(p)))
  {
    assert g.jobs[i].result.inTxn;
    hide JobInv;
    NobodyYet(g, i);
    forall k | k in g.jobs && g.jobs[k].result.inTxn ensures g.jobs[k].status.Pending? && !g.jobs[k].cancels.force {
      assert GoodMember(g.jobs[k]);
    }
    DoFinalizeKeeps(g, i, p);
  }

  /** The lock is given up for the callback. */
  lemma BeginKeeps(g: Group, i: JobId, m: Main)
    requires GroupInv(g) && i in g.jobs && g.jobs[i].pauses.user && MainFits(g.(main := m)) && Todo(m) == Todo(g.main)
    ensures GroupInv(Put(g, i, ResetIo(g.jobs[i])).(main := m))
  {
    var j := g.jobs[i];
    assert JobInv(j);
    hide JobInv, LocalChange, ResetIo, GroupInv;
    ResetIoKeeps(j);
    LocalGroupKeeps(g, i, ResetIo(j), m);
  }

  lemma ResumeEndKeeps(g: Group, i: JobId)
    requires GroupInv(g) && g.main == Resuming(i)
    ensures i in g.jobs && GroupInv(Put(g, i, UserResume(g.jobs[i])).(main := Free))
  {
    var j := g.jobs[i];
    assert JobInv(j);
    hide JobInv, LocalChange, UserResume;
    UserResumeKeeps(j);
    hide GroupInv;
    LocalGroupKeeps(g, i, UserResume(j), Free);
  }

  lemma ResumeMember(j: Job)
    requires JobInv(j) && MayResume(j)
    ensures j.result.inTxn
  {
  }

  lemma ResumeKeeps(g: Group, i: JobId, a: Act)
    requires GroupInv(g) && Guard(g, i, a) && (a.ActResumeBegin? || a.ActResumeEnd?)
    ensures GroupInv(Step(g, i, a))
  {
    if a.ActResumeBegin? {
      assert JobInv(g.jobs[i]);
      ResumeMember(g.jobs[i]) by { hide GroupInv; }
      hide GroupInv, JobInv;
      BeginKeeps(g, i, Resuming(i));
    } else {
      hide GroupInv;
      ResumeEndKeeps(g, i);
    }
  }

  lemma MainFree(g: Group)
    requires GroupInv(g) && g.main.Cancelling?
    ensures GroupInv(g.(main := Free))
  {
    hide JobInv, GoodMember, DoomedMember, Culprit;
  }

  lemma CancelsKeep(g: Group, i: JobId, a: Act)
    requires GroupInv(g) && Guard(g, i, a) && (a.ActCancel? || a.ActCancelBegin? || a.ActCancelEnd?)
    ensures GroupInv(Step(g, i, a))
  {
    assert JobInv(g.jobs[i]) && MainFits(g);
    hide GroupInv, JobInv, CancelStep;
    if a.ActCancelEnd? {
      MainFree(g);
      CancelStepKeeps(g.(main := Free), i, g.main.force);
    } else {
      MayCancelFits(g.jobs[i], a.force);
      hide MayCancel, CancelFits;
      if a.ActCancel? {
        CancelStepKeeps(g, i, a.force);
      } else {
        BeginKeeps(g, i, Cancelling(i, a.force));
      }
    }
  }

  lemma SweepsKeep(g: Group, i: JobId, a: Act)
    requires GroupInv(g) && Guard(g, i, a) && (a.ActSweep? || a.ActSweepBegin? || a.ActSweepEnd?)
    ensures GroupInv(Step(g, i, a))
  {
    assert MainFits(g);
    hide GroupInv, SweepOne;
    if a.ActSweepBegin? {
      BeginKeeps(g, i, g.main.(at := Some(i)));
    } else {
      SweepKeeps(g, i);
    }
  }

  lemma LocalStepKeeps(g: Group, i: JobId, a: Act)
    requires GroupInv(g) && i in g.jobs && !g.jobs[i].refs.freed && LocalGuard(g.jobs[i], a) &&
      (AnyThread(a) || g.main.Free?)
    ensures GroupInv(Put(g, i, LocalStep(g.jobs[i], a)))
  {
    var j := g.jobs[i];
    assert JobInv(j);
    hide JobInv, LocalStep, LocalChange;
    LocalKeeps(j, a);
    if AnyThread(a) { ThreadKeeps(j, a); }
    ThreadMain(g, i, LocalStep(j, a));
    LocalGroupKeeps(g, i, LocalStep(j, a), g.main);
  }

  lemma StepKeeps(g: Group, i: JobId, a: Act)
    requires GroupInv(g) && Guard(g, i, a)
    ensures GroupInv(Step(g, i, a))
  {
    if a.ActResumeBegin? || a.ActResumeEnd? { ResumeKeeps(g, i, a); }
    else if a.ActCancel? || a.ActCancelBegin? || a.ActCancelEnd? { CancelsKeep(g, i, a); }
    else if a.ActSweep? || a.ActSweepBegin? || a.ActSweepEnd? { SweepsKeep(g, i, a); }
    else if a.ActExit? { ExitStepKeeps(g, i, a.p); }
    else if a.ActFinalize? { FinalizeStepKeeps(g, i, a.p); }
    else if a.ActAbortNext? { AbortNextKeeps(g, i); }
    else {
      hide GroupInv, LocalGuard, LocalStep;
      LocalStepKeeps(g, i, a);
    }
  }

  lemma InitInv(g: Group)
    requires Init(g)
    ensures GroupInv(g)
  {
    forall i | i in g.jobs ensures JobInv(g.jobs[i]) { assert g.jobs[i] == NewJob(g.jobs[i].options); }
  }
}
