/**
 One job (job.c, blockjob.c): its fields, its status table, and what each function
 does to them while it holds the job lock.  An assertion of the source that does not
 hold sets `failed`.
 */
module JobState {
  datatype Status =
    Undefined | Created | Running | Paused | Ready | Standby | Waiting | Pending | Aborting | Concluded | Null

  /** JobSTT */
  predicate Allowed(s0: Status, s1: Status) {
    match s0
    case Undefined => s1 == Created
    case Created => s1 == Running || s1 == Aborting || s1 == Null
    case Running => s1 == Paused || s1 == Ready || s1 == Waiting || s1 == Aborting
    case Paused => s1 == Running
    case Ready => s1 == Standby || s1 == Waiting || s1 == Aborting
    case Standby => s1 == Ready
    case Waiting => s1 == Pending || s1 == Aborting
    case Pending => s1 == Aborting || s1 == Concluded
    case Aborting => s1 == Aborting || s1 == Concluded
    case Concluded => s1 == Null
    case Null => false
  }

  /** The table read by the new status: where a job can come from. */
  lemma AllowedInto(s0: Status, s1: Status)
    ensures Allowed(s0, s1) <==>
      match s1
      case Undefined => false
      case Created => s0.Undefined?
      case Running => s0.Created? || s0.Paused?
      case Paused => s0.Running?
      case Ready => s0.Running? || s0.Standby?
      case Standby => s0.Ready?
      case Waiting => s0.Running? || s0.Ready?
      case Pending => s0.Waiting?
      case Aborting => s0.Created? || s0.Running? || s0.Ready? || s0.Waiting? || s0.Pending? || s0.Aborting?
      case Concluded => s0.Pending? || s0.Aborting?
      case Null => s0.Created? || s0.Concluded?
  {
  }

  datatype Verb = Cancel | Pause | Resume | SetSpeed | Complete | Finalize | Dismiss | Change

  /** JobVerbTable */
  predicate Accepts(s: Status, v: Verb) {
    match v
    case Cancel => s.Created? || s.Running? || s.Paused? || s.Ready? || s.Standby? || s.Waiting? || s.Pending?
    case Complete => s.Ready? || s.Standby?
    case Finalize => s.Pending?
    case Dismiss => s.Concluded?
    case _ => s.Created? || s.Running? || s.Paused? || s.Ready? || s.Standby?
  }

  /** The table read by status: what users can do to a job in each stage of its life. */
  lemma VerbsByStatus(s: Status, v: Verb)
    ensures Accepts(s, v) <==>
      match s
      case Created | Running | Paused => v.Cancel? || v.Pause? || v.Resume? || v.SetSpeed? || v.Change?
      case Ready | Standby => !v.Finalize? && !v.Dismiss?
      case Waiting => v.Cancel?
      case Pending => v.Cancel? || v.Finalize?
      case Concluded => v.Dismiss?
      case _ => false
  {
  }

  /** job_is_completed_locked */
  predicate Completed(s: Status) {
    s.Waiting? || s.Pending? || s.Aborting? || s.Concluded? || s.Null?
  }

  /** What the coroutine does when it is entered again. */
  datatype After = ThenCheck | ThenUnpause(status: Status)

  /**
   Where the job's coroutine is: not created; created and about to start; in the
   driver's code; between the two checks of job_pause_point; in job_do_yield and not
   woken; woken and not yet running; returned, with job_exit scheduled; gone.
   */
  datatype Pos = NoCo | Start | Driver | Pausing | Yielded(after: After) | Woken(after: After) | Ended | Exited

  /** The driver callbacks that finalising a job calls. */
  datatype Event = Commit | Abort | Clean

  /** The coroutine with busy, paused and deferred_to_main_loop, and whether sleep_timer is pending. */
  datatype Co = Co(pos: Pos, busy: bool, paused: bool, deferred: bool, timer: bool)

  /** pause_count, user_paused, the drained sections open on the job's nodes, and whether iostatus is not OK. */
  datatype Pauses = Pauses(count: int, user: bool, drains: nat, ioFailed: bool)

  /** refcnt, and how many references are held by others than the job layer itself. */
  datatype Refs = Refs(count: int, pins: nat, freed: bool)

  /** cancelled and force_cancel */
  datatype Cancels = Cancels(asked: bool, force: bool)

  /** ret, membership in a group, and the callbacks that finalising has called */
  datatype Result = Result(ret: int, inTxn: bool, events: seq<Event>)

  datatype Options = Options(autoFinalize: bool, autoDismiss: bool)

  /** `readied` says whether the driver has signalled that it is ready. */
  datatype Job = Job(status: Status, co: Co, pauses: Pauses, cancels: Cancels, result: Result, refs: Refs,
                     options: Options, readied: bool, failed: bool)

  const ECANCELED: int := 125

  /** job_create */
  function NewJob(options: Options): Job {
    Job(Created, Co(NoCo, false, true, false, false), Pauses(1, false, 0, false), Cancels(false, false),
        Result(0, true, []), Refs(1, 0, false), options, false, false)
  }

  function Assert(j: Job, holds: bool): Job {
    if holds then j else j.(failed := true)
  }

  /** job_state_transition_locked */
  function Transition(j: Job, s: Status): Job {
    if Allowed(j.status, s) then j.(status := s) else j.(failed := true)
  }

  /** job_enter_cond_locked does nothing. */
  predicate Deaf(c: Co) {
    c.pos.NoCo? || c.deferred || c.busy
  }

  /** job_enter_cond_locked: a wake is only right while the coroutine is in job_do_yield. */
  function Enter(j: Job): Job {
    if Deaf(j.co) then j
    else if j.co.pos.Yielded? then j.(co := j.co.(timer := false, busy := true, pos := Woken(j.co.pos.after)))
    else j.(failed := true)
  }

  /** job_pause_locked */
  function PauseJob(j: Job): Job {
    var k := j.(pauses := j.pauses.(count := j.pauses.count + 1));
    if k.co.paused then k else Enter(k)
  }

  /** job_resume_locked */
  function ResumeJob(j: Job): Job {
    if j.pauses.count <= 0 then j.(failed := true)
    else
      var k := j.(pauses := j.pauses.(count := j.pauses.count - 1));
      if k.pauses.count != 0 || k.co.timer then k else Enter(k)
  }

  /** The first check of job_pause_point_locked. */
  function PausePoint(j: Job): Job {
    j.(co := j.co.(pos := if j.pauses.count <= 0 || j.cancels.force then Driver else Pausing))
  }

  /** job_pause_point_locked after the driver's pause callback. */
  function PauseHere(j: Job): Job {
    if j.pauses.count > 0 && !j.cancels.force then
      Transition(j, if j.status.Ready? then Standby else Paused).(
        co := j.co.(paused := true, busy := false, pos := Yielded(ThenUnpause(j.status))))
    else j.(co := j.co.(pos := Driver))
  }

  /** job_yield and job_sleep_ns */
  function YieldHere(j: Job, sleep: bool): Job {
    if !j.co.busy then j.(failed := true)
    else if j.cancels.force then j
    else if j.pauses.count <= 0 then j.(co := j.co.(busy := false, timer := sleep, pos := Yielded(ThenCheck)))
    else PausePoint(j)
  }

  /** The end of job_do_yield_locked and what follows it. */
  function Continue(j: Job): Job
    requires j.co.pos.Woken?
  {
    if !j.co.busy then j.(failed := true)
    else match j.co.pos.after
      case ThenCheck => PausePoint(j)
      case ThenUnpause(s) => Transition(j, s).(co := j.co.(paused := false, pos := Driver))
  }

  /** job_start */
  function StartJob(j: Job): Job {
    if !j.co.pos.NoCo? || !j.co.paused then j.(failed := true)
    else
      Transition(j, Running).(co := j.co.(pos := Start, busy := true, paused := false),
                              pauses := j.pauses.(count := j.pauses.count - 1))
  }

  /** job_transition_to_ready */
  function MakeReady(j: Job): Job {
    Transition(j, Ready).(readied := true)
  }

  /** The end of job_co_entry. */
  function Finish(j: Job, ret: int): Job {
    j.(co := j.co.(pos := Ended, deferred := true, busy := true), result := j.result.(ret := ret))
  }

  /** block_job_iostatus_set_err_locked */
  function FailIo(j: Job): Job {
    j.(pauses := j.pauses.(ioFailed := true))
  }

  /** block_job_error_action when the action is to stop. */
  function StopOnError(j: Job): Job {
    if j.pauses.user then FailIo(j)
    else
      var k := PauseJob(j);
      FailIo(k.(pauses := k.pauses.(user := true)))
  }

  /** block_job_iostatus_reset_locked */
  function ResetIo(j: Job): Job {
    if !j.pauses.ioFailed then j
    else if j.pauses.user && j.pauses.count > 0 then j.(pauses := j.pauses.(ioFailed := false))
    else j.(failed := true)
  }

  /** job_user_pause_locked */
  function UserPause(j: Job): Job {
    if Accepts(j.status, Pause) && !j.pauses.user then PauseJob(j.(pauses := j.pauses.(user := true))) else j
  }

  /** job_user_resume_locked goes on to the driver's callback. */
  predicate MayResume(j: Job) {
    j.pauses.user && j.pauses.count > 0 && Accepts(j.status, Resume)
  }

  /** job_user_resume_locked after the driver's callback. */
  function UserResume(j: Job): Job {
    ResumeJob(j.(pauses := j.pauses.(user := false)))
  }

  /** The end of a user's pause in job_cancel_async_locked, after the driver's callback. */
  function DropUserPause(j: Job): Job {
    if !j.pauses.user then j
    else if j.pauses.count <= 0 then j.(failed := true)
    else j.(pauses := j.pauses.(user := false, count := j.pauses.count - 1))
  }

  /**
   job_cancel_async_locked without the callback that ends a user's pause; `force` is
   what the driver's cancel callback made of the request.
   */
  function CancelAsync(j: Job, force: bool): Job {
    var k := DropUserPause(j);
    if force || !k.co.deferred then k.(cancels := Cancels(true, k.cancels.force || force)) else k
  }

  /** job_update_rc_locked */
  function UpdateRc(j: Job): Job {
    var ret := if j.result.ret == 0 && j.cancels.force then -ECANCELED else j.result.ret;
    if ret != 0 then Transition(j.(result := j.result.(ret := ret)), Aborting) else j
  }

  /** job_unref_locked */
  function Unref(j: Job): Job {
    var k := j.(refs := j.refs.(count := j.refs.count - 1));
    if k.refs.count != 0 then k
    else if k.status.Null? && !k.co.timer && !k.result.inTxn then k.(refs := k.refs.(freed := true))
    else k.(failed := true)
  }

  /** job_do_dismiss_locked */
  function DismissJob(j: Job): Job {
    var k := j.(co := j.co.(busy := false, paused := false, deferred := true), result := j.result.(inTxn := false));
    Unref(Transition(k, Null))
  }

  /** job_conclude_locked */
  function Conclude(j: Job): Job {
    var k := Transition(j, Concluded);
    if k.options.autoDismiss || k.co.pos.NoCo? then DismissJob(k) else k
  }

  /** The callbacks of job_finalize_single_locked, after which the job leaves its group. */
  function Finalized(r: Result): Result {
    Result(r.ret, false, r.events + [if r.ret == 0 then Commit else Abort, Clean])
  }

  /** job_finalize_single_locked */
  function FinalizeSingle(j: Job): Job {
    if !Completed(j.status) then j.(failed := true)
    else
      var k := UpdateRc(j);
      Conclude(k.(result := Finalized(k.result)))
  }

  // ------------------------------------------------------------ invariant

  predicate Unpausing(p: Pos) {
    (p.Yielded? || p.Woken?) && p.after.ThenUnpause?
  }

  /** The status that goes with a place of the coroutine. */
  predicate StatusFits(p: Pos, s: Status) {
    match p
    case NoCo => s.Created? || s.Aborting? || s.Null?
    case Start => s.Running?
    case Exited => Completed(s)
    case _ =>
      if Unpausing(p) then (p.after.status.Running? && s.Paused?) || (p.after.status.Ready? && s.Standby?)
      else s.Running? || s.Ready?
  }

  /** busy says that the coroutine runs or is about to; paused and deferred follow the coroutine, too. */
  predicate CoFits(c: Co, s: Status) {
    && StatusFits(c.pos, s)
    && (c.busy <==> c.pos.Start? || c.pos.Driver? || c.pos.Pausing? || c.pos.Woken? || c.pos.Ended?)
    && (c.paused <==> Unpausing(c.pos) || (c.pos.NoCo? && !s.Null?))
    && (c.deferred <==> c.pos.Ended? || c.pos.Exited? || s.Null?)
    && (c.timer ==> c.pos == Yielded(ThenCheck))
  }

  /** Every pause has a reason that is still there. */
  predicate PausesFit(p: Pauses, started: bool) {
    p.count == (if started then 0 else 1) + (if p.user then 1 else 0) + p.drains
  }

  /** The result, the callbacks called so far, and membership in the group. */
  predicate ResultFits(r: Result, p: Pos, s: Status) {
    && (r.ret != 0 ==> p.Ended? || Completed(s))
    && (s.Waiting? || s.Pending? ==> r.ret == 0)
    && (s.Aborting? ==> r.ret != 0)
    && (r.inTxn <==> !s.Concluded? && !s.Null?)
    && (r.inTxn ==> r.events == [])
    && (s.Concluded? ==> r.events != [])
    && (r.events != [] ==> r.events == [if r.ret == 0 then Commit else Abort, Clean])
    && (!r.inTxn && r.events == [] ==> p.NoCo? && r.ret == 0)
  }

  predicate RefsFit(r: Refs, s: Status) {
    && r.count == r.pins + (if s.Null? then 0 else 1)
    && (r.freed <==> s.Null? && r.pins == 0)
  }

  /** A job sleeps in its pause point only while a pause counts, or after a forced cancel. */
  predicate PausedForReason(j: Job) {
    j.co.pos.Yielded? && j.co.pos.after.ThenUnpause? ==> j.pauses.count > 0 || j.cancels.force
  }

  predicate JobInv(j: Job) {
    JobFits(j) && PausedForReason(j)
  }

  predicate JobFits(j: Job) {
    && !j.failed && CoFits(j.co, j.status) && PausesFit(j.pauses, !j.co.pos.NoCo?)
    && ResultFits(j.result, j.co.pos, j.status) && RefsFit(j.refs, j.status)
    && (j.cancels.force ==> j.cancels.asked) && (j.status.Ready? || j.status.Standby? ==> j.readied)
  }
}
