/**
 Short runs: an error is lost in a resume and in a cancel, a cancel lets a drained job
 into its driver's code, and a second cancel trips an assertion.
 */
module JobRuns {
  import opened Common
  import opened JobState
  import opened JobRun
  import opened JobOutcome
  import opened JobDriver
  import opened JobWindow
  import opened JobDrain

  function One(j: Job, m: Main): Group {
    Group(map[0 := j], false, NoCause, m)
  }

  /** A job in its driver's code. */
  function Held(p: Pauses): Job {
    InDriver().(pauses := p)
  }

  const STOPPED := Pauses(1, true, 0, true)
  const RESET := Pauses(1, true, 0, false)
  const FORGOTTEN := Pauses(0, false, 0, true)
  const DRAINED := Pauses(1, false, 1, false)

  /** The job goes from one value to another by a step of its own. */
  predicate Moves(j: Job, a: Act, k: Job) {
    !j.refs.freed && LocalGuard(j, a) && LocalStep(j, a) == k
  }

  lemma OneMoves(j: Job, a: Act, k: Job, m: Main)
    requires Moves(j, a, k) && (AnyThread(a) || m.Free?)
    ensures Guard(One(j, m), 0, a) && Step(One(j, m), 0, a) == One(k, m)
  {
    hide LocalStep;
    assert map[0 := j][0 := LocalStep(j, a)] == map[0 := k];
  }

  lemma Begins()
    ensures Moves(Fresh(), ActStart, Started()) && Moves(Started(), ActPausePoint, InDriver())
    ensures Moves(InDriver(), ActError, Held(STOPPED)) && Moves(Held(RESET), ActError, Held(STOPPED))
  {
  }

  // --------------------------------------------------- a resume and a cancel

  function LostByResume(): seq<Group> {
    [One(Fresh(), Free), One(Started(), Free), One(InDriver(), Free), One(Held(STOPPED), Free),
     One(Held(RESET), Resuming(0)), One(Held(STOPPED), Resuming(0)), One(Held(FORGOTTEN), Free)]
  }

  function ResumeActs(): seq<(JobId, Act)> {
    [(0, ActStart), (0, ActPausePoint), (0, ActError), (0, ActResumeBegin), (0, ActError), (0, ActResumeEnd)]
  }

  lemma ResumesStopped()
    ensures Guard(One(Held(STOPPED), Free), 0, ActResumeBegin)
    ensures Step(One(Held(STOPPED), Free), 0, ActResumeBegin) == One(Held(RESET), Resuming(0))
    ensures Guard(One(Held(STOPPED), Resuming(0)), 0, ActResumeEnd)
    ensures Step(One(Held(STOPPED), Resuming(0)), 0, ActResumeEnd) == One(Held(FORGOTTEN), Free)
  {
    assert ResetIo(Held(STOPPED)) == Held(RESET) && UserResume(Held(STOPPED)) == Held(FORGOTTEN);
    assert map[0 := Held(STOPPED)][0 := Held(RESET)] == map[0 := Held(RESET)];
    assert map[0 := Held(STOPPED)][0 := Held(FORGOTTEN)] == map[0 := Held(FORGOTTEN)];
  }

  lemma ResumeSteps(k: nat)
    requires k < 6
    ensures StepAt(LostByResume(), ResumeActs(), k)
  {
    Begins();
    ResumesStopped();
    hide Fresh, Started, InDriver, Held, One, Moves, Guard, Step;
    OneMoves(Fresh(), ActStart, Started(), Free);
    OneMoves(Started(), ActPausePoint, InDriver(), Free);
    OneMoves(InDriver(), ActError, Held(STOPPED), Free);
    OneMoves(Held(RESET), ActError, Held(STOPPED), Resuming(0));
  }

  /** A run in which a resume loses the error that the job stopped for. */
  lemma ResumeLoses()
    ensures Run(LostByResume(), ResumeActs()) && Lost(LostByResume()[6].jobs[0])
  {
    assert Init(LostByResume()[0]) && Lost(LostByResume()[6].jobs[0]);
    hide StepAt, Init, Lost;
    forall k | 0 <= k < |ResumeActs()| ensures StepAt(LostByResume(), ResumeActs(), k) { ResumeSteps(k); }
  }

  function Cancelled(): Job {
    Held(FORGOTTEN).(cancels := Cancels(true, false))
  }

  function LostByCancel(): seq<Group> {
    [One(Fresh(), Free), One(Started(), Free), One(InDriver(), Free), One(Held(STOPPED), Free),
     One(Held(RESET), Cancelling(0, false)), One(Held(STOPPED), Cancelling(0, false)), One(Cancelled(), Free)]
  }

  function CancelActs(): seq<(JobId, Act)> {
    [(0, ActStart), (0, ActPausePoint), (0, ActError), (0, ActCancelBegin(false)), (0, ActError), (0, ActCancelEnd)]
  }

  lemma CancelsStopped()
    ensures Guard(One(Held(STOPPED), Free), 0, ActCancelBegin(false))
    ensures Step(One(Held(STOPPED), Free), 0, ActCancelBegin(false)) == One(Held(RESET), Cancelling(0, false))
    ensures Guard(One(Held(STOPPED), Cancelling(0, false)), 0, ActCancelEnd)
    ensures Step(One(Held(STOPPED), Cancelling(0, false)), 0, ActCancelEnd) == One(Cancelled(), Free)
  {
    assert ResetIo(Held(STOPPED)) == Held(RESET) &&
      CancelAsync(Held(STOPPED), false) == Cancelled() == Enter(Cancelled());
    assert map[0 := Held(STOPPED)][0 := Held(RESET)] == map[0 := Held(RESET)];
    assert map[0 := Held(STOPPED)][0 := Cancelled()] == map[0 := Cancelled()];
    hide CompletedJob;
  }

  lemma CancelSteps(k: nat)
    requires k < 6
    ensures StepAt(LostByCancel(), CancelActs(), k)
  {
    Begins();
    CancelsStopped();
    hide Fresh, Started, InDriver, Held, Cancelled, One, Moves, Guard, Step;
    OneMoves(Fresh(), ActStart, Started(), Free);
    OneMoves(Started(), ActPausePoint, InDriver(), Free);
    OneMoves(InDriver(), ActError, Held(STOPPED), Free);
    OneMoves(Held(RESET), ActError, Held(STOPPED), Cancelling(0, false));
  }

  /** A run in which a cancel loses the error that the job stopped for. */
  lemma CancelLoses()
    ensures Run(LostByCancel(), CancelActs()) && Lost(LostByCancel()[6].jobs[0])
  {
    assert Init(LostByCancel()[0]) && Lost(LostByCancel()[6].jobs[0]);
    hide StepAt, Init, Lost;
    forall k | 0 <= k < |CancelActs()| ensures StepAt(LostByCancel(), CancelActs(), k) { CancelSteps(k); }
  }

  // ------------------------------------------------------ a drained section

  function GoesToPause(): Job {
    Held(DRAINED).(co := Co(Pausing, true, false, false, false))
  }

  function Sleeps(): Job {
    Held(DRAINED).(status := Paused, co := Co(Yielded(ThenUnpause(Running)), false, true, false, false))
  }

  function WokenUp(): Job {
    Sleeps().(co := Co(Woken(ThenUnpause(Running)), true, true, false, false), cancels := Cancels(true, false))
  }

  function RunsOn(): Job {
    Held(DRAINED).(cancels := Cancels(true, false))
  }

  function DrainedAndCancelled(): seq<Group> {
    [One(Fresh(), Free), One(Started(), Free), One(InDriver(), Free), One(Held(DRAINED), Free),
     One(GoesToPause(), Free),
     One(Sleeps(), Free), One(WokenUp(), Free), One(RunsOn(), Free)]
  }

  function DrainActs(): seq<(JobId, Act)> {
    [(0, ActStart), (0, ActPausePoint), (0, ActDrainBegin), (0, ActPausePoint), (0, ActPauseHere),
     (0, ActCancel(false)),
     (0, ActContinue)]
  }

  lemma GoesToSleep()
    ensures Moves(InDriver(), ActDrainBegin, Held(DRAINED)) && Moves(Held(DRAINED), ActPausePoint, GoesToPause())
    ensures Moves(GoesToPause(), ActPauseHere, Sleeps()) && Moves(WokenUp(), ActContinue, RunsOn())
  {
  }

  lemma CancelWakes()
    ensures Guard(One(Sleeps(), Free), 0, ActCancel(false))
    ensures Step(One(Sleeps(), Free), 0, ActCancel(false)) == One(WokenUp(), Free)
  {
    assert Enter(CancelAsync(Sleeps(), false)) == WokenUp();
    assert map[0 := Sleeps()][0 := WokenUp()] == map[0 := WokenUp()];
    hide CompletedJob;
  }

  lemma FallsAsleep()
    ensures forall k :: 0 <= k < 5 ==> StepAt(DrainedAndCancelled(), DrainActs(), k)
  {
    Begins();
    GoesToSleep();
    hide Fresh, Started, InDriver, Held, GoesToPause, Sleeps, WokenUp, RunsOn, One, Moves, Guard, Step;
    OneMoves(Fresh(), ActStart, Started(), Free);
    OneMoves(Started(), ActPausePoint, InDriver(), Free);
    OneMoves(InDriver(), ActDrainBegin, Held(DRAINED), Free);
    OneMoves(Held(DRAINED), ActPausePoint, GoesToPause(), Free);
    OneMoves(GoesToPause(), ActPauseHere, Sleeps(), Free);
  }

  lemma RunsAgain()
    ensures StepAt(DrainedAndCancelled(), DrainActs(), 5) && StepAt(DrainedAndCancelled(), DrainActs(), 6)
  {
    CancelWakes();
    GoesToSleep();
    hide Fresh, Started, InDriver, Held, GoesToPause, Sleeps, WokenUp, RunsOn, One, Moves, Guard, Step;
    OneMoves(WokenUp(), ActContinue, RunsOn(), Free);
  }

  lemma DrainedStates()
    ensures Drained(Sleeps()) && Silent(Sleeps()) && Drained(WokenUp()) && !Silent(WokenUp())
    ensures Drained(RunsOn()) && RunsOn().co.pos.Driver?
  {
  }

  /** A run in which a cancel lets a job into its driver's code although its nodes are drained. */
  lemma CancelBreaksDrain()
    ensures Run(DrainedAndCancelled(), DrainActs())
    ensures var s := DrainedAndCancelled()[5].jobs[0]; Drained(s) && Silent(s)
    ensures var s := DrainedAndCancelled()[7].jobs[0]; Drained(s) && s.co.pos.Driver?
  {
    DrainedStates();
    assert Init(DrainedAndCancelled()[0]);
    assert DrainedAndCancelled()[5].jobs[0] == Sleeps() && DrainedAndCancelled()[7].jobs[0] == RunsOn();
    hide StepAt, Init, Silent, Drained;
    FallsAsleep();
    RunsAgain();
  }

  // ------------------------------------- a forced cancel in a drained section

  function Yields(): Job {
    InDriver().(co := Co(Yielded(ThenCheck), false, false, false, false))
  }

  /** The drained section wakes the job, which is to meet a pause point. */
  function Checks(): Job {
    Held(DRAINED).(co := Co(Woken(ThenCheck), true, false, false, false))
  }

  function Forced(j: Job): Job {
    j.(cancels := Cancels(true, true))
  }

  function DrainedAndForced(): seq<Group> {
    [One(Fresh(), Free), One(Started(), Free), One(InDriver(), Free), One(Yields(), Free), One(Checks(), Free),
     One(Forced(Checks()), Free), One(Forced(Held(DRAINED)), Free)]
  }

  function ForceActs(): seq<(JobId, Act)> {
    [(0, ActStart), (0, ActPausePoint), (0, ActYield(false)), (0, ActDrainBegin), (0, ActCancel(true)),
     (0, ActContinue)]
  }

  lemma WalksThrough()
    ensures Moves(InDriver(), ActYield(false), Yields()) && Moves(Yields(), ActDrainBegin, Checks())
    ensures Moves(Forced(Checks()), ActContinue, Forced(Held(DRAINED)))
  {
  }

  lemma ForceCancels()
    ensures Guard(One(Checks(), Free), 0, ActCancel(true))
    ensures Step(One(Checks(), Free), 0, ActCancel(true)) == One(Forced(Checks()), Free)
  {
    assert Enter(CancelAsync(Checks(), true)) == Forced(Checks());
    assert map[0 := Checks()][0 := Forced(Checks())] == map[0 := Forced(Checks())];
    hide CompletedJob;
  }

  lemma ForceSteps(k: nat)
    requires k < 6
    ensures StepAt(DrainedAndForced(), ForceActs(), k)
  {
    Begins();
    WalksThrough();
    ForceCancels();
    hide Fresh, Started, InDriver, Held, Yields, Checks, Forced, One, Moves, Guard, Step;
    OneMoves(Fresh(), ActStart, Started(), Free);
    OneMoves(Started(), ActPausePoint, InDriver(), Free);
    OneMoves(InDriver(), ActYield(false), Yields(), Free);
    OneMoves(Yields(), ActDrainBegin, Checks(), Free);
    OneMoves(Forced(Checks()), ActContinue, Forced(Held(DRAINED)), Free);
  }

  /** A run in which a job that is idle when it is drained gets into its driver's code because of a forced cancel. */
  lemma ForceBreaksDrain()
    ensures Run(DrainedAndForced(), ForceActs()) && !DrainedAndForced()[3].jobs[0].co.busy
    ensures var s := DrainedAndForced()[4].jobs[0]; Drained(s) && Silent(s)
    ensures var s := DrainedAndForced()[6].jobs[0]; Drained(s) && s.co.pos.Driver?
  {
    assert Drained(Checks()) && Silent(Checks()) && Drained(Forced(Held(DRAINED))) && !Yields().co.busy;
    assert Init(DrainedAndForced()[0]);
    hide StepAt, Init, Silent, Drained;
    forall k | 0 <= k < |ForceActs()| ensures StepAt(DrainedAndForced(), ForceActs(), k) { ForceSteps(k); }
  }

  // -------------------------------------------- a second cancel of a new job

  /** A job that was cancelled before it started. */
  function NeverStarted(): Job {
    Fresh().(status := Aborting, cancels := Cancels(true, true), result := Result(-ECANCELED, true, []))
  }

  function Aborting2(a: Job, m: Main): Group {
    Group(map[0 := a, 1 := NeverStarted()], true, ByCompletion(1), m)
  }

  function CancelledBefore(): seq<Group> {
    [Two(Fresh(), Fresh()), Two(Started(), Fresh()), Aborting2(Started(), Sweeping({0}, None)),
     Aborting2(Forced(Started()), Free)]
  }

  function BeforeActs(): seq<(JobId, Act)> {
    [(0, ActStart), (1, ActCancel(true)), (0, ActSweep)]
  }

  lemma CancelsFresh()
    ensures Guard(Two(Started(), Fresh()), 1, ActCancel(true))
    ensures Step(Two(Started(), Fresh()), 1, ActCancel(true)) == Aborting2(Started(), Sweeping({0}, None))
  {
    var j := CancelAsync(Fresh(), true);
    assert UpdateRc(Assert(j, j.result.inTxn && !Completed(j.status))) == NeverStarted();
    var g := Two(Started(), NeverStarted());
    assert Put(Put(Two(Started(), Fresh()), 1, j), 1, NeverStarted()) == g;
    assert Members(g) - {1} == {0};
    hide TxnSuccess;
  }

  lemma SweepsStarted()
    ensures Guard(Aborting2(Started(), Sweeping({0}, None)), 0, ActSweep)
    ensures Step(Aborting2(Started(), Sweeping({0}, None)), 0, ActSweep) == Aborting2(Forced(Started()), Free)
  {
    var g := Aborting2(Started(), Sweeping({0}, None));
    assert CancelAsync(Started(), true) == Forced(Started());
    assert g.main.todo - {0} == {};
    assert SweepOne(g, 0).jobs == Aborting2(Forced(Started()), Free).jobs;
  }

  /**
   A run to a state in which the group waits for its first job and the second one, which
   was cancelled before it started, is still a member: cancelling it again trips the
   assertion in job_completed_locked.
   */
  lemma SecondCancelAsserts()
    ensures Run(CancelledBefore(), BeforeActs())
    ensures var g := CancelledBefore()[3];
      && g.main.Free? && 1 in g.jobs && g.jobs[1].co.pos.NoCo? && g.jobs[1].status.Aborting? && g.jobs[1].result.inTxn
      && 1 in CancelStep(g, 1, true).jobs && CancelStep(g, 1, true).jobs[1].failed
  {
    Starts(0, Fresh());
    CancelsFresh();
    SweepsStarted();
    assert Init(CancelledBefore()[0]);
    var g := CancelledBefore()[3];
    assert g.jobs[1] == NeverStarted();
    hide Guard, Step, Init, GroupInv, CancelStep;
    assert Run(CancelledBefore(), BeforeActs());
    RunInv(CancelledBefore(), BeforeActs(), 3);
    CancelAssertsIff(g, 1, true);
  }
}
