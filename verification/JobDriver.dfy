/**
 A group of two jobs in which the prepare callback of one fails while the other
 drives finalisation: the failing job aborts, the driving job commits.
 */
module JobDriver {
  import opened Common
  import opened JobState
  import opened JobRun

  function Two(a: Job, b: Job): Group {
    Group(map[0 := a, 1 := b], false, NoCause, Free)
  }

  function Fresh(): Job {
    NewJob(Options(true, false))
  }

  function At(s: Status, pos: Pos, busy: bool, deferred: bool): Job {
    Job(s, Co(pos, busy, false, deferred, false), Pauses(0, false, 0, false), Cancels(false, false),
        Result(0, true, []), Refs(1, 0, false), Options(true, false), false, false)
  }

  function Started(): Job { At(Running, Start, true, false) }
  function InDriver(): Job { At(Running, Driver, true, false) }
  function Returned(): Job { At(Running, Ended, true, true) }
  function Waits(): Job { At(Waiting, Exited, false, true) }
  function Pends(): Job { At(Pending, Exited, false, true) }
  function Spoilt(): Job { Pends().(status := Aborting, result := Result(-5, true, [])) }
  function FailedPrepare(): Job { Spoilt().(cancels := Cancels(true, true)) }

  /** The second job has begun to abort the group and still has to cancel the first. */
  function Aborts(): Group {
    Aborted(Spoilt(), Pends()).(main := Sweeping({0}, None))
  }

  function Aborted(a: Job, b: Job): Group {
    Group(map[0 := a, 1 := b], true, ByPrepare(1, 0), Free)
  }

  function Committed(): Job { Pends().(status := Concluded, result := Result(0, false, [Commit, Clean])) }
  function Given(): Job { FailedPrepare().(status := Concluded, result := Result(-5, false, [Abort, Clean])) }

  const FAILS: Prepares := PrepareFails({}, 0, -5)

  /** Job i of the group is as given. */
  function With(i: JobId, j: Job, other: Job): Group {
    if i == 0 then Two(j, other) else Two(other, j)
  }

  lemma Starts(i: JobId, other: Job)
    requires i == 0 || i == 1
    ensures Guard(With(i, Fresh(), other), i, ActStart) &&
      Step(With(i, Fresh(), other), i, ActStart) == With(i, Started(), other)
  {
  }

  lemma Enters(i: JobId, other: Job)
    requires i == 0 || i == 1
    ensures Guard(With(i, Started(), other), i, ActPausePoint)
    ensures Step(With(i, Started(), other), i, ActPausePoint) == With(i, InDriver(), other)
  {
  }

  lemma Returns(i: JobId, other: Job)
    requires i == 0 || i == 1
    ensures Guard(With(i, InDriver(), other), i, ActFinish(0))
    ensures Step(With(i, InDriver(), other), i, ActFinish(0)) == With(i, Returned(), other)
  {
  }

  lemma FirstExits()
    ensures Guard(Two(Returned(), Fresh()), 0, ActExit(AllPrepared))
    ensures Step(Two(Returned(), Fresh()), 0, ActExit(AllPrepared)) == Two(Waits(), Fresh())
  {
    var g := Two(Returned(), Fresh());
    var e := Returned().(co := Returned().co.(busy := false, pos := Exited));
    assert UpdateRc(Assert(e, e.result.inTxn && !Completed(e.status))) == e;
    assert Transition(e, Waiting) == Waits();
    var g1 := Put(Put(Put(g, 0, e), 0, e), 0, Waits());
    assert g1 == Two(Waits(), Fresh());
    assert !AllCompleted(g1) by { assert 1 in g1.jobs && g1.jobs[1].result.inTxn; }
  }

  lemma SecondMayExit()
    ensures Guard(Two(Waits(), Returned()), 1, ActExit(FAILS))
  {
  }

  lemma SecondExits()
    ensures Guard(Two(Waits(), Returned()), 1, ActExit(FAILS))
    ensures Step(Two(Waits(), Returned()), 1, ActExit(FAILS)) == Aborts()
  {
    hide TxnSuccess, CompletedJob, Waits, Aborts, Guard;
    var e := Returned().(co := Returned().co.(busy := false, pos := Exited));
    SecondMayExit();
    BothDone(e);
    CompletesWell(Two(Waits(), e), 1, FAILS);
    assert Put(Two(Waits(), Returned()), 1, e) == Two(Waits(), e);
  }

  lemma CompletesWell(g: Group, i: JobId, p: Prepares)
    requires i in g.jobs && g.jobs[i].result == Result(0, true, []) && !Completed(g.jobs[i].status) &&
      !g.jobs[i].cancels.force
    ensures CompletedJob(g, i, p) == TxnSuccess(g, i, p)
  {
    assert Put(g, i, g.jobs[i]) == g;
    assert UpdateRc(Assert(g.jobs[i], true)) == g.jobs[i];
    hide TxnSuccess, TxnAbort;
  }

  lemma BothDone(e: Job)
    requires e == Returned().(co := Returned().co.(busy := false, pos := Exited))
    ensures TxnSuccess(Two(Waits(), e), 1, FAILS) == Aborts()
  {
    assert Transition(e, Waiting) == Waits();
    assert Put(Two(Waits(), e), 1, Waits()) == Two(Waits(), Waits());
    assert ToPending(Two(Waits(), Waits())) == Two(Pends(), Pends());
    hide DoFinalize;
    PrepareFailsHere(Two(Pends(), Pends()));
  }

  lemma PrepareFailsHere(g: Group)
    requires g == Two(Pends(), Pends())
    ensures DoFinalize(g, 1, FAILS) == Aborts()
  {
    var h := Two(Spoilt(), Pends());
    assert Prepared(g, FAILS) == h;
    assert Members(h) - {1} == {0};
  }

  lemma FirstIsCancelled()
    ensures Guard(Aborts(), 0, ActSweep) && Step(Aborts(), 0, ActSweep) == Aborted(FailedPrepare(), Pends())
  {
    assert CancelAsync(Spoilt(), true) == FailedPrepare();
    assert Aborts().main.todo - {0} == {};
    assert SweepOne(Aborts(), 0).jobs == Aborted(FailedPrepare(), Pends()).jobs;
  }

  lemma SecondEnds()
    ensures Guard(Aborted(FailedPrepare(), Pends()), 1, ActAbortNext)
    ensures Step(Aborted(FailedPrepare(), Pends()), 1, ActAbortNext) == Aborted(FailedPrepare(), Committed())
  {
    assert FinalizeSingle(Pends()) == Committed();
  }

  lemma FirstEnds()
    ensures Guard(Aborted(FailedPrepare(), Committed()), 0, ActAbortNext)
    ensures Step(Aborted(FailedPrepare(), Committed()), 0, ActAbortNext) == Aborted(Given(), Committed())
  {
    assert FinalizeSingle(FailedPrepare()) == Given();
  }

  function TheRun(): seq<Group> {
    [Two(Fresh(), Fresh()), Two(Started(), Fresh()), Two(InDriver(), Fresh()), Two(Returned(), Fresh()),
     Two(Waits(), Fresh()),
     Two(Waits(), Started()), Two(Waits(), InDriver()), Two(Waits(), Returned()),
     Aborts(), Aborted(FailedPrepare(), Pends()), Aborted(FailedPrepare(), Committed()), Aborted(Given(), Committed())]
  }

  function TheActs(): seq<(JobId, Act)> {
    [(0, ActStart), (0, ActPausePoint), (0, ActFinish(0)), (0, ActExit(AllPrepared)),
     (1, ActStart), (1, ActPausePoint), (1, ActFinish(0)), (1, ActExit(FAILS)), (0, ActSweep), (1, ActAbortNext),
     (0, ActAbortNext)]
  }

  lemma FirstHalf(k: nat)
    requires k < 4
    ensures StepAt(TheRun(), TheActs(), k)
  {
    hide Guard, Step, Fresh, Started, InDriver, Returned, Waits, Pends, FailedPrepare, Committed, Given, Two, Aborted,
      Aborts;
    Starts(0, Fresh());
    Enters(0, Fresh());
    Returns(0, Fresh());
    FirstExits();
  }

  lemma SecondHalf(k: nat)
    requires 4 <= k < 11
    ensures StepAt(TheRun(), TheActs(), k)
  {
    hide Guard, Step, Fresh, Started, InDriver, Returned, Waits, Pends, FailedPrepare, Committed, Given, Two, Aborted,
      Aborts;
    Starts(1, Waits());
    Enters(1, Waits());
    Returns(1, Waits());
    SecondExits();
    FirstIsCancelled();
    SecondEnds();
    FirstEnds();
  }

  lemma HowItEnds()
    ensures var g := TheRun()[11];
      Members(g) == {} && g.jobs[0].result.events == [Abort, Clean] && g.jobs[1].result.events == [Commit, Clean]
  {
  }

  /** A transaction in which one member aborts and the other commits. */
  lemma DriverCommits()
    ensures Run(TheRun(), TheActs())
    ensures var g := TheRun()[11];
      Members(g) == {} && g.jobs[0].result.events == [Abort, Clean] && g.jobs[1].result.events == [Commit, Clean]
  {
    HowItEnds();
    assert Init(TheRun()[0]);
    hide StepAt;
    forall k | 0 <= k < |TheActs()| ensures StepAt(TheRun(), TheActs(), k) {
      if k < 4 { FirstHalf(k); } else { SecondHalf(k); }
    }
  }
}
