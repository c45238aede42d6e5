/**
 No group of jobs is ever stuck (job.c): from every state that a run can reach, the
 group can be brought to its end.
 */
module JobFinish {
  import opened JobState
  import opened JobRun
  import opened JobOutcome
  import opened JobWindow
  import opened JobPrepare
  import opened JobEffects

  /** A status of a job that has not left its group. */
  predicate Inside(s: Status) {
    !s.Concluded? && !s.Null?
  }

  /** A status of a member that has not completed. */
  predicate Busy(s: Status) {
    Inside(s) && !Completed(s)
  }

  /** The members that have not completed. */
  function Open(g: Group): set<JobId> {
    set i | i in g.jobs && g.jobs[i].result.inTxn && !Completed(g.jobs[i].status)
  }

  // --------------------------------------------------------------- measure

  lemma {:induction false} LeastOf(s: set<JobId>) returns (m: JobId)
    requires s != {}
    ensures m in s && forall k :: k in s ==> m <= k
  {
    var x :| x in s;
    m := x;
    var rest := s - {x};
    if rest != {} {
      var y := LeastOf(rest);
      if y < x { m := y; }
    }
    forall k | k in s ensures m <= k { assert k == x || k in rest; }
  }

  lemma HasLeast(s: set<JobId>)
    requires s != {}
    ensures exists i :: i in s && forall k :: k in s ==> i <= k
  {
    var m := LeastOf(s);
  }

  /** The member that is brought to completion next. */
  ghost function Focus(s: set<JobId>): (i: JobId)
    requires s != {}
    ensures i in s
  {
    HasLeast(s);
    var i :| i in s && forall k :: k in s ==> i <= k;
    i
  }

  /** How far a coroutine is from its end. */
  function Togo(p: Pos): nat {
    match p
    case NoCo => 9
    case Driver => 2
    case Ended => 1
    case Exited => 0
    case _ => 2 + Distance(p)
  }

  ghost function Remaining(g: Group): nat {
    if Open(g) == {} then 0
    else var i := Focus(Open(g)); Togo(g.jobs[i].co.pos)
  }

  /** What the main thread has to do before it is free; a forced cancel of a job that is done leads on to an abort. */
  function Errand(g: Group): nat {
    match g.main
    case Free => 2
    case Resuming(_) => 3
    case Cancelling(i, force) => if force && !g.aborting && i in g.jobs && g.jobs[i].co.deferred then 1 else 3
    case Sweeping(todo, at) => 2 + 2 * |todo| - if at.Some? && todo != {} then 1 else 0
  }

  function Unaborted(g: Group): nat {
    if g.aborting then 0 else 1
  }

  /** h is closer to the end than g. */
  ghost predicate Closer(h: Group, g: Group) {
    || Unaborted(h) < Unaborted(g)
    || (Unaborted(h) == Unaborted(g) && |Members(h)| < |Members(g)|)
    || (Unaborted(h) == Unaborted(g) && Members(h) == Members(g) && |Open(h)| < |Open(g)|)
    || (Unaborted(h) == Unaborted(g) && Members(h) == Members(g) && Open(h) == Open(g) && Errand(h) < Errand(g))
    || (Unaborted(h) == Unaborted(g) && Members(h) == Members(g) && Open(h) == Open(g) && Errand(h) == Errand(g)
        && Remaining(h) < Remaining(g))
  }

  // ------------------------------------------------- members and their status

  lemma MemberIs(g: Group, i: JobId)
    requires GroupInv(g) && i in g.jobs
    ensures JobInv(g.jobs[i]) && (g.jobs[i].result.inTxn <==> Inside(g.jobs[i].status))
    ensures i in Members(g) <==> Inside(g.jobs[i].status)
    ensures i in Open(g) <==> Busy(g.jobs[i].status)
    ensures i in Members(g) ==> !g.jobs[i].refs.freed
  {
    assert JobInv(g.jobs[i]);
  }

  /** Nobody has left and nobody has completed. */
  ghost predicate Unchanged(g: Group, h: Group) {
    && h.jobs.Keys == g.jobs.Keys
    && forall i :: i in g.jobs ==>
         && (Inside(h.jobs[i].status) <==> Inside(g.jobs[i].status))
         && (Busy(h.jobs[i].status) <==> Busy(g.jobs[i].status))
  }

  lemma UnchangedSets(g: Group, h: Group)
    requires GroupInv(g) && GroupInv(h) && Unchanged(g, h)
    ensures Members(h) == Members(g) && Open(h) == Open(g)
  {
    hide GroupInv;
    forall i | i in g.jobs ensures (i in Members(h) <==> i in Members(g)) && (i in Open(h) <==> i in Open(g)) {
      hide Inside, Busy, Members, Open;
      MemberIs(g, i);
      MemberIs(h, i);
    }
    hide Unchanged, Inside, Busy, Completed;
  }

  lemma StepsOn(g: Group, d: JobId, a: Act)
    requires GroupInv(g) && Guard(g, d, a)
    ensures var h := Step(g, d, a); GroupInv(h) && h.jobs.Keys == g.jobs.Keys && Unaborted(h) <= Unaborted(g)
  {
    hide GroupInv, Guard, Step;
    StepKeeps(g, d, a);
    StepKeys(g, d, a);
    if g.aborting { CauseStays(g, d, a); }
  }

  lemma Subset(a: set<JobId>, b: set<JobId>)
    requires a <= b
    ensures |a| <= |b| && (a == b || |a| < |b|)
  {
    assert b == a + (b - a);
  }

  /** Nobody joins or goes back, and job i completes or leaves. */
  lemma ShrinksCloser(g: Group, h: Group, i: JobId)
    requires GroupInv(g) && GroupInv(h) && h.jobs.Keys == g.jobs.Keys && Unaborted(h) <= Unaborted(g)
    requires forall k :: k in g.jobs ==>
      (Inside(h.jobs[k].status) ==> Inside(g.jobs[k].status)) && (Busy(h.jobs[k].status) ==> Busy(g.jobs[k].status))
    requires i in g.jobs
    requires || (Inside(g.jobs[i].status) && !Inside(h.jobs[i].status))
             || (Busy(g.jobs[i].status) && !Busy(h.jobs[i].status))
    ensures Closer(h, g)
  {
    forall k | k in g.jobs ensures (k in Members(h) ==> k in Members(g)) && (k in Open(h) ==> k in Open(g)) {
      hide GroupInv, Inside, Busy, Members, Open;
      MemberIs(g, k);
      MemberIs(h, k);
    }
    MemberIs(g, i);
    MemberIs(h, i);
    hide GroupInv, Inside, Busy;
    assert Members(h) <= Members(g) && Open(h) <= Open(g);
    hide Members, Open, Errand, Remaining;
    Subset(Members(h), Members(g));
    Subset(Open(h), Open(g));
  }

  /** Nobody completes or leaves, and the main thread or the member in focus gets on. */
  lemma WorksCloser(g: Group, h: Group)
    requires GroupInv(g) && GroupInv(h) && Unchanged(g, h) && Unaborted(h) <= Unaborted(g)
    requires Errand(h) < Errand(g) || (Errand(h) == Errand(g) && Remaining(h) < Remaining(g))
    ensures Closer(h, g)
  {
    hide GroupInv, Members, Open, Errand, Remaining, Unchanged;
    UnchangedSets(g, h);
  }

  // ------------------------------------------------- bringing a member on

  /** The next step of a member on its way to completion. */
  function Onward(p: Pos): Act {
    if p.NoCo? then ActStart else if p.Driver? then ActFinish(0) else Approach(p)
  }

  lemma OnwardMoves(j: Job)
    requires JobInv(j) && Busy(j.status) && !j.co.pos.Ended?
    ensures var c := Onward(j.co.pos);
      LocalGuard(j, c) && Plain(c) && Busy(OwnStatus(j, c)) && Togo(Course(j, c)) < Togo(j.co.pos)
  {
  }

  lemma OnwardCloser(g: Group, i: JobId)
    requires GroupInv(g) && g.main.Free? && Open(g) != {} && i == Focus(Open(g)) && i in g.jobs
    requires !g.jobs[i].co.pos.Ended?
    ensures var c := Onward(g.jobs[i].co.pos); Guard(g, i, c) && Closer(Step(g, i, c), g)
  {
    var c := Onward(g.jobs[i].co.pos);
    MemberIs(g, i);
    assert i in Members(g);
    OnwardMoves(g.jobs[i]);
    assert Guard(g, i, c) by { hide GroupInv, JobInv, LocalGuard; OnwardLocal(g.jobs[i].co.pos); }
    var h := Step(g, i, c);
    assert h.main == g.main by { hide GroupInv, JobInv, LocalGuard, LocalStep; OnwardLocal(g.jobs[i].co.pos); }
    hide GroupInv, JobInv, LocalGuard, Guard, Step, Onward, Inside, Completed;
    StepsOn(g, i, c);
    forall k | k in g.jobs ensures Effect(g, i, c, h, k) { StepEffect(g, i, c, k); }
    OnwardUnchanged(g, i, c, h);
    UnchangedSets(g, h);
    hide Unchanged, Open;
    WorksCloser(g, h);
  }

  lemma OnwardLocal(p: Pos)
    ensures var c := Onward(p);
      c.ActStart? || c.ActFinish? || c.ActPausePoint? || c.ActPauseHere? || c.ActEnter? || c.ActContinue?
  {
  }

  lemma OnwardUnchanged(g: Group, i: JobId, c: Act, h: Group)
    requires i in g.jobs && Plain(c) && Busy(g.jobs[i].status) && Busy(OwnStatus(g.jobs[i], c))
    requires h.jobs.Keys == g.jobs.Keys && forall k :: k in g.jobs ==> Effect(g, i, c, h, k)
    ensures Unchanged(g, h)
  {
    forall k | k in g.jobs ensures h.jobs[k].status == if k == i then OwnStatus(g.jobs[i], c) else g.jobs[k].status {
      assert Effect(g, i, c, h, k);
      hide OwnStatus, NextStatus, NextReturn, Courses, Plain;
      PlainNext(g, i, c, k);
    }
    hide OwnStatus, Effect, Completed;
  }

  lemma NextIs(g: Group, d: JobId, a: Act, k: JobId)
    requires GroupInv(g) && Guard(g, d, a) && d in g.jobs && k in g.jobs
    ensures k in Step(g, d, a).jobs && Step(g, d, a).jobs[k].status == NextStatus(g, d, a, k)
  {
    hide GroupInv, Guard, Step, NextStatus, NextReturn, Courses;
    StepEffect(g, d, a, k);
  }

  /** What completion does to the status of a member if all prepare callbacks return 0. */
  lemma NextShrinks(g: Group, d: JobId, a: Act, k: JobId)
    requires d in g.jobs && k in g.jobs
    requires a == ActExit(AllPrepared) || a == ActAbortNext || a == ActFinalize(AllPrepared)
    requires Inside(g.jobs[d].status) && (g.jobs[k].result.inTxn <==> Inside(g.jobs[k].status))
    ensures var s, s' := g.jobs[k].status, NextStatus(g, d, a, k);
      && (Inside(s') ==> Inside(s)) && (k != d && Busy(s') ==> Busy(s))
      && (k == d && a.ActExit? && Inside(s) ==> !Busy(s')) && (k == d && a.ActAbortNext? ==> !Inside(s'))
      && (k == d && a.ActFinalize? && !g.aborting ==> !Inside(s'))
  {
    hide Returns, OthersCompleted, LastToComplete;
  }

  /** A step that completes a member, or takes it out of the group. */
  lemma CompletionCloser(g: Group, d: JobId, a: Act)
    requires GroupInv(g) && Guard(g, d, a) && d in g.jobs && Inside(g.jobs[d].status)
    requires || (a == ActExit(AllPrepared) && Busy(g.jobs[d].status)) || (a == ActAbortNext && !Busy(g.jobs[d].status))
             || (a == ActFinalize(AllPrepared) && !g.aborting && !Busy(g.jobs[d].status))
    ensures Closer(Step(g, d, a), g)
  {
    var h := Step(g, d, a);
    hide GroupInv, JobInv, Guard, Step, Inside, Busy, Members, Open, NextStatus, Closer;
    StepsOn(g, d, a);
    forall k | k in g.jobs
      ensures Inside(h.jobs[k].status) ==> Inside(g.jobs[k].status)
      ensures Busy(h.jobs[k].status) ==> Busy(g.jobs[k].status)
    {
      NextIs(g, d, a, k);
      MemberIs(g, k);
      NextShrinks(g, d, a, k);
      BusyInside(h.jobs[k].status);
    }
    NextIs(g, d, a, d);
    MemberIs(g, d);
    NextShrinks(g, d, a, d);
    ShrinksCloser(g, h, d);
  }

  lemma BusyInside(s: Status)
    ensures Busy(s) ==> Inside(s)
  {
  }

  lemma ExitCloser(g: Group, i: JobId)
    requires GroupInv(g) && g.main.Free? && i in g.jobs && Busy(g.jobs[i].status) && g.jobs[i].co.pos.Ended?
    ensures Guard(g, i, ActExit(AllPrepared)) && Closer(Step(g, i, ActExit(AllPrepared)), g)
  {
    MemberIs(g, i);
    assert i in Members(g);
    hide GroupInv, JobInv, Step, Closer;
    CompletionCloser(g, i, ActExit(AllPrepared));
  }

  lemma AbortNextCloser(g: Group, i: JobId)
    requires GroupInv(g) && g.main.Free? && g.aborting && i in Members(g) && i !in Open(g)
    ensures Guard(g, i, ActAbortNext) && Closer(Step(g, i, ActAbortNext), g)
  {
    MemberIs(g, i);
    hide GroupInv, JobInv, Step, Closer;
    CompletionCloser(g, i, ActAbortNext);
  }

  lemma FinalizeCloser(g: Group, i: JobId)
    requires GroupInv(g) && g.main.Free? && !g.aborting && i in g.jobs && g.jobs[i].status.Pending?
    ensures Guard(g, i, ActFinalize(AllPrepared)) && Closer(Step(g, i, ActFinalize(AllPrepared)), g)
  {
    MemberIs(g, i);
    assert i in Members(g);
    hide GroupInv, JobInv, Step, Closer;
    CompletionCloser(g, i, ActFinalize(AllPrepared));
  }

  // --------------------------------------------------------- the main thread

  /** A member that waits although all have completed: only a cancel helps. */
  lemma WaitingIs(g: Group, i: JobId)
    requires GroupInv(g) && !g.aborting && i in Members(g) && i !in Open(g) && !g.jobs[i].status.Pending?
    ensures i in g.jobs && JobInv(g.jobs[i]) && g.jobs[i].status.Waiting?
    ensures g.jobs[i].co.pos.Exited? && g.jobs[i].co.deferred && g.jobs[i].result.inTxn && !g.jobs[i].refs.freed
  {
    assert JobInv(g.jobs[i]) && GoodMember(g.jobs[i]);
  }

  lemma CancelAborts(g: Group, i: JobId)
    requires !g.aborting && i in g.jobs && JobInv(g.jobs[i]) && g.jobs[i].co.deferred && !g.jobs[i].co.pos.NoCo?
    requires g.jobs[i].result.inTxn
    ensures CancelStep(g, i, true).aborting
  {
    CancelSettles(g.jobs[i], true);
    CancelForces(g.jobs[i], true);
    hide JobInv, CancelAsync, Enter, CompletedJob;
  }

  lemma WaitingCancel(g: Group, i: JobId)
    requires GroupInv(g) && g.main.Free? && !g.aborting && i in Members(g) && i !in Open(g)
    requires !g.jobs[i].status.Pending? && !g.jobs[i].pauses.user
    ensures Guard(g, i, ActCancel(true)) && Closer(Step(g, i, ActCancel(true)), g)
  {
    WaitingIs(g, i);
    hide GroupInv, JobInv, CancelStep, Members, Open, Errand, Remaining;
    CancelAborts(g, i);
    assert Step(g, i, ActCancel(true)) == CancelStep(g, i, true);
  }

  lemma WaitingBegin(g: Group, i: JobId)
    requires GroupInv(g) && g.main.Free? && !g.aborting && i in Members(g) && i !in Open(g)
    requires !g.jobs[i].status.Pending? && g.jobs[i].pauses.user
    ensures Guard(g, i, ActCancelBegin(true)) && Closer(Step(g, i, ActCancelBegin(true)), g)
  {
    WaitingIs(g, i);
    var a := ActCancelBegin(true);
    assert Guard(g, i, a) by { hide GroupInv, JobInv, ResetIo; }
    hide GroupInv, JobInv, ResetIo, Guard, Closer, Inside, Busy, Members, Open;
    BeginIs(g, i);
    StepsOn(g, i, a);
    FreeErrand(g);
    hide Step;
    WorksCloser(g, Step(g, i, a));
  }

  lemma BeginIs(g: Group, i: JobId)
    requires Guard(g, i, ActCancelBegin(true)) && JobInv(g.jobs[i]) && g.jobs[i].co.deferred && !g.aborting
    ensures var h := Step(g, i, ActCancelBegin(true)); Errand(h) == 1 && Unchanged(g, h)
  {
    ResetIoKeeps(g.jobs[i]);
    hide JobInv, ResetIo, MayCancel, Inside, Busy;
  }

  lemma FreeErrand(g: Group)
    requires g.main.Free?
    ensures Errand(g) == 2
  {
  }

  /** What the main thread does next when it is not free. */
  ghost function Continuing(g: Group): (JobId, Act)
    requires MainFits(g) && !g.main.Free?
  {
    match g.main
    case Resuming(i) => (i, ActResumeEnd)
    case Cancelling(i, _) => (i, ActCancelEnd)
    case Sweeping(todo, at) =>
      if at.Some? then (at.value, ActSweepEnd)
      else var i := Focus(todo); (i, if g.jobs[i].pauses.user then ActSweepBegin else ActSweep)
  }

  lemma ContinuingGuard(g: Group)
    requires MainFits(g) && !g.main.Free?
    ensures var (i, a) := Continuing(g);
      i in g.jobs && g.jobs[i].result.inTxn && (!g.jobs[i].refs.freed ==> Guard(g, i, a))
  {
    var (i, a) := Continuing(g);
    hide LocalGuard, MayResume, MayCancel, PreparesOk, Accepts;
  }

  lemma SweepDrops(g: Group, i: JobId, a: Act)
    requires MainFits(g) && Guard(g, i, a) && (a.ActSweep? || a.ActSweepEnd?)
    ensures Errand(Step(g, i, a)) < Errand(g)
  {
    hide CancelAsync, LocalGuard, LocalStep, CompletedJob, CancelStep, DoFinalize, FinalizeSingle;
    assert g.main.todo == (g.main.todo - {i}) + {i};
  }

  /** A sweep or the end of a resume completes nobody. */
  lemma ErrandDrops(g: Group, i: JobId, a: Act)
    requires MainFits(g) && Guard(g, i, a) && (a.ActResumeEnd? || a.ActSweep? || a.ActSweepBegin? || a.ActSweepEnd?)
    ensures Errand(Step(g, i, a)) < Errand(g) && Plain(a) && i in g.jobs && OwnStatus(g.jobs[i], a) == g.jobs[i].status
  {
    if a.ActSweep? || a.ActSweepEnd? {
      hide Step, Errand, MainFits;
      SweepDrops(g, i, a);
    } else {
      hide UserResume, ResetIo, LocalGuard, LocalStep, CompletedJob, CancelStep, DoFinalize, FinalizeSingle;
    }
  }

  lemma SameStatus(g: Group, h: Group)
    requires h.jobs.Keys == g.jobs.Keys && forall k :: k in g.jobs ==> h.jobs[k].status == g.jobs[k].status
    ensures Unchanged(g, h)
  {
    hide Inside, Busy;
  }

  lemma ErrandCloser(g: Group, i: JobId, a: Act)
    requires GroupInv(g) && MainFits(g) && Guard(g, i, a)
    requires a.ActResumeEnd? || a.ActSweep? || a.ActSweepBegin? || a.ActSweepEnd?
    ensures Closer(Step(g, i, a), g)
  {
    hide GroupInv, MainFits, Guard, Step, Closer, Errand, Unchanged, OwnStatus, NextStatus, Plain, Remaining;
    ErrandDrops(g, i, a);
    StepsOn(g, i, a);
    var h := Step(g, i, a);
    forall k | k in g.jobs ensures h.jobs[k].status == g.jobs[k].status {
      NextIs(g, i, a, k);
      PlainNext(g, i, a, k);
    }
    SameStatus(g, h);
    WorksCloser(g, h);
  }

  // ---------------------------------------------------------- ends of cancels

  lemma CancelEndIs(g: Group, i: JobId)
    requires MainFits(g) && g.main.Cancelling? && g.main.job == i && Guard(g, i, ActCancelEnd)
    requires i in g.jobs && JobInv(g.jobs[i]) && !g.jobs[i].co.pos.NoCo?
    ensures var h := Step(g, i, ActCancelEnd); (h.aborting && !g.aborting) || h.main.Free?
    ensures g.main.force && !g.aborting && g.jobs[i].co.deferred ==> Step(g, i, ActCancelEnd).aborting
  {
    var force := g.main.force;
    CancelSettles(g.jobs[i], force);
    CancelForces(g.jobs[i], force);
    hide JobInv, CancelAsync, Enter, CompletedJob;
  }

  lemma CancelStatus(g: Group, i: JobId, k: JobId)
    requires GroupInv(g) && Guard(g, i, ActCancelEnd) && i in g.jobs && k in g.jobs
    ensures var h := Step(g, i, ActCancelEnd);
      && k in h.jobs
      && h.jobs[k].status == if k == i && g.jobs[k].co.pos.NoCo? then Aborting else g.jobs[k].status
  {
    hide GroupInv, Guard, Step, NextStatus, NextReturn;
    NextIs(g, i, ActCancelEnd, k);
    CancelNext(g, i, ActCancelEnd, k);
  }

  lemma UnstartedCloser(g: Group, i: JobId)
    requires GroupInv(g) && Guard(g, i, ActCancelEnd) && i in g.jobs && g.jobs[i].co.pos.NoCo?
    requires g.jobs[i].status.Created?
    ensures Closer(Step(g, i, ActCancelEnd), g)
  {
    var h := Step(g, i, ActCancelEnd);
    assert Busy(Created) && !Busy(Aborting) && Inside(Aborting) && Inside(Created);
    hide GroupInv, Guard, Step, Closer, Busy, Inside;
    StepsOn(g, i, ActCancelEnd);
    forall k | k in g.jobs
      ensures Inside(h.jobs[k].status) ==> Inside(g.jobs[k].status)
      ensures Busy(h.jobs[k].status) ==> Busy(g.jobs[k].status)
    {
      CancelStatus(g, i, k);
    }
    CancelStatus(g, i, i);
    ShrinksCloser(g, h, i);
  }

  lemma AbortCloser(g: Group, h: Group)
    requires h.aborting && !g.aborting
    ensures Closer(h, g)
  {
    hide Members, Open, Errand, Remaining;
  }

  lemma StartedCloser(g: Group, i: JobId)
    requires GroupInv(g) && MainFits(g) && g.main.Cancelling? && g.main.job == i && Guard(g, i, ActCancelEnd)
    requires i in g.jobs && JobInv(g.jobs[i]) && !g.jobs[i].co.pos.NoCo?
    ensures Closer(Step(g, i, ActCancelEnd), g)
  {
    var h := Step(g, i, ActCancelEnd);
    assert Errand(g) == 3 || (g.main.force && !g.aborting && g.jobs[i].co.deferred);
    hide GroupInv, MainFits, JobInv, Guard, Step, Unchanged, Errand, Closer;
    StepsOn(g, i, ActCancelEnd);
    CancelEndIs(g, i);
    if h.aborting == g.aborting {
      FreeErrand(h);
      forall k | k in g.jobs ensures h.jobs[k].status == g.jobs[k].status { CancelStatus(g, i, k); }
      SameStatus(g, h);
      WorksCloser(g, h);
    } else {
      AbortCloser(g, h);
    }
  }

  lemma CancelEndCloser(g: Group, i: JobId)
    requires GroupInv(g) && MainFits(g) && g.main.Cancelling? && g.main.job == i && Guard(g, i, ActCancelEnd)
    ensures Closer(Step(g, i, ActCancelEnd), g)
  {
    assert i in g.jobs && (g.jobs[i].co.pos.NoCo? ==> g.jobs[i].status.Created?);
    MemberIs(g, i);
    hide GroupInv, MainFits, Guard, Step, Closer, JobInv;
    if g.jobs[i].co.pos.NoCo? { UnstartedCloser(g, i); } else { StartedCloser(g, i); }
  }

  // ------------------------------------------------------------ whole groups

  lemma MainCloser(g: Group) returns (i: JobId, a: Act)
    requires GroupInv(g) && MainFits(g) && !g.main.Free?
    ensures Guard(g, i, a) && Closer(Step(g, i, a), g)
  {
    i, a := Continuing(g).0, Continuing(g).1;
    ContinuingGuard(g);
    MemberIs(g, i);
    assert i in Members(g);
    assert a.ActCancelEnd? <==> g.main.Cancelling?;
    assert !a.ActCancelEnd? ==> a.ActResumeEnd? || a.ActSweep? || a.ActSweepBegin? || a.ActSweepEnd?;
    assert g.main.Cancelling? ==> g.main.job == i;
    hide GroupInv, MainFits, Guard, Step, Closer, JobInv, Continuing;
    if a.ActCancelEnd? { CancelEndCloser(g, i); } else { ErrandCloser(g, i, a); }
  }

  lemma FreeCloser(g: Group) returns (i: JobId, a: Act)
    requires GroupInv(g) && g.main.Free? && Members(g) != {}
    ensures Guard(g, i, a) && Closer(Step(g, i, a), g)
  {
    hide GroupInv, Guard, Step, Closer, Inside, Busy;
    if Open(g) != {} {
      i := Focus(Open(g));
      MemberIs(g, i);
      if g.jobs[i].co.pos.Ended? {
        a := ActExit(AllPrepared);
        ExitCloser(g, i);
      } else {
        a := Onward(g.jobs[i].co.pos);
        OnwardCloser(g, i);
      }
    } else {
      i :| i in Members(g);
      if g.aborting {
        a := ActAbortNext;
        AbortNextCloser(g, i);
      } else if g.jobs[i].status.Pending? {
        a := ActFinalize(AllPrepared);
        FinalizeCloser(g, i);
      } else if g.jobs[i].pauses.user {
        a := ActCancelBegin(true);
        WaitingBegin(g, i);
      } else {
        a := ActCancel(true);
        WaitingCancel(g, i);
      }
    }
  }

  /** In every state that fits, a group with members has a step that brings it closer to its end. */
  lemma SomeStepCloser(g: Group) returns (i: JobId, a: Act)
    requires GroupInv(g) && Members(g) != {}
    ensures Guard(g, i, a) && Closer(Step(g, i, a), g) && GroupInv(Step(g, i, a))
  {
    assert MainFits(g) by { hide AllFit, MainFits, AbortedGroup, GoodGroup; }
    hide GroupInv, MainFits, Guard, Step, Closer, Members;
    if g.main.Free? { i, a := FreeCloser(g); } else { i, a := MainCloser(g); }
    StepsOn(g, i, a);
  }

  lemma OneMore(r: seq<Group>, acts: seq<(JobId, Act)>) returns (r1: seq<Group>, acts1: seq<(JobId, Act)>)
    requires Path(r, acts) && Members(r[|acts|]) != {}
    ensures Path(r1, acts1) && acts <= acts1 && r <= r1 && Closer(r1[|acts1|], r[|acts|])
  {
    var g := r[|acts|];
    PathInv(r, acts, |acts|) by { hide GroupInv, StepAt; }
    hide GroupInv, Guard, Step, StepAt, Members, Closer;
    var i, a := SomeStepCloser(g);
    Extend(r, acts, i, a);
    r1, acts1 := r + [Step(g, i, a)], acts + [(i, a)];
    assert r1[|acts1|] == Step(g, i, a);
  }

  lemma {:induction false} CanFinish(r: seq<Group>, acts: seq<(JobId, Act)>)
      returns (r': seq<Group>, acts': seq<(JobId, Act)>)
    requires Path(r, acts)
    ensures Path(r', acts') && acts <= acts' && r <= r' && Members(r'[|acts'|]) == {}
    decreases Unaborted(r[|acts|]), |Members(r[|acts|])|, |Open(r[|acts|])|, Errand(r[|acts|]), Remaining(r[|acts|])
  {
    if Members(r[|acts|]) == {} { return r, acts; }
    var r1, acts1 := OneMore(r, acts);
    hide GroupInv, StepAt, Members, Open, Errand, Remaining, Unaborted;
    r', acts' := CanFinish(r1, acts1);
  }

  // ---------------------------------------------------------- letting go

  /** Dismissed, and nobody holds a reference; by the invariant such a job has been freed. */
  predicate Gone(j: Job) {
    j.status.Null? && j.refs.pins == 0
  }

  function Kept(g: Group): set<JobId> {
    set i | i in g.jobs && !Gone(g.jobs[i])
  }

  function Weight(j: Job): nat {
    j.refs.pins + if j.status.Null? then 0 else 1
  }

  lemma MainHasMember(g: Group)
    requires MainFits(g) && !g.main.Free?
    ensures Members(g) != {}
  {
    ContinuingGuard(g);
    var i := Continuing(g).0;
    assert i in Members(g);
  }

  lemma EmptyIsFree(g: Group)
    requires GroupInv(g) && Members(g) == {}
    ensures g.main.Free? && forall i :: i in g.jobs ==> !Inside(g.jobs[i].status)
  {
    if !g.main.Free? { MainHasMember(g); }
    forall i | i in g.jobs ensures !Inside(g.jobs[i].status) { MemberIs(g, i); }
  }

  function LetGo(j: Job): Act {
    if j.status.Null? then ActUnref else ActDismiss
  }

  lemma LetGoIs(j: Job)
    requires JobInv(j) && !Inside(j.status) && !Gone(j)
    ensures !j.refs.freed && LocalGuard(j, LetGo(j)) && Plain(LetGo(j)) && OwnStatus(j, LetGo(j)).Null?
  {
  }

  lemma LetGoGuard(g: Group, i: JobId)
    requires GroupInv(g) && Members(g) == {} && i in Kept(g)
    ensures i in g.jobs && Guard(g, i, LetGo(g.jobs[i])) && Plain(LetGo(g.jobs[i]))
    ensures OwnStatus(g.jobs[i], LetGo(g.jobs[i])).Null? && !Inside(g.jobs[i].status)
  {
    EmptyIsFree(g);
    MemberIs(g, i);
    LetGoIs(g.jobs[i]);
    hide GroupInv, JobInv, LocalGuard;
  }

  lemma LetGoEffect(g: Group, i: JobId, a: Act, k: JobId)
    requires GroupInv(g) && Guard(g, i, a) && Plain(a) && i in g.jobs && k in g.jobs && OwnStatus(g.jobs[i], a).Null?
    ensures var h := Step(g, i, a);
      && k in h.jobs && h.jobs[k].status == (if k == i then Null else g.jobs[k].status)
      && h.jobs[k].refs.pins == g.jobs[k].refs.pins
           + if k == i && a.ActRef? then 1 else if k == i && a.ActUnref? then -1 else 0
  {
    hide GroupInv, Guard, Step, OwnStatus, NextStatus, NextReturn, Courses, Plain;
    StepEffect(g, i, a, k);
    PlainNext(g, i, a, k);
  }

  /** Dismissing or unreferencing job i leaves the others as they are. */
  predicate LetGoOf(g: Group, h: Group, i: JobId) {
    && i in g.jobs && h.jobs.Keys == g.jobs.Keys && Weight(h.jobs[i]) < Weight(g.jobs[i])
    && forall k :: k in g.jobs && k != i ==> (Gone(h.jobs[k]) <==> Gone(g.jobs[k]))
  }

  lemma LetGoStep(g: Group, i: JobId)
    requires GroupInv(g) && Members(g) == {} && i in Kept(g)
    ensures Guard(g, i, LetGo(g.jobs[i]))
    ensures var h := Step(g, i, LetGo(g.jobs[i])); GroupInv(h) && Members(h) == {} && LetGoOf(g, h, i)
  {
    var a := LetGo(g.jobs[i]);
    assert !Gone(g.jobs[i]) && !a.ActRef? && (a.ActUnref? <==> g.jobs[i].status.Null?);
    hide GroupInv, Guard, Step, Members, Kept, OwnStatus, Plain, LetGo, LetGoOf, Inside, Gone;
    LetGoGuard(g, i);
    EmptyIsFree(g);
    StepsOn(g, i, a);
    LetGoAll(g, i, a);
    NoMembers(Step(g, i, a));
  }

  lemma LetGoAll(g: Group, i: JobId, a: Act)
    requires GroupInv(g) && Guard(g, i, a) && Plain(a) && i in g.jobs && OwnStatus(g.jobs[i], a).Null?
    requires !a.ActRef? && (a.ActUnref? <==> g.jobs[i].status.Null?) && !Gone(g.jobs[i])
    requires forall k :: k in g.jobs ==> !Inside(g.jobs[k].status)
    ensures var h := Step(g, i, a); LetGoOf(g, h, i) && forall k :: k in h.jobs ==> !Inside(h.jobs[k].status)
  {
    hide GroupInv, Guard, Step, OwnStatus, Plain;
    StepsOn(g, i, a);
    var h := Step(g, i, a);
    forall k | k in g.jobs && k != i
      ensures h.jobs[k].status == g.jobs[k].status && h.jobs[k].refs.pins == g.jobs[k].refs.pins
    {
      LetGoEffect(g, i, a, k);
    }
    LetGoEffect(g, i, a, i);
  }

  lemma NoMembers(h: Group)
    requires GroupInv(h) && forall k :: k in h.jobs ==> !Inside(h.jobs[k].status)
    ensures Members(h) == {}
  {
    forall k | k in h.jobs ensures k !in Members(h) { MemberIs(h, k); }
  }

  ghost function Burden(g: Group): nat {
    if Kept(g) == {} then 0 else Weight(g.jobs[Focus(Kept(g))])
  }

  lemma LetGoCloser(g: Group, h: Group, i: JobId)
    requires Kept(g) != {} && i == Focus(Kept(g)) && LetGoOf(g, h, i)
    ensures |Kept(h)| < |Kept(g)| || (Kept(h) == Kept(g) && Burden(h) < Burden(g))
  {
    assert Kept(h) <= Kept(g);
    hide Weight, Gone;
    Subset(Kept(h), Kept(g));
  }

  lemma OneLess(r: seq<Group>, acts: seq<(JobId, Act)>) returns (r1: seq<Group>, acts1: seq<(JobId, Act)>)
    requires Path(r, acts) && Members(r[|acts|]) == {} && Kept(r[|acts|]) != {}
    ensures Path(r1, acts1) && acts <= acts1 && r <= r1
    ensures var g, h := r[|acts|], r1[|acts1|];
      Members(h) == {} && (|Kept(h)| < |Kept(g)| || (Kept(h) == Kept(g) && Burden(h) < Burden(g)))
  {
    var g := r[|acts|];
    PathInv(r, acts, |acts|) by { hide GroupInv, StepAt; }
    hide GroupInv, Guard, Step, StepAt, Members, LetGo, Weight;
    var i := Focus(Kept(g));
    LetGoStep(g, i);
    Extend(r, acts, i, LetGo(g.jobs[i]));
    r1, acts1 := r + [Step(g, i, LetGo(g.jobs[i]))], acts + [(i, LetGo(g.jobs[i]))];
    assert r1[|acts1|] == Step(g, i, LetGo(g.jobs[i]));
    LetGoCloser(g, r1[|acts1|], i);
  }

  lemma {:induction false} CanFree(r: seq<Group>, acts: seq<(JobId, Act)>)
      returns (r': seq<Group>, acts': seq<(JobId, Act)>)
    requires Path(r, acts) && Members(r[|acts|]) == {}
    ensures Path(r', acts') && acts <= acts' && r <= r' && Kept(r'[|acts'|]) == {}
    decreases |Kept(r[|acts|])|, Burden(r[|acts|])
  {
    if Kept(r[|acts|]) == {} { return r, acts; }
    var r1, acts1 := OneLess(r, acts);
    hide GroupInv, StepAt, Members, Kept, Burden;
    r', acts' := CanFree(r1, acts1);
  }

  /**
   A group never gets stuck and no job is lost: every run can be continued until all
   members have been finalised or have left, and all jobs have been freed, whatever has
   been paused, cancelled or aborted before.
   */
  lemma RunCanFinish(r: seq<Group>, acts: seq<(JobId, Act)>) returns (r': seq<Group>, acts': seq<(JobId, Act)>)
    requires Run(r, acts)
    ensures Run(r', acts') && acts <= acts' && r <= r'
    ensures var g := r'[|acts'|]; forall i :: i in g.jobs ==> g.jobs[i].refs.freed && !g.jobs[i].result.inTxn
  {
    RunIsPath(r, acts) by { hide GroupInv, StepAt, Init; }
    hide GroupInv, StepAt, Init, Members, Kept;
    var r0, acts0 := CanFinish(r, acts);
    r', acts' := CanFree(r0, acts0);
    assert r'[0] == r[0];
    PathInv(r', acts', |acts'|);
    AllGone(r'[|acts'|]);
  }

  lemma AllGone(g: Group)
    requires GroupInv(g) && Kept(g) == {}
    ensures forall i :: i in g.jobs ==> g.jobs[i].refs.freed && !g.jobs[i].result.inTxn
  {
    forall i | i in g.jobs ensures g.jobs[i].refs.freed && !g.jobs[i].result.inTxn {
      assert Gone(g.jobs[i]) by { assert i !in Kept(g); }
      assert JobInv(g.jobs[i]);
    }
  }
}
