/**
 The functions of job.c that walk over a group, as they are written: loops over the
 list of members that change one job after the other.  Each does what the step of the
 state machine says, and goes on to cancel the other members if it aborts the group:
 the steps that this takes are then taken one after the other.
 */
module JobTxn {
  import opened Common
  import opened JobState
  import opened JobRun
  import opened JobOutcome
  import opened JobWindow

  /** job_cancel_async_locked with its callback, when nothing comes in between. */
  function CancelledJob(j: Job): Job {
    CancelAsync(if j.pauses.user then ResetIo(j) else j, true)
  }

  /** The group when all members that were still to be cancelled have been. */
  function Settle(g: Group): Group {
    if g.main.Sweeping? && g.main.at.None? then
      g.(jobs := map i | i in g.jobs :: if i in g.main.todo then CancelledJob(g.jobs[i]) else g.jobs[i], main := Free)
    else g
  }

  predicate Sweeps(a: Act) {
    a.ActSweep? || a.ActSweepBegin? || a.ActSweepEnd?
  }

  /** One path after another. */
  lemma Join(r: seq<Group>, acts: seq<(JobId, Act)>, s: seq<Group>, more: seq<(JobId, Act)>)
    requires Path(r, acts) && Path(s, more) && r[|acts|] == s[0]
    ensures Path(r[..|acts|] + s, acts + more)
  {
    hide GroupInv, Guard, Step;
    var r', acts' := r[..|acts|] + s, acts + more;
    forall k | 0 <= k < |acts'| ensures StepAt(r', acts', k) {
      if k < |acts| { assert StepAt(r, acts, k); } else { assert StepAt(s, more, k - |acts|); }
    }
  }

  function Swept(g: Group, i: JobId): Group
    requires g.main.Sweeping? && i in g.jobs
  {
    Put(g, i, CancelledJob(g.jobs[i])).(main := SweepRest(g.main.todo - {i}))
  }

  lemma SweptAtOnce(g: Group, i: JobId)
    requires g.main.Sweeping? && g.main.at.None? && i in g.main.todo && i in g.jobs
    requires !g.jobs[i].refs.freed && !g.jobs[i].pauses.user
    ensures Guard(g, i, ActSweep) && Step(g, i, ActSweep) == Swept(g, i)
  {
    hide CancelAsync;
  }

  lemma SweepBeginIs(g: Group, i: JobId)
    requires g.main.Sweeping? && g.main.at.None? && i in g.main.todo && i in g.jobs
    requires !g.jobs[i].refs.freed && g.jobs[i].pauses.user
    ensures Guard(g, i, ActSweepBegin)
    ensures Step(g, i, ActSweepBegin) == Put(g, i, ResetIo(g.jobs[i])).(main := g.main.(at := Some(i)))
  {
    hide ResetIo;
  }

  lemma SweepEndIs(g: Group, i: JobId)
    requires i in g.jobs && !g.jobs[i].refs.freed && g.main.Sweeping? && g.main.at == Some(i)
    ensures Guard(g, i, ActSweepEnd) && Step(g, i, ActSweepEnd) == SweepOne(g, i)
  {
    hide SweepOne;
  }

  lemma SweptInTwo(g: Group, i: JobId)
    requires g.main.Sweeping? && g.main.at.None? && i in g.main.todo && i in g.jobs
    requires !g.jobs[i].refs.freed && g.jobs[i].pauses.user
    ensures Guard(g, i, ActSweepBegin) && Guard(Step(g, i, ActSweepBegin), i, ActSweepEnd)
    ensures Step(Step(g, i, ActSweepBegin), i, ActSweepEnd) == Swept(g, i)
  {
    var j := g.jobs[i];
    assert ResetIo(j).refs == j.refs;
    hide CancelAsync, ResetIo, Step, Guard;
    SweepBeginIs(g, i);
    SweepEndIs(Put(g, i, ResetIo(j)).(main := g.main.(at := Some(i))), i);
    PutPut(g, i, ResetIo(j), CancelledJob(j));
  }

  lemma TodoFacts(g: Group, i: JobId)
    requires GroupInv(g) && i in Todo(g.main)
    ensures i in g.jobs && !g.jobs[i].refs.freed
  {
    assert JobInv(g.jobs[i]);
  }

  lemma MainOf(g: Group)
    requires GroupInv(g)
    ensures MainFits(g)
  {
    hide AllFit, MainFits, AbortedGroup, GoodGroup;
  }

  /** One more member is cancelled, in one step or two. */
  lemma SweptPath(g: Group, i: JobId) returns (r: seq<Group>, acts: seq<(JobId, Act)>)
    requires GroupInv(g) && g.main.Sweeping? && g.main.at.None? && i in g.main.todo
    ensures i in g.jobs && Path(r, acts) && r[0] == g && r[|acts|] == Swept(g, i)
    ensures forall k :: 0 <= k < |acts| ==> Sweeps(acts[k].1)
  {
    hide GroupInv, Guard, Step, StepAt, Swept;
    TodoFacts(g, i);
    if g.jobs[i].pauses.user {
      SweptInTwo(g, i);
      Extend([g], [], i, ActSweepBegin);
      var mid := Step(g, i, ActSweepBegin);
      Extend([g] + [mid], [] + [(i, ActSweepBegin)], i, ActSweepEnd);
      r, acts := ([g] + [mid]) + [Swept(g, i)], ([] + [(i, ActSweepBegin)]) + [(i, ActSweepEnd)];
    } else {
      SweptAtOnce(g, i);
      Extend([g], [], i, ActSweep);
      r, acts := [g] + [Swept(g, i)], [] + [(i, ActSweep)];
    }
  }

  lemma SettleOne(g: Group, i: JobId)
    requires g.main.Sweeping? && g.main.at.None? && i in g.main.todo && i in g.jobs
    ensures Settle(Swept(g, i)) == Settle(g)
  {
    hide CancelledJob;
    assert g.main.todo - {i} == {} ==> g.main.todo == {i};
    assert Settle(Swept(g, i)).jobs == Settle(g).jobs;
  }

  /** The first loop of job_completed_txn_abort_locked, with nothing in between, cancels all other members. */
  lemma {:induction false} SettleReached(g: Group) returns (r: seq<Group>, acts: seq<(JobId, Act)>)
    requires GroupInv(g) && (g.main.Sweeping? ==> g.main.at.None?)
    ensures Path(r, acts) && r[0] == g && r[|acts|] == Settle(g) && forall k :: 0 <= k < |acts| ==> Sweeps(acts[k].1)
    decreases if g.main.Sweeping? then |g.main.todo| else 0
  {
    hide GroupInv, StepAt, CancelledJob, Sweeps;
    if !g.main.Sweeping? {
      return [g], [];
    }
    MainOf(g);
    hide Settle, MainFits;
    var i :| i in g.main.todo;
    var r0, acts0 := SweptPath(g, i);
    SettleOne(g, i);
    PathInv(r0, acts0, |acts0|);
    var s, more := SettleReached(Swept(g, i));
    Join(r0, acts0, s, more);
    r, acts := r0[..|acts0|] + s, acts0 + more;
  }

  lemma SettleKeeps(g: Group)
    requires GroupInv(g) && (g.main.Sweeping? ==> g.main.at.None?)
    ensures GroupInv(Settle(g))
  {
    hide GroupInv, Settle, StepAt;
    var r, acts := SettleReached(g);
    PathInv(r, acts, |acts|);
  }

  /** The list of a group's members, in any order. */
  ghost predicate ListsMembers(order: seq<JobId>, jobs: map<JobId, Job>) {
    && (forall i, k :: 0 <= i < k < |order| ==> order[i] != order[k])
    && (forall i :: i in order <==> i in jobs && jobs[i].result.inTxn)
  }

  ghost function Ids(s: seq<JobId>): set<JobId> {
    set k | k in s
  }

  /** The members before position n have been changed by f. */
  ghost predicate DoneUpTo(order: seq<JobId>, n: nat, f: Job -> Job, was: map<JobId, Job>, now: map<JobId, Job>) {
    && n <= |order| && now.Keys == was.Keys
    && forall i :: i in was ==> now[i] == if i in order[..n] then f(was[i]) else was[i]
  }

  lemma OneMoreDone(order: seq<JobId>, n: nat, f: Job -> Job, was: map<JobId, Job>, now: map<JobId, Job>)
    requires DoneUpTo(order, n, f, was, now) && n < |order| && order[n] in was
    requires forall i, k :: 0 <= i < k < |order| ==> order[i] != order[k]
    ensures now[order[n]] == was[order[n]] && DoneUpTo(order, n + 1, f, was, now[order[n] := f(was[order[n]])])
  {
    assert order[..n + 1] == order[..n] + [order[n]];
  }

  class Txn {
    var jobs: map<JobId, Job>
    var aborting: bool
    ghost var cause: Cause

    ghost function State(): Group
      reads this
    {
      Group(jobs, aborting, cause, Free)
    }

    constructor (jobs: map<JobId, Job>)
      ensures State() == Group(jobs, false, NoCause, Free)
    {
      this.jobs, aborting, cause := jobs, false, NoCause;
    }

    /** The beginning of job_completed_txn_abort_locked. */
    method BeginAbort(d: JobId, order: seq<JobId>, ghost why: Cause)
      requires ListsMembers(order, jobs) && d in order
      modifies this
      ensures State() == Settle(TxnAbort(old(State()), d, why))
    {
      hide CancelledJob;
      ghost var g := State();
      if aborting { return; }
      ghost var was := jobs;
      aborting, cause := true, why;
      for n := 0 to |order|
        invariant jobs.Keys == was.Keys && aborting && cause == why
        invariant forall i :: i in was ==> jobs[i] == if i in order[..n] && i != d then CancelledJob(was[i]) else was[i]
      {
        assert order[..n + 1] == order[..n] + [order[n]];
        if order[n] != d {
          jobs := jobs[order[n] := CancelledJob(jobs[order[n]])];
        }
      }
      assert order[..|order|] == order;
      AbortSettled(g, d, order, why, State());
    }

    /** job_txn_apply_locked with job_prepare_locked: stops at the first member whose callback fails. */
    method PrepareMembers(order: seq<JobId>, prepare: JobId -> int) returns (rc: int, ghost p: Prepares)
      requires ListsMembers(order, jobs) && forall i :: i in order ==> jobs[i].result.ret == 0
      modifies this`jobs
      ensures PreparesOk(old(State()), p) && (rc == 0 <==> p.AllPrepared?)
      ensures p.AllPrepared? ==>
        DoneUpTo(order, |order|, UpdateRc, old(jobs), jobs) && forall i :: i in order ==> prepare(i) == 0
      ensures p.PrepareFails? ==> State() == Prepared(old(State()), p) && rc == p.code == prepare(p.job)
    {
      hide UpdateRc;
      ghost var was := jobs;
      ghost var g := State();
      for n := 0 to |order|
        invariant DoneUpTo(order, n, UpdateRc, was, jobs)
        invariant forall i :: i in order[..n] ==> prepare(i) == 0
      {
        var i := order[n];
        OneMoreDone(order, n, UpdateRc, was, jobs);
        rc := prepare(i);
        jobs := jobs[i := UpdateRc(jobs[i].(result := jobs[i].result.(ret := rc)))];
        if rc != 0 {
          p := PrepareFails(Ids(order[..n]), i, rc);
          PartlyPrepared(g, order, n, rc, State());
          return;
        }
        assert was[i].(result := was[i].result.(ret := 0)) == was[i];
        assert order[..n + 1] == order[..n] + [i];
      }
      assert order[..|order|] == order;
      rc, p := 0, AllPrepared;
    }

    /** job_txn_apply_locked with job_finalize_single_locked. */
    method FinalizeMembers(order: seq<JobId>)
      requires ListsMembers(order, jobs)
      modifies this`jobs
      ensures DoneUpTo(order, |order|, FinalizeSingle, old(jobs), jobs)
    {
      ghost var was := jobs;
      for n := 0 to |order|
        invariant DoneUpTo(order, n, FinalizeSingle, was, jobs)
      {
        OneMoreDone(order, n, FinalizeSingle, was, jobs);
        jobs := jobs[order[n] := FinalizeSingle(jobs[order[n]])];
      }
    }

    /** job_do_finalize_locked */
    method Finalize(d: JobId, order: seq<JobId>, prepare: JobId -> int) returns (ghost p: Prepares)
      requires ListsMembers(order, jobs) && d in order
      requires AllPending(State()) && AllFit(State())
      modifies this
      ensures PreparesOk(old(State()), p) && (p.AllPrepared? <==> forall i :: i in order ==> prepare(i) == 0)
      ensures State() == Settle(DoFinalize(old(State()), d, p))
    {
      ghost var g := State();
      var rc;
      assert forall i :: i in order ==> JobInv(jobs[i]);
      rc, p := PrepareMembers(order, prepare);
      ghost var mid := State();
      if rc != 0 {
        StillMembers(g, order, p, mid);
        BeginAbort(d, order, ByPrepare(d, p.job));
      } else {
        AllStillMembers(g, order, mid);
        FinalizeMembers(order);
        FinalizedAll(g, order, mid, State());
      }
    }

    /** The first loop of job_completed_txn_success_locked. */
    method OthersCompleted(order: seq<JobId>) returns (all: bool)
      requires ListsMembers(order, jobs)
      ensures all == AllCompleted(State())
    {
      for n := 0 to |order|
        invariant forall i :: i in order[..n] ==> Completed(jobs[i].status)
      {
        if !Completed(jobs[order[n]].status) {
          assert order[n] in order;
          return false;
        }
        assert order[..n + 1] == order[..n] + [order[n]];
      }
      assert order[..|order|] == order;
      all := true;
    }

    /** job_txn_apply_locked with job_transition_to_pending_locked. */
    method PendMembers(order: seq<JobId>)
      requires ListsMembers(order, jobs)
      modifies this`jobs
      ensures State() == ToPending(old(State()))
    {
      ghost var was, g := jobs, State();
      for n := 0 to |order|
        invariant DoneUpTo(order, n, PendJob, was, jobs)
      {
        OneMoreDone(order, n, PendJob, was, jobs);
        jobs := jobs[order[n] := PendJob(jobs[order[n]])];
      }
      PendedAll(g, order, State());
    }

    /** job_txn_apply_locked with job_needs_finalize_locked. */
    method NeedsFinalize(order: seq<JobId>) returns (manual: bool)
      requires ListsMembers(order, jobs)
      ensures manual <==> exists k :: k in jobs && jobs[k].result.inTxn && !jobs[k].options.autoFinalize
    {
      for n := 0 to |order|
        invariant forall i :: i in order[..n] ==> jobs[i].options.autoFinalize
      {
        if !jobs[order[n]].options.autoFinalize {
          assert order[n] in order;
          return true;
        }
        assert order[..n + 1] == order[..n] + [order[n]];
      }
      assert order[..|order|] == order;
      manual := false;
    }

    /** job_completed_txn_success_locked of a job that is in order; the group is in order, too. */
    method Succeed(i: JobId, order: seq<JobId>, prepare: JobId -> int) returns (ghost p: Prepares)
      requires ListsMembers(order, jobs) && i in order
      requires WaitsWell(Put(State(), i, Transition(jobs[i], Waiting)), i)
      modifies this
      ensures PreparesOk(old(State()), p) && State() == Settle(TxnSuccess(old(State()), i, p))
    {
      hide GroupInv, NoneFinalized, Transition, DoFinalize, ToPending, AllCompleted;
      ghost var g := State();
      p := AllPrepared;
      jobs := jobs[i := Transition(jobs[i], Waiting)];
      ghost var g1 := State();
      PutMember(g, i, g1.jobs[i]);
      SameMembers(order, g, g1);
      var all := OthersCompleted(order);
      if !all { return; }
      PendMembers(order);
      ghost var g2 := State();
      AllPendingNow(g1, i);
      SameMembers(order, g1, g2);
      SameOptions(g1);
      var manual := NeedsFinalize(order);
      if manual { return; }
      p := Finalize(i, order, prepare);
      assert PreparesOk(g, p);
    }

    /** job_completed_locked; u is the job with its result updated. */
    method Complete(i: JobId, order: seq<JobId>, prepare: JobId -> int) returns (ghost p: Prepares)
      requires ListsMembers(order, jobs) && i in order
      requires var u := UpdateRc(Assert(jobs[i], jobs[i].result.inTxn && !Completed(jobs[i].status)));
        u.result.inTxn && (u.result.ret == 0 ==> WaitsWell(Put(State(), i, Transition(u, Waiting)), i))
      modifies this
      ensures PreparesOk(old(State()), p) && State() == Settle(CompletedJob(old(State()), i, p))
    {
      ghost var g := State();
      var u := UpdateRc(Assert(jobs[i], jobs[i].result.inTxn && !Completed(jobs[i].status)));
      hide WaitsWell, UpdateRc, Assert, Completed, Transition, TxnSuccess, TxnAbort;
      jobs := jobs[i := u];
      PutMember(g, i, u);
      SameMembers(order, g, State());
      if u.result.ret != 0 {
        p := AllPrepared;
        BeginAbort(i, order, ByCompletion(i));
      } else {
        PutPut(g, i, u, Transition(u, Waiting));
        p := Succeed(i, order, prepare);
      }
    }

    /** job_exit: one step of the state machine, and the steps that cancel the other members if it aborts the group. */
    method Exit(i: JobId, order: seq<JobId>, prepare: JobId -> int) returns (ghost p: Prepares)
      requires GroupInv(State()) && ListsMembers(order, jobs) && i in order
      requires jobs[i].co.pos.Ended? && !jobs[i].refs.freed
      modifies this
      ensures Guard(old(State()), i, ActExit(p)) && State() == Settle(Step(old(State()), i, ActExit(p))) &&
        GroupInv(State())
    {
      ghost var g := State();
      ghost var u := ExitFacts(g, i);
      hide GroupInv, UpdateRc, Assert, Completed, Transition, CompletedJob, WaitsWell, Step, Guard;
      jobs := jobs[i := jobs[i].(co := jobs[i].co.(busy := false, pos := Exited))];
      PutPut(g, i, jobs[i], if u.result.ret == 0 then Transition(u, Waiting) else u);
      PutMember(g, i, jobs[i]);
      SameMembers(order, g, State());
      p := Complete(i, order, prepare);
      ExitAllowed(g, i, p);
      ExitIs(g, i, p);
      StepKeeps(g, i, ActExit(p));
      NoWindowAfter(g, i, p);
      SettleKeeps(Step(g, i, ActExit(p)));
    }
  }

  lemma NoWindowAfter(g: Group, i: JobId, p: Prepares)
    requires GroupInv(g) && g.main.Free? && Guard(g, i, ActExit(p)) && GroupInv(Step(g, i, ActExit(p)))
    ensures var m := Step(g, i, ActExit(p)).main; m.Sweeping? ==> m.at.None?
  {
    hide Step, GroupInv, Guard, IoStep;
    var h := Step(g, i, ActExit(p));
    MainOf(h);
    StepKeys(g, i, ActExit(p));
    if h.main.Sweeping? && h.main.at.Some? {
      var x := h.main.at.value;
      StepIo(g, i, ActExit(p), x);
      NoNewWindow(g, i, ActExit(p), h, x);
    }
  }

  lemma NoNewWindow(g: Group, i: JobId, a: Act, h: Group, x: JobId)
    requires IoStep(g, i, a, h, x) && g.main.Free? && !Opens(a)
    ensures !InWindow(h.main, x)
  {
  }

  lemma AbortSettled(g: Group, d: JobId, order: seq<JobId>, why: Cause, h: Group)
    requires ListsMembers(order, g.jobs) && d in order && !g.aborting && g.main.Free?
    requires h == Group(h.jobs, true, why, Free) && h.jobs.Keys == g.jobs.Keys
    requires forall i :: i in g.jobs ==>
      h.jobs[i] == if i in order && i != d then CancelledJob(g.jobs[i]) else g.jobs[i]
    ensures h == Settle(TxnAbort(g, d, why))
  {
    hide CancelledJob;
    var rest := Members(g) - {d};
    forall i | i in g.jobs ensures i in rest <==> i in order && i != d {}
    assert h.jobs == Settle(TxnAbort(g, d, why)).jobs;
  }

  lemma ExitAllowed(g: Group, i: JobId, p: Prepares)
    requires g.main.Free? && i in g.jobs && g.jobs[i].co.pos.Ended? && !g.jobs[i].refs.freed && PreparesOk(g, p)
    ensures Guard(g, i, ActExit(p))
  {
  }

  lemma ExitIs(g: Group, i: JobId, p: Prepares)
    requires Guard(g, i, ActExit(p))
    ensures Step(g, i, ActExit(p)) ==
      CompletedJob(Put(g, i, g.jobs[i].(co := g.jobs[i].co.(busy := false, pos := Exited))), i, p)
  {
    hide CompletedJob;
  }

  /** The group is in order and member i waits for the others. */
  ghost predicate WaitsWell(g: Group, i: JobId) {
    && i in g.jobs && GroupInv(g) && !g.aborting && g.main.Free? && NoneFinalized(g)
    && g.jobs[i].result.inTxn && g.jobs[i].status.Waiting?
  }

  /** What job_exit finds: an error, or a group in which all is well. */
  lemma ExitFacts(g: Group, i: JobId) returns (u: Job)
    requires GroupInv(g) && g.main.Free? && i in g.jobs && g.jobs[i].co.pos.Ended?
    ensures var e := g.jobs[i].(co := g.jobs[i].co.(busy := false, pos := Exited));
      && u == UpdateRc(Assert(e, e.result.inTxn && !Completed(e.status))) && u.result.inTxn && e.result.inTxn
      && (u.result.ret == 0 ==> WaitsWell(Put(g, i, Transition(u, Waiting)), i))
  {
    var j := g.jobs[i];
    var e := j.(co := j.co.(busy := false, pos := Exited));
    u := UpdateRc(Assert(e, e.result.inTxn && !Completed(e.status)));
    ExitKeeps(j);
    assert !Completed(j.status) && JobInv(j);
    hide UpdateRc, Assert, GroupInv, Completed, JobInv;
    if u.result.ret == 0 {
      if g.aborting { WaitedForAreCancelled(g, i); }
      assert Transition(u, Waiting).result == u.result && Transition(u, Waiting).cancels == u.cancels;
      WaitingKeeps(g, i, Transition(u, Waiting));
    }
  }

  lemma SameOptions(g: Group)
    ensures var h := ToPending(g);
      (exists k :: k in h.jobs && h.jobs[k].result.inTxn && !h.jobs[k].options.autoFinalize) <==>
      (exists k :: k in g.jobs && g.jobs[k].result.inTxn && !g.jobs[k].options.autoFinalize)
  {
    var h := ToPending(g);
    forall k | k in g.jobs ensures h.jobs[k].result == g.jobs[k].result && h.jobs[k].options == g.jobs[k].options {}
    hide ToPending;
  }

  /** When the last member has completed well, all are pending and fit to be finalised. */
  lemma AllPendingNow(g: Group, i: JobId)
    requires GroupInv(g) && !g.aborting && NoneFinalized(g) && AllCompleted(g)
    requires i in g.jobs && g.jobs[i].result.inTxn && g.jobs[i].status.Waiting?
    ensures AllFit(ToPending(g)) && AllPending(ToPending(g)) && Members(ToPending(g)) == Members(g)
  {
    hide JobInv;
    AllWaiting(g, i);
    ToPendingKeeps(g);
    hide ToPending;
    PendingFacts(g, ToPending(g), i);
  }

  function PendJob(j: Job): Job {
    Transition(Assert(j, j.result.ret == 0), Pending)
  }

  lemma PendedAll(g: Group, order: seq<JobId>, h: Group)
    requires ListsMembers(order, g.jobs) && h == g.(jobs := h.jobs)
    requires DoneUpTo(order, |order|, PendJob, g.jobs, h.jobs)
    ensures h == ToPending(g)
  {
    assert order[..|order|] == order;
    assert h.jobs == ToPending(g).jobs;
  }

  lemma SameMembers(order: seq<JobId>, g: Group, h: Group)
    requires ListsMembers(order, g.jobs) && Members(g) == Members(h)
    ensures ListsMembers(order, h.jobs)
  {
    forall i ensures i in order <==> i in h.jobs && h.jobs[i].result.inTxn {
      assert i in Members(g) <==> i in Members(h);
    }
  }

  lemma PartlyPrepared(g: Group, order: seq<JobId>, n: nat, code: int, h: Group)
    requires ListsMembers(order, g.jobs) && n < |order| && code != 0
    requires h == g.(jobs := h.jobs) && h.jobs.Keys == g.jobs.Keys
    requires forall i :: i in g.jobs ==> h.jobs[i] == PreparedJob(order, n, code, i, g.jobs[i])
    ensures var p := PrepareFails(Ids(order[..n]), order[n], code); h == Prepared(g, p) && PreparesOk(g, p)
  {
    var p := PrepareFails(Ids(order[..n]), order[n], code);
    assert h.jobs == Prepared(g, p).jobs;
    forall i | i in p.before ensures i in Members(g) - {p.job} { assert i in order; }
    assert order[n] in order;
  }

  ghost function PreparedJob(order: seq<JobId>, n: nat, code: int, i: JobId, j: Job): Job
    requires n < |order|
  {
    if i == order[n] then UpdateRc(j.(result := j.result.(ret := code))) else if i in order[..n] then UpdateRc(j) else j
  }

  lemma MemberStays(j: Job, ret: int)
    ensures UpdateRc(j).result.inTxn == j.result.inTxn
    ensures UpdateRc(j.(result := j.result.(ret := ret))).result.inTxn == j.result.inTxn
  {
  }

  lemma StillMembers(g: Group, order: seq<JobId>, p: Prepares, h: Group)
    requires ListsMembers(order, g.jobs) && p.PrepareFails? && h == Prepared(g, p)
    ensures ListsMembers(order, h.jobs)
  {
    forall i | i in g.jobs ensures h.jobs[i].result.inTxn == g.jobs[i].result.inTxn { MemberStays(g.jobs[i], p.code); }
  }

  lemma AllStillMembers(g: Group, order: seq<JobId>, h: Group)
    requires ListsMembers(order, g.jobs) && DoneUpTo(order, |order|, UpdateRc, g.jobs, h.jobs)
    ensures ListsMembers(order, h.jobs)
  {
    forall i | i in g.jobs ensures h.jobs[i].result.inTxn == g.jobs[i].result.inTxn { MemberStays(g.jobs[i], 0); }
  }

  lemma FinalizedAll(g: Group, order: seq<JobId>, mid: Group, h: Group)
    requires ListsMembers(order, g.jobs) && h == g.(jobs := h.jobs)
    requires DoneUpTo(order, |order|, UpdateRc, g.jobs, mid.jobs) &&
      DoneUpTo(order, |order|, FinalizeSingle, mid.jobs, h.jobs)
    ensures h == FinalizeAll(g)
  {
    assert order[..|order|] == order;
    hide FinalizeSingle, UpdateRc;
    assert h.jobs == FinalizeAll(g).jobs;
  }
}
