/**
 A run of one thread that calls cpu_exec_start in its own exclusive section: it waits
 in exclusive_idle for the end of a section that only it could end.
 */
module ExclusiveNested {
  import opened Common
  import opened Exclusive
  import opened ExclusiveProgress

  /** The state of the only thread, with the lock and pending_cpus; stores are still in their buffers. */
  function At(t: Thread, pending: int, pendingStores: seq<int>, lock: Option<Cpu>): State {
    State(map[0 := t], pending, pendingStores, lock, {})
  }

  function Quiet(pc: Pc, depth: nat): Thread {
    Thread(pc, false, [], false, depth)
  }

  /** Into the section. */
  function Enters(): seq<State> {
    [At(Quiet(Outside, 0), 0, [], None), At(Quiet(StartLock, 0), 0, [], None),
     At(Quiet(StartIdle, 0), 0, [], Some(0)), At(Quiet(StartRaise, 0), 0, [], Some(0)),
     At(Quiet(StartFence, 0), 0, [1], Some(0)), At(Quiet(StartFence, 0), 1, [], Some(0)),
     At(Quiet(StartScan({0}, 0), 0), 1, [], Some(0)), At(Quiet(StartScan({}, 0), 0), 1, [], Some(0)),
     At(Quiet(StartPublish(0), 0), 1, [], Some(0)), At(Quiet(StartDrain, 0), 1, [1], Some(0)),
     At(Quiet(StartUnlock, 0), 1, [1], Some(0)), At(Quiet(StartUnlock, 0), 1, [], Some(0)),
     At(Quiet(StartEnter, 0), 1, [], None), At(Quiet(Outside, 1), 1, [], None)]
  }

  /** And into cpu_exec_start. */
  function Sticks(): seq<State> {
    [At(Quiet(ExecSet, 1), 1, [], None), At(Thread(ExecFence, false, [true], false, 1), 1, [], None),
     At(Thread(ExecFence, true, [], false, 1), 1, [], None), At(Thread(ExecRead, true, [], false, 1), 1, [], None),
     At(Thread(ExecLock, true, [], false, 1), 1, [], None), At(Thread(ExecCheck, true, [], false, 1), 1, [], Some(0)),
     At(Thread(ExecRetract, true, [], false, 1), 1, [], Some(0)),
     At(Thread(ExecIdle, true, [false], false, 1), 1, [], Some(0)), At(Quiet(ExecIdle, 1), 1, [], Some(0)),
     At(Quiet(ExecIdleWait, 1), 1, [], None)]
  }

  lemma Claims(k: nat)
    requires k < 4
    ensures Step(true, Enters()[k], Enters()[k + 1], 0)
  {
    var s, s' := Enters()[k], Enters()[k + 1];
    assert s.threads[0 := s'.threads[0]] == s'.threads;
    if k == 0 {
      assert OutsideStep(s, s', 0);
    } else {
      hide OutsideStep, EndStep, ExecStep, QuitStep, FlushRunning, FlushPending;
      assert StartStep(true, s, s', 0);
    }
  }

  lemma Flushes(k: nat)
    requires k == 4 || k == 10
    ensures Step(true, Enters()[k], Enters()[k + 1], 0)
  {
    assert FlushPending(Enters()[k], Enters()[k + 1]);
    hide OutsideStep, StartStep, EndStep, ExecStep, QuitStep, FlushRunning;
  }

  lemma Scans(k: nat)
    requires 5 <= k < 8
    ensures Step(true, Enters()[k], Enters()[k + 1], 0)
  {
    var s, s' := Enters()[k], Enters()[k + 1];
    assert s.threads[0 := s'.threads[0]] == s'.threads && s.threads.Keys == {0};
    var todo: set<Cpu> := {0};
    assert todo - {0} == {};
    hide OutsideStep, EndStep, ExecStep, QuitStep, FlushRunning, FlushPending;
    if k == 6 { assert s' == Scanned(s, 0, 0, todo, 0); }
    assert StartStep(true, s, s', 0);
  }

  lemma Gets(k: nat)
    requires 8 <= k < 13 && k != 10
    ensures Step(true, Enters()[k], Enters()[k + 1], 0)
  {
    var s, s' := Enters()[k], Enters()[k + 1];
    assert s.threads[0 := s'.threads[0]] == s'.threads;
    hide OutsideStep, EndStep, ExecStep, QuitStep, FlushRunning, FlushPending, ScanStep;
    assert StartStep(true, s, s', 0);
  }

  lemma Stores(k: nat)
    requires k == 0 || k == 6
    ensures Step(true, Sticks()[k], Sticks()[k + 1], 0)
  {
    var s, s' := Sticks()[k], Sticks()[k + 1];
    var none: seq<bool> := [];
    assert none + [true] == [true] && none + [false] == [false];
    assert s.threads[0 := s'.threads[0]] == s'.threads;
    hide OutsideStep, StartStep, EndStep, QuitStep, FlushRunning, FlushPending;
    assert ExecStep(true, s, s', 0);
  }

  lemma Drains(k: nat)
    requires k == 1 || k == 7
    ensures Step(true, Sticks()[k], Sticks()[k + 1], 0)
  {
    var s, s' := Sticks()[k], Sticks()[k + 1];
    var none: seq<bool> := [];
    assert [true][1..] == none && [false][1..] == none;
    assert s.threads[0 := s'.threads[0]] == s'.threads;
    hide OutsideStep, StartStep, EndStep, ExecStep, QuitStep, FlushPending;
    assert FlushRunning(s, s', 0);
  }

  /** A move that changes nothing but the place in the code. */
  lemma Goes(s: State, pc: Pc)
    requires 0 in s.threads && s.threads[0].stores == [] && !s.threads[0].hasWaiter && s.pending != 0
    requires match s.threads[0].pc
             case ExecFence => pc == ExecRead
             case ExecRead => pc == ExecLock
             case ExecCheck => pc == ExecRetract
             case _ => false
    ensures Step(true, s, Go(s, 0, pc), 0)
  {
    hide Go;
    assert ExecStep(true, s, Go(s, 0, pc), 0);
    hide ExecStep;
  }

  lemma LooksLike(k: nat)
    requires k == 2 || k == 3 || k == 5
    ensures 0 in Sticks()[k].threads && 0 in Sticks()[k + 1].threads
    ensures Sticks()[k + 1] == Go(Sticks()[k], 0, Sticks()[k + 1].threads[0].pc)
  {
    var s, s' := Sticks()[k], Sticks()[k + 1];
    assert s.threads[0 := s'.threads[0]] == s'.threads;
  }

  lemma Looks(k: nat)
    requires k == 2 || k == 3 || k == 5
    ensures Step(true, Sticks()[k], Sticks()[k + 1], 0)
  {
    hide Step, Go;
    LooksLike(k);
    Goes(Sticks()[k], Sticks()[k + 1].threads[0].pc);
  }

  lemma Waits(k: nat)
    requires k == 4 || k == 8
    ensures Step(true, Sticks()[k], Sticks()[k + 1], 0)
  {
    var s, s' := Sticks()[k], Sticks()[k + 1];
    assert s.threads[0 := s'.threads[0]] == s'.threads;
    var none: set<Cpu> := {};
    assert none - {0} == none;
    hide OutsideStep, StartStep, EndStep, QuitStep, FlushRunning, FlushPending;
    assert if k == 4 then Acquire(s, s', 0, ExecCheck) else Release(s, s', 0, ExecIdleWait);
    hide Acquire, Release;
    assert ExecStep(true, s, s', 0);
  }

  lemma Nests()
    ensures Step(true, Enters()[13], Sticks()[0], 0)
  {
    assert OutsideStep(Enters()[13], Sticks()[0], 0);
  }

  function TheRun(): seq<State> {
    Enters() + Sticks()
  }

  /** A run at whose end the thread sleeps in its own section; by NestedExecStays it never gets out again. */
  lemma NestedExecSticks()
    ensures Run(true, TheRun(), seq(23, _ => 0))
    ensures var t := TheRun()[23].threads[0]; Nested(t) && t.pc == ExecIdleWait && TheRun()[23].woken == {}
  {
    var r, who := TheRun(), seq(23, _ => 0);
    assert Init(r[0]);
    hide Step;
    forall i | 0 <= i < |who| ensures Step(true, r[i], r[i + 1], who[i]) {
      if i < 4 { Claims(i); }
      else if i == 4 || i == 10 { Flushes(i); }
      else if i < 8 { Scans(i); }
      else if i < 13 { Gets(i); }
      else if i == 13 { Nests(); }
      else if i == 14 || i == 20 { Stores(i - 14); }
      else if i == 15 || i == 21 { Drains(i - 14); }
      else if i == 18 || i == 22 { Waits(i - 14); }
      else { Looks(i - 14); }
    }
  }
}
