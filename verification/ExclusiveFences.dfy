/**
 The smp_mb() calls of cpu-common.c are needed: without them two CPUs reach a
 state where one is in an exclusive section while the other executes.
 */
module ExclusiveFences {
  import opened Common
  import opened Exclusive

  function Pair(p0: Pc, depth0: nat, p1: Pc, stores1: seq<bool>, pending: int, buffered: seq<int>,
                lock: Option<Cpu>): State
  {
    State(map[0 := Thread(p0, false, [], false, depth0), 1 := Thread(p1, false, stores1, false, 0)],
          pending, buffered, lock, {})
  }

  /** CPU 1 starts to execute; its write to `running` stays in its buffer. */
  function FirstHalf(): seq<State> {
    [Pair(Outside, 0, Outside, [], 0, [], None),
     Pair(Outside, 0, ExecSet, [], 0, [], None),
     Pair(Outside, 0, ExecFence, [true], 0, [], None),
     Pair(Outside, 0, ExecRead, [true], 0, [], None),
     Pair(Outside, 0, Executing, [true], 0, [], None),
     Pair(StartLock, 0, Executing, [true], 0, [], None),
     Pair(StartIdle, 0, Executing, [true], 0, [], Some(0)),
     Pair(StartRaise, 0, Executing, [true], 0, [], Some(0)),
     Pair(StartFence, 0, Executing, [true], 0, [1], Some(0))]
  }

  /** CPU 0 scans, sees no running CPU and enters its section. */
  function SecondHalf(): seq<State> {
    [Pair(StartScan({0, 1}, 0), 0, Executing, [true], 0, [1], Some(0)),
     Pair(StartScan({0}, 0), 0, Executing, [true], 0, [1], Some(0)),
     Pair(StartScan({}, 0), 0, Executing, [true], 0, [1], Some(0)),
     Pair(StartPublish(0), 0, Executing, [true], 0, [1], Some(0)),
     Pair(StartDrain, 0, Executing, [true], 0, [1, 1], Some(0)),
     Pair(StartUnlock, 0, Executing, [true], 0, [1, 1], Some(0)),
     Pair(StartUnlock, 0, Executing, [true], 1, [1], Some(0)),
     Pair(StartUnlock, 0, Executing, [true], 1, [], Some(0)),
     Pair(StartEnter, 0, Executing, [true], 1, [], None),
     Pair(Outside, 1, Executing, [true], 1, [], None)]
  }

  lemma ExecSteps(i: nat)
    requires i < 4
    ensures Step(false, FirstHalf()[i], FirstHalf()[i + 1], 1)
  {
    var s, s' := FirstHalf()[i], FirstHalf()[i + 1];
    assert s'.threads == s.threads[1 := s'.threads[1]];
    if i == 0 {
      assert OutsideStep(s, s', 1);
    } else {
      assert s.threads[1].stores + [true] == (if i == 1 then [true] else [true, true]);
      assert ExecStep(false, s, s', 1);
    }
  }

  lemma EnterSteps(i: nat)
    requires 4 <= i < 8
    ensures Step(false, FirstHalf()[i], FirstHalf()[i + 1], 0)
  {
    var s, s' := FirstHalf()[i], FirstHalf()[i + 1];
    assert s'.threads == s.threads[0 := s'.threads[0]];
    assert s.woken - {0} == {};
    if i == 4 {
      assert OutsideStep(s, s', 0);
    } else {
      assert StartStep(false, s, s', 0);
    }
  }

  lemma ScanSteps(i: nat)
    requires i < 4
    ensures Step(false, SecondHalf()[i], SecondHalf()[i + 1], 0)
  {
    var s, s' := SecondHalf()[i], SecondHalf()[i + 1];
    assert s'.threads == s.threads[0 := s'.threads[0]];
    if i == 0 {
      assert {0, 1} - {1} == {0};
      assert s' == Scanned(s, 0, 1, {0, 1}, 0);
    } else if i == 1 {
      assert {0} - {0} == {};
      assert s' == Scanned(s, 0, 0, {0}, 0);
    }
    assert StartStep(false, s, s', 0);
  }

  lemma DrainSteps(i: nat)
    requires 4 <= i < 9
    ensures Step(false, SecondHalf()[i], SecondHalf()[i + 1], 0)
  {
    var s, s' := SecondHalf()[i], SecondHalf()[i + 1];
    assert s'.threads == s.threads[0 := s'.threads[0]];
    if i == 5 || i == 6 {
      assert FlushPending(s, s');
    } else {
      assert StartStep(false, s, s', 0);
    }
  }

  lemma AllSteps(i: nat)
    requires i < 18
    ensures Step(false, (FirstHalf() + SecondHalf())[i], (FirstHalf() + SecondHalf())[i + 1], if i < 4 then 1 else 0)
  {
    hide Step;
    if i < 4 {
      ExecSteps(i);
    } else if i < 8 {
      EnterSteps(i);
    } else if i == 8 {
      FenceStep();
    } else if i < 13 {
      ScanSteps(i - 9);
    } else {
      DrainSteps(i - 9);
    }
  }

  lemma FenceStep()
    ensures Step(false, FirstHalf()[8], SecondHalf()[0], 0)
  {
    var s, s' := FirstHalf()[8], SecondHalf()[0];
    assert s.threads.Keys == {0, 1};
    assert s'.threads == s.threads[0 := s'.threads[0]];
    assert StartStep(false, s, s', 0);
  }

  /** Some thread is in a section while some CPU executes. */
  predicate Overlap(s: State) {
    exists c, d :: c in s.threads && d in s.threads && InSection(s.threads[c]) && s.threads[d].pc == Executing
  }

  /** Without the barriers mutual exclusion fails. */
  lemma FencesNeeded()
    ensures exists r: seq<State>, who: seq<Cpu>, i: nat :: Run(false, r, who) && i < |r| && Overlap(r[i])
  {
    var r := FirstHalf() + SecondHalf();
    var who := seq(18, i => if i < 4 then 1 else 0);
    forall i | 0 <= i < 18 ensures Step(false, r[i], r[i + 1], who[i]) {
      AllSteps(i);
    }
    hide Step;
    assert Run(false, r, who);
    assert InSection(r[18].threads[0]) && r[18].threads[1].pc == Executing;
    assert Overlap(r[18]);
  }
}
