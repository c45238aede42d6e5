/**
 No thread of the exclusive-section protocol is left asleep: whoever sleeps has
 been woken, or a thread that is awake still has to make the step that wakes it.
 The one exception is a thread that calls cpu_exec_start in its own section.
 */
module ExclusiveProgress {
  import opened Common
  import opened Exclusive

  predicate Sleeps(pc: Pc) {
    pc.StartIdleWait? || pc.ExecIdleWait? || pc.StartDrainWait?
  }

  predicate AwaitsResume(pc: Pc) {
    pc.StartIdleWait? || pc.ExecIdleWait?
  }

  ghost predicate OwnerExists(s: State) {
    exists o :: o in s.threads && Owns(s.threads[o])
  }

  /** A sleeper that has not been woken still waits for a write or a wake to come. */
  predicate SleeperOk(s: State, c: Cpu)
    requires c in s.threads
  {
    && (AwaitsResume(s.threads[c].pc) && c !in s.woken ==> Pending(s) != 0 || HolderPc(s) == EndBroadcast)
    && (s.threads[c].pc.StartDrainWait? && c !in s.woken ==>
          Pending(s) > 1 || HolderPc(s) == QuitTest || HolderPc(s) == QuitSignal)
  }

  ghost predicate Live(s: State) {
    && Inv(s)
    && (Pending(s) != 0 ==> OwnerExists(s))
    && forall c :: c in s.threads ==> SleeperOk(s, c)
  }

  lemma InitLive(s: State)
    requires Init(s)
    ensures Live(s)
  {
    InitInv(s);
    hide Inv;
  }

  /** What a step leaves alone. */
  predicate Frame(s: State, s': State, c: Cpu)
    requires c in s.threads
  {
    && s'.threads.Keys == s.threads.Keys
    && (forall d :: d in s.threads && d != c ==>
          s'.threads[d].pc == s.threads[d].pc && s'.threads[d].depth == s.threads[d].depth)
    && (forall d :: d != c && d in s.woken ==> d in s'.woken)
    && (s'.lock == s.lock || s.lock == None || s.lock == Some(c))
  }

  lemma StartFrame(s: State, s': State, c: Cpu)
    requires Inv(s) && c in s.threads && StartStep(true, s, s', c)
    ensures Frame(s, s', c)
  {
    hide Inv;
    LocalFacts(s, c);
    hide ThreadInv, PendingOk, MarkPc, Pending;
  }

  lemma QuitFrame(s: State, s': State, c: Cpu)
    requires Inv(s) && c in s.threads && QuitStep(true, s, s', c)
    ensures Frame(s, s', c)
  {
    hide Inv;
    LocalFacts(s, c);
    hide ThreadInv, PendingOk, MarkPc, Pending;
  }

  lemma StepFrame(s: State, s': State, c: Cpu)
    requires Inv(s) && Step(true, s, s', c)
    ensures Frame(s, s', c)
  {
    hide Inv;
    LocalFacts(s, c);
    hide ThreadInv, PendingOk, MarkPc, Pending, StartStep, QuitStep;
    if StartStep(true, s, s', c) {
      StartFrame(s, s', c);
    } else if QuitStep(true, s, s', c) {
      QuitFrame(s, s', c);
    }
  }

  /** Steps that change pending_cpus, or that a sleeper waits for. */
  predicate Notable(pc: Pc) {
    || pc.StartRaise? || pc.StartPublish? || pc.EndClear? || pc.EndBroadcast?
    || pc.QuitDec? || pc.QuitTest? || pc.QuitSignal?
  }

  lemma PlainPending(s: State, s': State, c: Cpu)
    requires Step(true, s, s', c)
    requires !Notable(s.threads[c].pc) || FlushRunning(s, s', c) || FlushPending(s, s')
    ensures Pending(s') == Pending(s)
    ensures s.threads[c].pc == s'.threads[c].pc || !Notable(s.threads[c].pc)
  {
    if StartStep(true, s, s', c) {
    } else if EndStep(s, s', c) {
    } else if ExecStep(true, s, s', c) {
    } else if QuitStep(true, s, s', c) {
    }
  }

  lemma PlainKeepsSleeper(s: State, s': State, c: Cpu, d: Cpu)
    requires Inv(s) && Step(true, s, s', c) && d in s.threads && d != c && SleeperOk(s, d)
    requires !Notable(s.threads[c].pc) || FlushRunning(s, s', c) || FlushPending(s, s')
    ensures d in s'.threads && SleeperOk(s', d)
  {
    hide Inv;
    StepFrame(s, s', c);
    PlainPending(s, s', c);
    LocalFacts(s, c);
    hide Step, Pending, ThreadInv, PendingOk;
    if s.lock.Some? && s.lock.value != c { HolderStays(s, s', c); }
  }

  lemma HolderStays(s: State, s': State, c: Cpu)
    requires Inv(s) && c in s.threads && Frame(s, s', c) && s.lock.Some? && s.lock.value != c
    ensures HolderPc(s') == HolderPc(s)
  {
    assert s.lock.value in s.threads by { hide ThreadInv, OneOwner, OwnerPending, Accounting, Guarded; }
    hide Inv;
  }

  lemma DecKeepsSleeper(s: State, s': State, c: Cpu, d: Cpu)
    requires Inv(s) && c in s.threads && Frame(s, s', c) && QuitStep(true, s, s', c)
    requires d in s.threads && d != c && SleeperOk(s, d) && s.threads[c].pc.QuitDec?
    ensures SleeperOk(s', d)
  {
    hide Inv;
    LocalFacts(s, d);
    HolderFacts(s, c, d);
    DecFacts(s, c, d);
  }

  lemma TestKeepsSleeper(s: State, s': State, c: Cpu, d: Cpu)
    requires Inv(s) && c in s.threads && Frame(s, s', c) && QuitStep(true, s, s', c)
    requires d in s.threads && d != c && SleeperOk(s, d) && s.threads[c].pc.QuitTest?
    ensures SleeperOk(s', d)
  {
    hide Inv;
    LocalFacts(s, d);
    HolderFacts(s, c, d);
  }

  /** The signal wakes threads and does nothing else. */
  lemma SignalIs(s: State, s': State, c: Cpu)
    requires c in s.threads && QuitStep(true, s, s', c) && s.threads[c].pc.QuitSignal?
    ensures SignalStep(s, s', c) && Pending(s') == Pending(s)
  {
  }

  lemma SignalKeepsSleeper(s: State, s': State, c: Cpu, d: Cpu)
    requires Inv(s) && c in s.threads && Frame(s, s', c) && QuitStep(true, s, s', c)
    requires d in s.threads && d != c && SleeperOk(s, d) && s.threads[c].pc.QuitSignal?
    ensures SleeperOk(s', d)
  {
    hide Inv;
    SignalIs(s, s', c);
    hide QuitStep, Pending, SignalStep;
    HolderFacts(s, c, d);
    if s.threads[d].pc.StartDrainWait? { SignalWakes(s, s', c, d); }
  }

  lemma QuitKeepsSleeper(s: State, s': State, c: Cpu, d: Cpu)
    requires Inv(s) && c in s.threads && Frame(s, s', c) && QuitStep(true, s, s', c)
    requires d in s.threads && d != c && SleeperOk(s, d)
    requires s.threads[c].pc.QuitDec? || s.threads[c].pc.QuitTest? || s.threads[c].pc.QuitSignal?
    ensures SleeperOk(s', d)
  {
    assert d in s'.threads;
    hide Inv, Frame, QuitStep, SleeperOk;
    if s.threads[c].pc.QuitDec? { DecKeepsSleeper(s, s', c, d); }
    else if s.threads[c].pc.QuitTest? { TestKeepsSleeper(s, s', c, d); }
    else { SignalKeepsSleeper(s, s', c, d); }
  }

  lemma OwnerKeepsSleeper(s: State, s': State, c: Cpu, d: Cpu)
    requires Inv(s) && c in s.threads && Frame(s, s', c) && (StartStep(true, s, s', c) || EndStep(s, s', c))
    requires d in s.threads && d != c && SleeperOk(s, d) && Notable(s.threads[c].pc)
    ensures SleeperOk(s', d)
  {
    hide Inv;
    LocalFacts(s, c);
    LocalFacts(s, d);
    HolderFacts(s, c, d);
    if s.threads[c].pc.StartPublish? || s.threads[c].pc.EndClear? { OwnerFacts(s, c, d); }
  }

  lemma NotableKeepsSleeper(s: State, s': State, c: Cpu, d: Cpu)
    requires Inv(s) && Step(true, s, s', c) && d in s.threads && d != c && SleeperOk(s, d)
    requires Notable(s.threads[c].pc) && !FlushRunning(s, s', c) && !FlushPending(s, s')
    ensures d in s'.threads && SleeperOk(s', d)
  {
    hide Inv, FlushRunning, FlushPending, SleeperOk;
    StepFrame(s, s', c);
    if QuitStep(true, s, s', c) {
      QuitKeepsSleeper(s, s', c, d);
    } else {
      OwnerKeepsSleeper(s, s', c, d);
    }
  }

  /** The signal on exclusive_cond reaches the one thread that can wait for it. */
  lemma SignalWakes(s: State, s': State, c: Cpu, d: Cpu)
    requires Inv(s) && c in s.threads && d in s.threads && s.threads[d].pc.StartDrainWait? && SignalStep(s, s', c)
    ensures d in s'.woken
  {
    hide Inv;
    var e :| e in s.threads && s.threads[e].pc.StartDrainWait? && s' == Go(s, c, QuitUnlock).(woken := s.woken + {e});
    if e != d { OwnerFacts(s, d, e); }
  }

  lemma StartSleep(s: State, s': State, c: Cpu)
    requires Inv(s) && c in s.threads && StartStep(true, s, s', c) && Frame(s, s', c)
    ensures SleeperOk(s', c)
  {
    hide Inv, Frame;
    if Sleeps(s'.threads[c].pc) {
      assert (s.threads[c].pc.StartIdle? && Pending(s) != 0) || (s.threads[c].pc.StartDrain? && Pending(s) > 1);
      assert s'.pending == s.pending && s'.pendingStores == s.pendingStores && s'.threads[c].pc != ExecIdleWait;
    }
    hide StartStep;
  }

  lemma ExecSleep(s: State, s': State, c: Cpu)
    requires Inv(s) && c in s.threads && ExecStep(true, s, s', c) && Frame(s, s', c)
    ensures SleeperOk(s', c)
  {
    hide Inv, Frame;
    if Sleeps(s'.threads[c].pc) {
      assert s.threads[c].pc.ExecIdle? && Pending(s) != 0 && s'.threads[c].pc.ExecIdleWait?;
      assert s'.pending == s.pending && s'.pendingStores == s.pendingStores;
    }
    hide ExecStep;
  }

  lemma FlushSleep(s: State, s': State, c: Cpu)
    requires Step(true, s, s', c) && SleeperOk(s, c) && (FlushRunning(s, s', c) || FlushPending(s, s'))
    ensures SleeperOk(s', c)
  {
    PlainPending(s, s', c);
    assert s'.threads[c].pc == s.threads[c].pc && s'.woken == s.woken;
    assert HolderPc(s') == HolderPc(s);
    hide Step, Pending, FlushRunning, FlushPending;
  }

  lemma OwnSleep(s: State, s': State, c: Cpu)
    requires Inv(s) && Step(true, s, s', c) && SleeperOk(s, c) && Frame(s, s', c)
    ensures SleeperOk(s', c)
  {
    hide Inv, Frame, StartStep, ExecStep, FlushRunning, FlushPending;
    if FlushRunning(s, s', c) || FlushPending(s, s') {
      hide Step, SleeperOk;
      FlushSleep(s, s', c);
    } else if StartStep(true, s, s', c) {
      hide Step, SleeperOk;
      StartSleep(s, s', c);
    } else if ExecStep(true, s, s', c) {
      hide Step, SleeperOk;
      ExecSleep(s, s', c);
    } else {
      assert !Sleeps(s'.threads[c].pc);
      hide Step, Pending;
    }
  }

  lemma StepKeepsOwner(s: State, s': State, c: Cpu)
    requires Live(s) && Step(true, s, s', c) && Pending(s') != 0
    ensures OwnerExists(s')
  {
    hide Inv;
    LocalFacts(s, c);
    if Pending(s) == 0 {
      if Notable(s.threads[c].pc) && !FlushRunning(s, s', c) && !FlushPending(s, s') {
        IdleFacts(s, c);
        if s.threads[c].pc == QuitDec { DecFacts(s, c, c); }
        assert Owns(s'.threads[c]);
      } else {
        PlainPending(s, s', c);
      }
    } else {
      var o :| o in s.threads && Owns(s.threads[o]);
      if o == c {
        OwnerStays(s, s', c);
      } else {
        StepFrame(s, s', c);
      }
      assert Owns(s'.threads[o]);
    }
  }

  lemma OwnerStays(s: State, s': State, c: Cpu)
    requires Inv(s) && Step(true, s, s', c) && Owns(s.threads[c]) && Pending(s') != 0
    ensures c in s'.threads && Owns(s'.threads[c])
  {
    hide Inv;
    LocalFacts(s, c);
    if FlushRunning(s, s', c) || FlushPending(s, s') {
    } else if StartStep(true, s, s', c) {
      hide EndStep, ExecStep, QuitStep, OutsideStep, FlushRunning, FlushPending, Step;
    } else if EndStep(s, s', c) {
    } else if ExecStep(true, s, s', c) {
      hide EndStep, StartStep, QuitStep, OutsideStep, FlushRunning, FlushPending, Step;
    } else if QuitStep(true, s, s', c) {
    }
  }

  lemma StepKeepsLive(s: State, s': State, c: Cpu)
    requires Live(s) && Step(true, s, s', c)
    ensures Live(s')
  {
    StepKeepsInv(s, s', c);
    if Pending(s') != 0 { StepKeepsOwner(s, s', c); }
    forall d | d in s'.threads ensures SleeperOk(s', d) {
      hide Inv;
      StepFrame(s, s', c);
      if d == c {
        OwnSleep(s, s', c);
      } else if Notable(s.threads[c].pc) && !FlushRunning(s, s', c) && !FlushPending(s, s') {
        NotableKeepsSleeper(s, s', c, d);
      } else {
        PlainKeepsSleeper(s, s', c, d);
      }
    }
    hide Inv, Step, SleeperOk;
  }

  lemma {:induction false} RunLive(r: seq<State>, who: seq<Cpu>, i: nat)
    requires Run(true, r, who) && i < |r|
    ensures Live(r[i])
  {
    if i == 0 {
      InitLive(r[0]);
    } else {
      RunLive(r, who, i - 1);
      StepKeepsLive(r[i - 1], r[i], who[i - 1]);
    }
  }

  // --------------------------------------------------------- main results

  /** h is awake and is the thread whose next steps lead to the wake of c. */
  predicate Helps(s: State, h: Cpu) {
    && h in s.threads && !Sleeps(s.threads[h].pc)
    && (Owns(s.threads[h]) || Counted(s.threads[h]) ||
        (s.lock == Some(h) && (s.threads[h].pc in {EndBroadcast, QuitTest, QuitSignal})))
  }

  /** No thread called cpu_exec_start inside its own exclusive section. */
  predicate NoNestedExec(s: State) {
    forall c :: c in s.threads && s.threads[c].depth > 0 ==> s.threads[c].pc == Outside
  }

  lemma CountedAwake(s: State, d: Cpu)
    requires Inv(s) && d in s.threads && Counted(s.threads[d])
    ensures !Sleeps(s.threads[d].pc)
  {
    hide Inv;
    LocalFacts(s, d);
  }

  lemma HolderHelps(s: State)
    requires Inv(s) && HolderPc(s) in {EndBroadcast, QuitTest, QuitSignal}
    ensures s.lock.Some? && Helps(s, s.lock.value)
  {
    hide Inv;
  }

  /** The owner is awake, or waits for a counted CPU, which is awake. */
  lemma OwnerHelps(s: State, o: Cpu) returns (h: Cpu)
    requires Live(s) && NoNestedExec(s) && o in s.threads && Owns(s.threads[o])
    requires Sleeps(s.threads[o].pc) ==> o !in s.woken
    ensures Helps(s, h)
  {
    hide Inv;
    h := o;
    if Sleeps(s.threads[o].pc) {
      assert s.threads[o].pc.StartDrainWait?;
      if HolderPc(s) in {EndBroadcast, QuitTest, QuitSignal} {
        HolderHelps(s);
        h := s.lock.value;
      } else {
        assert Pending(s) > 1;
        CountAtOwner(s, o);
        h :| h in CountedSet(s);
        CountedAwake(s, h);
      }
    }
  }

  /**
   Whoever sleeps without having been woken is waited on by a thread that is
   awake: the owner of the section, a counted CPU, or the thread that is about
   to send the wake.  The owner itself may sleep only with its wake on the way.
   */
  lemma NobodyStuck(r: seq<State>, who: seq<Cpu>, i: nat, c: Cpu)
    requires Run(true, r, who) && i < |r| && c in r[i].threads && NoNestedExec(r[i])
    requires Sleeps(r[i].threads[c].pc) && c !in r[i].woken
    ensures exists h :: h != c && h in r[i].threads &&
              (Helps(r[i], h) || (r[i].threads[h].pc.StartDrainWait? && h in r[i].woken))
  {
    RunLive(r, who, i);
    var s := r[i];
    hide Inv;
    if HolderPc(s) in {EndBroadcast, QuitTest, QuitSignal} {
      HolderHelps(s);
      assert s.lock.value != c;
    } else {
      assert SleeperOk(s, c) && Pending(s) != 0;
      var o :| o in s.threads && Owns(s.threads[o]);
      if Sleeps(s.threads[o].pc) && o in s.woken {
      } else {
        var h := OwnerHelps(s, o);
      }
    }
  }

  predicate Acquires(pc: Pc) {
    pc.StartLock? || pc.EndLock? || pc.ExecLock? || pc.QuitLock?
  }

  /** No store of the thread or of the lock holder is still in a buffer. */
  predicate Drained(s: State, c: Cpu)
    requires c in s.threads
  {
    s.threads[c].stores == [] && s.pendingStores == []
  }

  lemma StartMoves(s: State, c: Cpu) returns (s': State)
    requires Inv(s) && c in s.threads && Drained(s, c)
    requires Acquires(s.threads[c].pc) ==> s.lock == None
    requires match s.threads[c].pc
             case StartLock | StartIdle | StartRaise | StartFence | StartScan(_, _) | StartMark(_, _, _)
               | StartPublish(_) | StartDrain | StartUnlock | StartEnter => true
             case _ => false
    ensures StartStep(true, s, s', c) && c in s'.threads
  {
    hide Inv;
    LocalFacts(s, c);
    hide ThreadInv, PendingOk, Pending;
    match s.threads[c].pc
    case StartLock => s' := Go(s, c, StartIdle).(lock := Some(c), woken := s.woken - {c});
    case StartIdle => s' := if Pending(s) != 0 then Go(s, c, StartIdleWait).(lock := None) else Go(s, c, StartRaise);
    case StartRaise => s' := StorePending(s, c, 1, StartFence);
    case StartFence => s' := Go(s, c, StartScan(s.threads.Keys, 0));
    case StartScan(todo, n) =>
      if todo == {} {
        s' := Go(s, c, StartPublish(n));
      } else {
        ScanCount(s, c);
        var o :| o in todo;
        s' := Scanned(s, c, o, todo, n);
      }
    case StartMark(todo, o, n) =>
      ScanCount(s, c);
      s' := Go(Put(s, o, s.threads[o].(hasWaiter := true)), c, StartScan(todo, n + 1));
    case StartPublish(n) => s' := StorePending(s, c, n + 1, StartDrain);
    case StartDrain => s' := if Pending(s) > 1 then Go(s, c, StartDrainWait).(lock := None) else Go(s, c, StartUnlock);
    case StartUnlock => s' := Go(s, c, StartEnter).(lock := None);
    case StartEnter => s' := Put(s, c, s.threads[c].(depth := 1, pc := Outside));
  }

  lemma EndMoves(s: State, c: Cpu) returns (s': State)
    requires c in s.threads && Drained(s, c)
    requires Acquires(s.threads[c].pc) ==> s.lock == None
    requires s.threads[c].pc in {EndLock, EndClear, EndBroadcast, EndUnlock}
    ensures EndStep(s, s', c) && c in s'.threads
  {
    match s.threads[c].pc
    case EndLock => s' := Go(s, c, EndClear).(lock := Some(c), woken := s.woken - {c});
    case EndClear => s' := StorePending(s, c, 0, EndBroadcast);
    case EndBroadcast => s' := Go(s, c, EndUnlock).(woken := s.woken + Resumers(s));
    case EndUnlock => s' := Go(s, c, Outside).(lock := None);
  }

  lemma ExecMoves(s: State, c: Cpu) returns (s': State)
    requires c in s.threads && Drained(s, c)
    requires Acquires(s.threads[c].pc) ==> s.lock == None
    requires match s.threads[c].pc
             case ExecSet | ExecFence | ExecRead | ExecLock | ExecCheck | ExecRetract | ExecIdle
               | ExecSetAgain | ExecUnlock | Executing => true
             case _ => false
    ensures ExecStep(true, s, s', c) && c in s'.threads
  {
    var t := s.threads[c];
    match t.pc
    case ExecSet => s' := StoreRunning(s, c, true, ExecFence);
    case ExecFence => s' := Go(s, c, ExecRead);
    case ExecRead => s' := Go(s, c, if s.pending != 0 then ExecLock else Executing);
    case ExecLock => s' := Go(s, c, ExecCheck).(lock := Some(c), woken := s.woken - {c});
    case ExecCheck => s' := Go(s, c, if t.hasWaiter then ExecUnlock else ExecRetract);
    case ExecRetract => s' := StoreRunning(s, c, false, ExecIdle);
    case ExecIdle => s' := if Pending(s) != 0 then Go(s, c, ExecIdleWait).(lock := None) else Go(s, c, ExecSetAgain);
    case ExecSetAgain => s' := StoreRunning(s, c, true, ExecUnlock);
    case ExecUnlock => s' := Go(s, c, Executing).(lock := None);
    case Executing => s' := Go(s, c, QuitClear);
  }

  lemma QuitMoves(s: State, c: Cpu) returns (s': State)
    requires c in s.threads && Drained(s, c)
    requires Acquires(s.threads[c].pc) ==> s.lock == None
    requires match s.threads[c].pc
             case QuitClear | QuitFence | QuitRead | QuitLock | QuitCheck | QuitUnmark | QuitDec
               | QuitTest | QuitSignal | QuitUnlock => true
             case _ => false
    ensures QuitStep(true, s, s', c) && c in s'.threads
  {
    var t := s.threads[c];
    match t.pc
    case QuitClear => s' := StoreRunning(s, c, false, QuitFence);
    case QuitFence => s' := Go(s, c, QuitRead);
    case QuitRead => s' := Go(s, c, if s.pending != 0 then QuitLock else Outside);
    case QuitLock => s' := Go(s, c, QuitCheck).(lock := Some(c), woken := s.woken - {c});
    case QuitCheck => s' := Go(s, c, if t.hasWaiter then QuitUnmark else QuitUnlock);
    case QuitUnmark => s' := Put(s, c, t.(hasWaiter := false, pc := QuitDec));
    case QuitDec => s' := StorePending(s, c, Pending(s) - 1, QuitTest);
    case QuitTest => s' := Go(s, c, if Pending(s) == 1 then QuitSignal else QuitUnlock);
    case QuitSignal =>
      if d :| d in s.threads && s.threads[d].pc.StartDrainWait? {
        s' := Go(s, c, QuitUnlock).(woken := s.woken + {d});
      } else {
        s' := Go(s, c, QuitUnlock);
      }
    case QuitUnlock => s' := Go(s, c, Outside).(lock := None);
  }

  /**
   A thread that is awake and not held up by the lock has a next step, if only a store
   to drain; the owner of the section can always end it.
   */
  lemma AwakeMoves(s: State, c: Cpu) returns (s': State)
    requires Inv(s) && c in s.threads && !Sleeps(s.threads[c].pc)
    requires Acquires(s.threads[c].pc) ==> s.lock == None
    ensures Step(true, s, s', c) && c in s'.threads
    ensures s.threads[c].pc == Outside && s.threads[c].depth > 0 ==>
      s'.threads[c].pc == Outside || s'.threads[c].pc == EndLock
    ensures s.threads[c].pc == Outside && s.threads[c].depth > 0 && Drained(s, c) ==>
      s'.threads[c].depth == s.threads[c].depth - 1
  {
    hide Inv;
    var t := s.threads[c];
    hide StartStep, ExecStep, QuitStep, EndStep;
    if s.pendingStores != [] {
      s' := s.(pending := s.pendingStores[0], pendingStores := s.pendingStores[1..]);
      assert FlushPending(s, s');
    } else if t.stores != [] {
      s' := Put(s, c, t.(running := t.stores[0], stores := t.stores[1..]));
      assert FlushRunning(s, s', c);
    } else {
      hide FlushRunning, FlushPending;
      match t.pc
      case Outside =>
        s' := if t.depth == 0 then Go(s, c, ExecSet)
              else Put(s, c, t.(depth := t.depth - 1, pc := if t.depth == 1 then EndLock else Outside));
      case EndLock | EndClear | EndBroadcast | EndUnlock => s' := EndMoves(s, c);
      case StartLock | StartIdle | StartRaise | StartFence | StartScan(_, _) | StartMark(_, _, _)
         | StartPublish(_) | StartDrain | StartUnlock | StartEnter => s' := StartMoves(s, c);
      case QuitClear | QuitFence | QuitRead | QuitLock | QuitCheck | QuitUnmark | QuitDec
         | QuitTest | QuitSignal | QuitUnlock => s' := QuitMoves(s, c);
      case _ => s' := ExecMoves(s, c);
    }
  }

  /**
   No deadlock: in every state of every run, a thread that is awake can move, or
   the thread that holds the lock it wants can.
   */
  lemma NoDeadlock(r: seq<State>, who: seq<Cpu>, i: nat, h: Cpu)
    requires Run(true, r, who) && i < |r| && h in r[i].threads && !Sleeps(r[i].threads[h].pc)
    ensures exists g, s' :: Step(true, r[i], s', g) && (g == h || r[i].lock == Some(g))
  {
    hide Inv, Step;
    RunInv(r, who, i);
    var s := r[i];
    hide Run;
    if Acquires(s.threads[h].pc) && s.lock.Some? {
      var g := s.lock.value;
      LockHolderKnown(s);
      LocalFacts(s, g);
      var s' := AwakeMoves(s, g);
    } else {
      var s' := AwakeMoves(s, h);
    }
  }

  lemma LockHolderKnown(s: State)
    requires Inv(s) && s.lock.Some?
    ensures s.lock.value in s.threads
  {
    hide ThreadInv, OneOwner, OwnerPending, Accounting, Guarded;
  }

  // -------------------------------------------------------- nested sections

  /** The thread is in its section and makes no call. */
  predicate AtRest(s: State, c: Cpu) {
    c in s.threads && s.threads[c].pc == Outside && s.threads[c].depth > 0
  }

  function AtDepth(s: State, c: Cpu, depth: nat, pc: Pc): State
    requires c in s.threads
  {
    Put(s, c, s.threads[c].(depth := depth, pc := pc))
  }

  lemma NestedCalls(s: State, c: Cpu)
    requires AtRest(s, c)
    ensures var d := s.threads[c].depth;
      && Step(true, s, AtDepth(s, c, d + 1, Outside), c)
      && Step(true, AtDepth(s, c, d + 1, Outside), s, c)
      && (d == 1 ==> Step(true, s, AtDepth(s, c, 0, EndLock), c))
  {
    var t := s.threads[c];
    var s' := AtDepth(s, c, t.depth + 1, Outside);
    assert OutsideStep(s, s', c);
    assert s'.threads[c := t] == s.threads;
    assert Put(s', c, s'.threads[c].(depth := s'.threads[c].depth - 1, pc := Outside)) == s;
    assert OutsideStep(s', s, c);
    if t.depth == 1 { assert OutsideStep(s, AtDepth(s, c, 0, EndLock), c); }
    hide StartStep, EndStep, ExecStep, QuitStep, FlushRunning, FlushPending;
  }

  /**
   Sections nest: after n more calls of start_exclusive it takes n calls of end_exclusive
   to be where the thread was, and it is in its section all the time; at depth 1 the next
   end_exclusive leaves the section.
   */
  lemma {:induction false} SectionsNest(s: State, c: Cpu, n: nat) returns (r: seq<State>)
    requires AtRest(s, c)
    ensures |r| == 2 * n + 1 && r[0] == r[2 * n] == s && r[n] == AtDepth(s, c, s.threads[c].depth + n, Outside)
    ensures forall k :: 0 <= k < |r| ==> AtRest(r[k], c) && r[k].threads[c].depth >= s.threads[c].depth
    ensures forall k :: 0 <= k < 2 * n ==> Step(true, r[k], r[k + 1], c)
    ensures s.threads[c].depth == 1 ==> Step(true, s, AtDepth(s, c, 0, EndLock), c)
    decreases n
  {
    NestedCalls(s, c);
    hide Step;
    if n == 0 {
      assert AtDepth(s, c, s.threads[c].depth, Outside).threads == s.threads;
      return [s];
    }
    var deeper := AtDepth(s, c, s.threads[c].depth + 1, Outside);
    var mid := SectionsNest(deeper, c, n - 1);
    r := [s] + mid + [s];
    assert deeper.threads[c].depth + (n - 1) == s.threads[c].depth + n;
    assert r[n] == mid[n - 1];
    assert forall k :: 0 < k < 2 * n ==> r[k] == mid[k - 1];
  }

  /** The thread has called cpu_exec_start in its own section. */
  predicate Nested(t: Thread) {
    t.depth > 0 && t.pc != Outside
  }

  lemma NestedStep(s: State, s': State, c: Cpu)
    requires Inv(s) && Inv(s') && Step(true, s, s', c) && Nested(s.threads[c])
    ensures c in s'.threads && Nested(s'.threads[c]) && s'.threads[c].depth == s.threads[c].depth
  {
    hide Inv;
    LocalFacts(s, c);
    hide StartStep, EndStep, QuitStep, OutsideStep;
    assert ExecStep(true, s, s', c) || FlushRunning(s, s', c) || FlushPending(s, s') by {
      hide Pending;
      NestedExecs(s, s', c);
    }
    hide Step, Pending;
  }

  lemma NestedExecs(s: State, s': State, c: Cpu)
    requires Step(true, s, s', c) && Nested(s.threads[c]) && NestedPc(s.threads[c].pc)
    ensures ExecStep(true, s, s', c) || FlushRunning(s, s', c) || FlushPending(s, s')
  {
    hide ExecStep, FlushRunning, FlushPending;
  }

  lemma NestedIsStuck(s: State, c: Cpu)
    requires Inv(s) && c in s.threads && Nested(s.threads[c])
    ensures !Executes(s.threads[c].pc) && NestedPc(s.threads[c].pc)
  {
    hide Inv;
    LocalFacts(s, c);
  }

  /**
   Why NobodyStuck asks for NoNestedExec: a thread that calls cpu_exec_start in its
   own section never executes and never gets out again, whatever the others do.
   */
  lemma {:induction false} NestedExecStays(r: seq<State>, who: seq<Cpu>, i: nat, m: nat, c: Cpu)
    requires Run(true, r, who) && i <= m < |r| && c in r[i].threads && Nested(r[i].threads[c])
    ensures c in r[m].threads && r[m].threads[c].depth == r[i].threads[c].depth
    ensures r[m].threads[c].pc != Outside && !Executes(r[m].threads[c].pc)
    decreases m
  {
    hide Inv, Step, Init;
    RunInv(r, who, m);
    if i < m {
      NestedExecStays(r, who, i, m - 1, c);
      RunInv(r, who, m - 1);
      assert Step(true, r[m - 1], r[m], who[m - 1]);
      if who[m - 1] != c {
        StepFrame(r[m - 1], r[m], who[m - 1]);
      } else {
        NestedStep(r[m - 1], r[m], c);
      }
    }
    NestedIsStuck(r[m], c);
  }

  /** In exclusive_idle. */
  predicate InIdle(pc: Pc) {
    pc.StartIdle? || pc.StartIdleWait? || pc.ExecIdle? || pc.ExecIdleWait?
  }

  lemma NestedFacts(s: State, c: Cpu, d: Cpu)
    requires Inv(s) && c in s.threads && d in s.threads && Nested(s.threads[c])
    ensures Pending(s) != 0 && (Sleeps(s.threads[d].pc) ==> InIdle(s.threads[d].pc))
  {
    hide Inv;
    LocalFacts(s, c);
    if c != d { OwnerFacts(s, c, d); }
  }

  /** Nobody leaves exclusive_idle while pending_cpus is not 0. */
  lemma IdleStays(s: State, s': State, d: Cpu)
    requires Step(true, s, s', d) && InIdle(s.threads[d].pc) && Pending(s) != 0
    ensures d in s'.threads && InIdle(s'.threads[d].pc)
  {
    hide Pending;
    if StartStep(true, s, s', d) {
      hide ExecStep, QuitStep, EndStep, OutsideStep;
    } else if ExecStep(true, s, s', d) {
      hide StartStep, QuitStep, EndStep, OutsideStep;
    } else {
      hide StartStep, ExecStep;
    }
  }

  lemma StepIdleStays(s: State, s': State, who: Cpu, c: Cpu, d: Cpu)
    requires Inv(s) && Step(true, s, s', who) && c in s.threads && d in s.threads && Nested(s.threads[c])
    requires InIdle(s.threads[d].pc)
    ensures d in s'.threads && InIdle(s'.threads[d].pc)
  {
    hide Inv, Step, Pending, InIdle;
    NestedFacts(s, c, d);
    if who == d {
      IdleStays(s, s', d);
    } else {
      StepFrame(s, s', who);
    }
  }

  lemma {:induction false} IdleForEver(r: seq<State>, who: seq<Cpu>, i: nat, m: nat, c: Cpu, d: Cpu)
    requires Run(true, r, who) && i <= m < |r| && c in r[i].threads && Nested(r[i].threads[c])
    requires d in r[i].threads && InIdle(r[i].threads[d].pc)
    ensures d in r[m].threads && InIdle(r[m].threads[d].pc)
    decreases m
  {
    hide Inv, Step, Init, InIdle, Executes;
    if i < m {
      IdleForEver(r, who, i, m - 1, c, d);
      NestedExecStays(r, who, i, m - 1, c);
      RunInv(r, who, m - 1);
      assert Step(true, r[m - 1], r[m], who[m - 1]);
      StepIdleStays(r[m - 1], r[m], who[m - 1], c, d);
    }
  }

  /**
   Such a thread takes everybody with it: from then on no CPU executes, nobody else gets
   a section, and whoever sleeps stays in exclusive_idle for ever.
   */
  lemma NestedStopsAll(r: seq<State>, who: seq<Cpu>, i: nat, m: nat, c: Cpu, d: Cpu)
    requires Run(true, r, who) && i <= m < |r| && c in r[i].threads && Nested(r[i].threads[c]) && d in r[i].threads
    ensures d in r[m].threads && !Executes(r[m].threads[d].pc) && (InSection(r[m].threads[d]) ==> d == c)
    ensures Sleeps(r[i].threads[d].pc) ==> InIdle(r[m].threads[d].pc)
  {
    hide Inv, Step, Init, InIdle, Executes, Sleeps;
    NestedExecStays(r, who, i, m, c);
    RunInv(r, who, i);
    RunInv(r, who, m);
    SameThreads(r, who, i, m);
    SectionExcludes(r[m], c, d);
    NestedFacts(r[i], c, d);
    if Sleeps(r[i].threads[d].pc) { IdleForEver(r, who, i, m, c, d); }
  }

  lemma {:induction false} SameThreads(r: seq<State>, who: seq<Cpu>, i: nat, m: nat)
    requires Run(true, r, who) && i <= m < |r|
    ensures r[m].threads.Keys == r[i].threads.Keys
    decreases m
  {
    hide Inv, Step, Init;
    if i < m {
      SameThreads(r, who, i, m - 1);
      RunInv(r, who, m - 1);
      assert Step(true, r[m - 1], r[m], who[m - 1]);
      StepFrame(r[m - 1], r[m], who[m - 1]);
    }
  }
}
