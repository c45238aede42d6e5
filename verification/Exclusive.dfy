/**
 The exclusive-section protocol of cpu-common.c: start_exclusive, end_exclusive,
 cpu_exec_start, cpu_exec_end and exclusive_idle, for any finite set of CPUs.

 Every CPU has one thread.  A step is one shared read, one shared write, one
 lock operation or one condition-variable operation of one thread.  Memory is
 weaker than sequential consistency: the stores a thread makes to its `running`
 flag and to `pending_cpus` sit in store buffers, one buffer for each variable,
 and reach memory at any later moment.  smp_mb() waits until the buffers of the
 thread are empty, and so does every release of qemu_cpu_list_lock.
 `has_waiter` is only touched under the lock and needs no buffer.
 */
module Exclusive {
  import opened Common

  type Cpu = nat

  /** Program counter; each value names the operation that comes next. */
  datatype Pc =
    | Outside
    // start_exclusive
    | StartLock
    | StartIdle
    | StartIdleWait
    | StartRaise
    | StartFence
    | StartScan(todo: set<Cpu>, n: nat)
    | StartMark(todo: set<Cpu>, other: Cpu, n: nat)
    | StartPublish(n: nat)
    | StartDrain
    | StartDrainWait
    | StartUnlock
    | StartEnter
    // end_exclusive
    | EndLock
    | EndClear
    | EndBroadcast
    | EndUnlock
    // cpu_exec_start
    | ExecSet
    | ExecFence
    | ExecRead
    | ExecLock
    | ExecCheck
    | ExecRetract
    | ExecIdle
    | ExecIdleWait
    | ExecSetAgain
    | ExecUnlock
    // between cpu_exec_start and cpu_exec_end
    | Executing
    // cpu_exec_end
    | QuitClear
    | QuitFence
    | QuitRead
    | QuitLock
    | QuitCheck
    | QuitUnmark
    | QuitDec
    | QuitTest
    | QuitSignal
    | QuitUnlock

  /** `depth` is exclusive_context_count; `stores` buffers writes to `running`. */
  datatype Thread = Thread(pc: Pc, running: bool, stores: seq<bool>, hasWaiter: bool, depth: nat)

  /**
   Only the lock holder writes pending_cpus, so one buffer serves all threads.
   `woken` holds the sleeping threads to which a wake has been sent; a sleeping
   thread may also wake up without one.
   */
  datatype State = State(threads: map<Cpu, Thread>, pending: int, pendingStores: seq<int>,
                         lock: Option<Cpu>, woken: set<Cpu>)

  /** The value of pending_cpus that the lock holder reads. */
  function Pending(s: State): int {
    if s.pendingStores == [] then s.pending else s.pendingStores[|s.pendingStores| - 1]
  }

  /** The value of `running` that the thread itself would read. */
  function OwnRunning(t: Thread): bool {
    if t.stores == [] then t.running else t.stores[|t.stores| - 1]
  }

  predicate Init(s: State) {
    && s.pending == 0 && s.pendingStores == [] && s.lock == None && s.woken == {}
    && forall c :: c in s.threads ==> s.threads[c] == Thread(Outside, false, [], false, 0)
  }

  // ---------------------------------------------------------------- steps

  function Put(s: State, c: Cpu, t: Thread): State {
    s.(threads := s.threads[c := t])
  }

  function Go(s: State, c: Cpu, pc: Pc): State
    requires c in s.threads
  {
    Put(s, c, s.threads[c].(pc := pc))
  }

  predicate Acquire(s: State, s': State, c: Cpu, pc: Pc)
    requires c in s.threads
  {
    s.lock == None && s' == Go(s, c, pc).(lock := Some(c), woken := s.woken - {c})
  }

  predicate Release(s: State, s': State, c: Cpu, pc: Pc)
    requires c in s.threads
  {
    s.threads[c].stores == [] && s.pendingStores == [] && s' == Go(s, c, pc).(lock := None)
  }

  function StorePending(s: State, c: Cpu, v: int, pc: Pc): State
    requires c in s.threads
  {
    Go(s, c, pc).(pendingStores := s.pendingStores + [v])
  }

  function StoreRunning(s: State, c: Cpu, v: bool, pc: Pc): State
    requires c in s.threads
  {
    Put(s, c, s.threads[c].(pc := pc, stores := s.threads[c].stores + [v]))
  }

  /** The threads that wait for exclusive_resume. */
  function Resumers(s: State): set<Cpu> {
    set c | c in s.threads && (s.threads[c].pc.StartIdleWait? || s.threads[c].pc.ExecIdleWait?)
  }

  predicate OutsideStep(s: State, s': State, c: Cpu)
    requires c in s.threads
  {
    var t := s.threads[c];
    || s' == (if t.depth > 0 then Put(s, c, t.(depth := t.depth + 1)) else Go(s, c, StartLock))
    || (t.depth > 0 && s' == Put(s, c, t.(depth := t.depth - 1, pc := if t.depth == 1 then EndLock else Outside)))
    || s' == Go(s, c, ExecSet)
  }

  function Scanned(s: State, c: Cpu, o: Cpu, todo: set<Cpu>, n: nat): State
    requires c in s.threads && o in s.threads
  {
    var seen := if o == c then OwnRunning(s.threads[o]) else s.threads[o].running;
    Go(s, c, if seen then StartMark(todo - {o}, o, n) else StartScan(todo - {o}, n))
  }

  predicate ScanStep(s: State, s': State, c: Cpu, todo: set<Cpu>, n: nat)
    requires c in s.threads
  {
    if todo == {} then s' == Go(s, c, StartPublish(n))
    else exists o :: o in todo && o in s.threads && s' == Scanned(s, c, o, todo, n)
  }

  predicate StartStep(fenced: bool, s: State, s': State, c: Cpu)
    requires c in s.threads
  {
    var t := s.threads[c];
    match t.pc
    case StartLock => Acquire(s, s', c, StartIdle)
    case StartIdle =>
      if Pending(s) != 0 then Release(s, s', c, StartIdleWait) else s' == Go(s, c, StartRaise)
    case StartIdleWait => Acquire(s, s', c, StartIdle)
    case StartRaise => s' == StorePending(s, c, 1, StartFence)
    case StartFence =>
      && (fenced ==> s.pendingStores == [] && t.stores == [])
      && s' == Go(s, c, StartScan(s.threads.Keys, 0))
    case StartScan(todo, n) => ScanStep(s, s', c, todo, n)
    case StartMark(todo, o, n) =>
      o in s.threads && s' == Go(Put(s, o, s.threads[o].(hasWaiter := true)), c, StartScan(todo, n + 1))
    case StartPublish(n) => s' == StorePending(s, c, n + 1, StartDrain)
    case StartDrain =>
      if Pending(s) > 1 then Release(s, s', c, StartDrainWait) else s' == Go(s, c, StartUnlock)
    case StartDrainWait => Acquire(s, s', c, StartDrain)
    case StartUnlock => Release(s, s', c, StartEnter)
    case StartEnter => s' == Put(s, c, t.(depth := 1, pc := Outside))
    case _ => false
  }

  predicate EndStep(s: State, s': State, c: Cpu)
    requires c in s.threads
  {
    match s.threads[c].pc
    case EndLock => Acquire(s, s', c, EndClear)
    case EndClear => s' == StorePending(s, c, 0, EndBroadcast)
    case EndBroadcast => s' == Go(s, c, EndUnlock).(woken := s.woken + Resumers(s))
    case EndUnlock => Release(s, s', c, Outside)
    case _ => false
  }

  predicate ExecStep(fenced: bool, s: State, s': State, c: Cpu)
    requires c in s.threads
  {
    var t := s.threads[c];
    match t.pc
    case ExecSet => s' == StoreRunning(s, c, true, ExecFence)
    case ExecFence => (fenced ==> t.stores == []) && s' == Go(s, c, ExecRead)
    case ExecRead => s' == Go(s, c, if s.pending != 0 then ExecLock else Executing)
    case ExecLock => Acquire(s, s', c, ExecCheck)
    case ExecCheck => s' == Go(s, c, if t.hasWaiter then ExecUnlock else ExecRetract)
    case ExecRetract => s' == StoreRunning(s, c, false, ExecIdle)
    case ExecIdle =>
      if Pending(s) != 0 then Release(s, s', c, ExecIdleWait) else s' == Go(s, c, ExecSetAgain)
    case ExecIdleWait => Acquire(s, s', c, ExecIdle)
    case ExecSetAgain => s' == StoreRunning(s, c, true, ExecUnlock)
    case ExecUnlock => Release(s, s', c, Executing)
    case Executing => s' == Go(s, c, QuitClear)
    case _ => false
  }

  predicate SignalStep(s: State, s': State, c: Cpu)
    requires c in s.threads
  {
    if exists d :: d in s.threads && s.threads[d].pc.StartDrainWait? then
      exists d :: d in s.threads && s.threads[d].pc.StartDrainWait? &&
        s' == Go(s, c, QuitUnlock).(woken := s.woken + {d})
    else s' == Go(s, c, QuitUnlock)
  }

  predicate QuitStep(fenced: bool, s: State, s': State, c: Cpu)
    requires c in s.threads
  {
    var t := s.threads[c];
    match t.pc
    case QuitClear => s' == StoreRunning(s, c, false, QuitFence)
    case QuitFence => (fenced ==> t.stores == []) && s' == Go(s, c, QuitRead)
    case QuitRead => s' == Go(s, c, if s.pending != 0 then QuitLock else Outside)
    case QuitLock => Acquire(s, s', c, QuitCheck)
    case QuitCheck => s' == Go(s, c, if t.hasWaiter then QuitUnmark else QuitUnlock)
    case QuitUnmark => s' == Put(s, c, t.(hasWaiter := false, pc := QuitDec))
    case QuitDec => s' == StorePending(s, c, Pending(s) - 1, QuitTest)
    case QuitTest => s' == Go(s, c, if Pending(s) == 1 then QuitSignal else QuitUnlock)
    case QuitSignal => SignalStep(s, s', c)
    case QuitUnlock => Release(s, s', c, Outside)
    case _ => false
  }

  /** The oldest buffered store of a thread to its `running` flag reaches memory. */
  predicate FlushRunning(s: State, s': State, c: Cpu)
    requires c in s.threads
  {
    var t := s.threads[c];
    t.stores != [] && s' == Put(s, c, t.(running := t.stores[0], stores := t.stores[1..]))
  }

  /** The oldest buffered store to pending_cpus reaches memory. */
  predicate FlushPending(s: State, s': State) {
    s.pendingStores != [] && s' == s.(pending := s.pendingStores[0], pendingStores := s.pendingStores[1..])
  }

  /** With `fenced` false the three smp_mb() calls do nothing. */
  predicate Step(fenced: bool, s: State, s': State, c: Cpu) {
    && c in s.threads
    && (|| (s.threads[c].pc == Outside && OutsideStep(s, s', c))
        || StartStep(fenced, s, s', c)
        || EndStep(s, s', c)
        || ExecStep(fenced, s, s', c)
        || QuitStep(fenced, s, s', c)
        || FlushRunning(s, s', c)
        || FlushPending(s, s'))
  }

  predicate Run(fenced: bool, r: seq<State>, who: seq<Cpu>) {
    && |r| == |who| + 1
    && Init(r[0])
    && forall i :: 0 <= i < |who| ==> Step(fenced, r[i], r[i + 1], who[i])
  }

  // ------------------------------------------------------------ invariant

  predicate LockPc(pc: Pc) {
    match pc
    case StartIdle | StartRaise | StartFence | StartScan(_, _) | StartMark(_, _, _)
      | StartPublish(_) | StartDrain | StartUnlock
      | EndClear | EndBroadcast | EndUnlock
      | ExecCheck | ExecRetract | ExecIdle | ExecSetAgain | ExecUnlock
      | QuitCheck | QuitUnmark | QuitDec | QuitTest | QuitSignal | QuitUnlock => true
    case _ => false
  }

  /** From the write of 1 to pending_cpus until the write of 0. */
  predicate OwnerPc(pc: Pc) {
    match pc
    case StartFence | StartScan(_, _) | StartMark(_, _, _) | StartPublish(_) | StartDrain
      | StartDrainWait | StartUnlock | StartEnter | EndLock | EndClear => true
    case _ => false
  }

  predicate Owns(t: Thread) {
    t.depth > 0 || OwnerPc(t.pc)
  }

  /** The owner has seen pending_cpus at 1. */
  predicate Settled(t: Thread) {
    t.depth > 0 || (t.pc.StartUnlock? || t.pc.StartEnter? || t.pc.EndLock? || t.pc.EndClear?)
  }

  /** Between the return of start_exclusive and the outermost end_exclusive. */
  predicate InSection(t: Thread) {
    t.depth > 0
  }

  predicate Executes(pc: Pc) {
    (pc.ExecUnlock? || pc.Executing? || pc.QuitClear?)
  }

  predicate RunningPc(pc: Pc) {
    || pc.ExecFence? || pc.ExecRead? || pc.ExecLock? || pc.ExecCheck? || pc.ExecRetract? || pc.ExecUnlock?
    || pc.Executing? || pc.QuitClear?
  }

  predicate BufferPc(pc: Pc) {
    (pc.ExecFence? || pc.QuitFence? || pc.ExecIdle? || pc.ExecSetAgain? || pc.ExecUnlock?)
  }

  /** Where a thread that the scan found running can be while the scan goes on. */
  predicate MarkPc(pc: Pc) {
    || pc.ExecFence? || pc.ExecRead? || pc.ExecLock? || pc.Executing? || pc.QuitClear? || pc.QuitFence?
    || pc.QuitRead? || pc.QuitLock?
  }

  predicate WaiterPc(pc: Pc) {
    MarkPc(pc) || (pc.ExecCheck? || pc.ExecUnlock? || pc.QuitCheck? || pc.QuitUnmark?)
  }

  predicate NestedPc(pc: Pc) {
    || pc.Outside? || pc.ExecSet? || pc.ExecFence? || pc.ExecRead? || pc.ExecLock? || pc.ExecCheck?
    || pc.ExecRetract? || pc.ExecIdle? || pc.ExecIdleWait?
  }

  predicate ThreadInv(t: Thread) {
    && OwnRunning(t) == RunningPc(t.pc)
    && (!BufferPc(t.pc) ==> t.stores == [])
    && (t.hasWaiter ==> WaiterPc(t.pc))
    && (t.pc == QuitUnmark ==> t.hasWaiter)
    && (t.depth > 0 ==> NestedPc(t.pc))
  }

  /** A CPU that start_exclusive counted and that has not yet been taken off. */
  predicate Counted(t: Thread) {
    t.hasWaiter || t.pc == QuitDec
  }

  function CountedSet(s: State): set<Cpu> {
    set c | c in s.threads && Counted(s.threads[c])
  }

  predicate LockInv(s: State) {
    && (s.lock == None ==> s.pendingStores == [])
    && (s.lock.Some? ==> s.lock.value in s.threads)
    && forall c :: c in s.threads ==> (LockPc(s.threads[c].pc) <==> s.lock == Some(c))
  }

  predicate OneOwner(s: State) {
    forall c, d :: c in s.threads && d in s.threads && Owns(s.threads[c]) && Owns(s.threads[d]) ==> c == d
  }

  predicate ZeroPc(pc: Pc) {
    pc.StartRaise? || pc.ExecSetAgain? || pc.EndBroadcast?
  }

  /** What the value of pending_cpus, in memory and in the buffer, owes to one thread. */
  predicate PendingOk(s: State, t: Thread) {
    && (Owns(t) ==> Pending(s) >= 1)
    && (Settled(t) ==> Pending(s) == 1)
    && (ZeroPc(t.pc) ==> Pending(s) == 0)
    && (t.hasWaiter || (Owns(t) && t.pc != StartFence) ==>
          s.pending >= 1 && forall v :: v in s.pendingStores ==> v >= 1)
  }

  predicate OwnerPending(s: State) {
    forall c :: c in s.threads ==> PendingOk(s, s.threads[c])
  }

  function HolderPc(s: State): Pc {
    if s.lock.Some? && s.lock.value in s.threads then s.threads[s.lock.value].pc else Outside
  }

  predicate Accounting(s: State) {
    var w := CountedSet(s);
    match HolderPc(s)
    case StartFence => Pending(s) == 1 && w == {}
    case StartScan(todo, n) => Pending(s) == 1 && n == |w| && w !! todo && todo <= s.threads.Keys
    case StartMark(todo, o, n) =>
      && Pending(s) == 1 && n == |w| && w !! todo && todo <= s.threads.Keys
      && o in s.threads && o !in w && o !in todo && MarkPc(s.threads[o].pc)
    case StartPublish(n) => Pending(s) == 1 && n == |w|
    case _ => Balanced(s)
  }

  predicate Balanced(s: State) {
    (Pending(s) == 0 && CountedSet(s) == {}) || Pending(s) == 1 + |CountedSet(s)|
  }

  predicate Unscanned(pc: Pc, d: Cpu) {
    match pc
    case StartFence => true
    case StartScan(todo, _) => d in todo
    case StartMark(todo, o, _) => d in todo || d == o
    case _ => false
  }

  /** A CPU that executes while a section is owned is counted, or not yet scanned. */
  predicate Guarded(s: State) {
    forall c, d :: c in s.threads && d in s.threads && Owns(s.threads[c]) && Executes(s.threads[d].pc) ==>
      s.threads[d].hasWaiter || Unscanned(s.threads[c].pc, d)
  }

  predicate Inv(s: State) {
    && (forall c :: c in s.threads ==> ThreadInv(s.threads[c]))
    && LockInv(s)
    && OneOwner(s)
    && OwnerPending(s)
    && Accounting(s)
    && Guarded(s)
  }

  lemma InitInv(s: State)
    requires Init(s)
    ensures Inv(s)
  {
    assert CountedSet(s) == {};
  }

  // One thread moves from t to t'; the lock and pending_cpus may change with it.
  // The frame lemmas say what the move has to respect for each part of Inv.

  predicate Moves(s: State, s': State, c: Cpu, t': Thread) {
    c in s.threads && s'.threads == s.threads[c := t']
  }

  lemma FrameThreads(s: State, s': State, c: Cpu, t': Thread)
    requires Inv(s) && Moves(s, s', c, t') && ThreadInv(t')
    ensures forall d :: d in s'.threads ==> ThreadInv(s'.threads[d])
  {
    hide ThreadInv, LockInv, OneOwner, OwnerPending, Accounting, Guarded;
  }

  predicate LockMove(s: State, s': State, c: Cpu, t': Thread)
    requires c in s.threads
  {
    var t := s.threads[c];
    || (s'.lock == s.lock && LockPc(t.pc) == LockPc(t'.pc) && (s'.pendingStores == s.pendingStores || LockPc(t.pc)))
    || (s.lock == None && s'.lock == Some(c) && LockPc(t'.pc) && s'.pendingStores == s.pendingStores)
    || (LockPc(t.pc) && s'.lock == None && !LockPc(t'.pc) && s'.pendingStores == [])
  }

  lemma FrameLock(s: State, s': State, c: Cpu, t': Thread)
    requires Inv(s) && Moves(s, s', c, t') && LockMove(s, s', c, t')
    ensures LockInv(s')
  {
    hide LockPc, ThreadInv, OneOwner, OwnerPending, Accounting, Guarded;
  }

  lemma FrameOneOwner(s: State, s': State, c: Cpu, t': Thread)
    requires Inv(s) && Moves(s, s', c, t')
    requires Owns(t') ==> Owns(s.threads[c]) || Pending(s) == 0
    ensures OneOwner(s')
  {
    hide Owns, Settled, ThreadInv, LockInv, Accounting, Guarded, Pending;
  }

  predicate SamePending(s: State, s': State) {
    s'.pending == s.pending && s'.pendingStores == s.pendingStores
  }

  lemma FrameOwnerPending(s: State, s': State, c: Cpu, t': Thread)
    requires Inv(s) && Moves(s, s', c, t')
    requires SamePending(s, s') && PendingOk(s, t')
    ensures OwnerPending(s')
  {
    hide Owns, Settled, ZeroPc, ThreadInv, LockInv, Accounting, Guarded, OneOwner;
  }

  /** No owner that is done with c would be surprised to see c execute. */
  predicate MayExecute(s: State, c: Cpu) {
    forall d :: d in s.threads && Owns(s.threads[d]) ==> d != c && Unscanned(s.threads[d].pc, c)
  }

  predicate GuardMove(s: State, c: Cpu, t': Thread)
    requires c in s.threads
  {
    var t := s.threads[c];
    && (Owns(t') ==> Owns(t) && forall d :: d in s.threads && Unscanned(t.pc, d) ==> Unscanned(t'.pc, d))
    && (Executes(t'.pc) ==>
          t'.hasWaiter || (Executes(t.pc) && !t.hasWaiter) || (!Owns(t') && MayExecute(s, c)))
  }

  lemma FrameGuarded(s: State, s': State, c: Cpu, t': Thread)
    requires Inv(s) && Moves(s, s', c, t') && GuardMove(s, c, t')
    ensures Guarded(s')
  {
    hide Owns, Unscanned, Executes, ThreadInv, LockInv, Accounting, OneOwner, OwnerPending;
  }

  predicate BalancedPc(pc: Pc) {
    !(pc.StartFence? || pc.StartScan? || pc.StartMark? || pc.StartPublish?)
  }

  predicate MarkMove(s: State, c: Cpu, t': Thread) {
    HolderPc(s).StartMark? && HolderPc(s).other == c ==> MarkPc(t'.pc)
  }

  lemma FrameAccounting(s: State, s': State, c: Cpu, t': Thread)
    requires Inv(s) && Moves(s, s', c, t')
    requires SamePending(s, s') && Counted(t') == Counted(s.threads[c])
    requires BalancedPc(s.threads[c].pc) && BalancedPc(t'.pc) && MarkMove(s, c, t')
    requires s'.lock == s.lock || s.lock == None || s.lock == Some(c)
    requires s'.lock == s.lock || s'.lock == None || s'.lock == Some(c)
    ensures Accounting(s')
  {
    hide Owns, Settled, MarkPc, Counted, ThreadInv, Guarded, OneOwner, OwnerPending, LockPc;
    assert CountedSet(s') == CountedSet(s);
  }

  /** A move of one thread that leaves pending_cpus alone and is not part of the scan. */
  lemma QuietMove(s: State, s': State, c: Cpu, t': Thread)
    requires Inv(s) && Moves(s, s', c, t') && SamePending(s, s')
    requires ThreadInv(t') && LockMove(s, s', c, t') && PendingOk(s, t') && GuardMove(s, c, t')
    requires Counted(t') == Counted(s.threads[c])
    requires BalancedPc(s.threads[c].pc) && BalancedPc(t'.pc) && MarkMove(s, c, t')
    ensures Inv(s')
  {
    FrameThreads(s, s', c, t');
    FrameLock(s, s', c, t');
    FrameOneOwner(s, s', c, t');
    FrameOwnerPending(s, s', c, t');
    FrameGuarded(s, s', c, t');
    assert s'.lock == s.lock || s.lock == None || s.lock == Some(c) by {
      hide Accounting, Guarded, OneOwner, OwnerPending;
    }
    FrameAccounting(s, s', c, t') by { hide Guarded, OneOwner, OwnerPending; }
  }

  /** What Inv says about one thread. */
  lemma LocalFacts(s: State, c: Cpu)
    requires Inv(s) && c in s.threads
    ensures ThreadInv(s.threads[c]) && PendingOk(s, s.threads[c])
    ensures LockPc(s.threads[c].pc) <==> s.lock == Some(c)
    ensures s.lock == None ==> s.pendingStores == []
    ensures HolderPc(s).StartMark? ==> MarkPc(s.threads[HolderPc(s).other].pc)
  {
    hide ThreadInv, PendingOk, LockPc, MarkPc, OneOwner, Guarded;
  }

  /** A thread that finds pending_cpus at 0 in memory, or under the lock, meets no section. */
  lemma NoOwnerSeen(s: State, c: Cpu)
    requires Inv(s) && c in s.threads && (s.pending == 0 || Pending(s) == 0)
    ensures forall d :: d in s.threads && Owns(s.threads[d]) ==> s.threads[d].pc == StartFence
    ensures !HolderPc(s).StartMark?
    ensures !Owns(s.threads[c]) ==> MayExecute(s, c)
  {
    hide ThreadInv, LockPc, OneOwner, Guarded, Accounting;
  }

  /** Once the owner has seen pending_cpus at 1, no CPU is counted any more. */
  lemma SettledNoneCounted(s: State, c: Cpu)
    requires Inv(s) && c in s.threads && Settled(s.threads[c])
    ensures CountedSet(s) == {} && Balanced(s)
  {
    hide MarkPc, Guarded;
    assert Pending(s) == 1 && Owns(s.threads[c]);
    if !BalancedPc(HolderPc(s)) {
      assert false;
    }
  }

  lemma OutsideKeepsInv(s: State, s': State, c: Cpu)
    requires Inv(s) && c in s.threads && s.threads[c].pc == Outside && OutsideStep(s, s', c)
    ensures Inv(s')
  {
    hide Inv;
    LocalFacts(s, c);
    QuietMove(s, s', c, s'.threads[c]);
  }

  lemma AcquireKeepsInv(s: State, s': State, c: Cpu, pc: Pc)
    requires Inv(s) && c in s.threads && Acquire(s, s', c, pc)
    requires match s.threads[c].pc
             case StartLock | StartIdleWait => pc == StartIdle
             case StartDrainWait => pc == StartDrain
             case EndLock => pc == EndClear
             case ExecLock => pc == ExecCheck
             case ExecIdleWait => pc == ExecIdle
             case QuitLock => pc == QuitCheck
             case _ => false
    ensures Inv(s')
  {
    hide Inv;
    LocalFacts(s, c);
    QuietMove(s, s', c, s'.threads[c]);
  }

  lemma ReleaseKeepsInv(s: State, s': State, c: Cpu, pc: Pc)
    requires Inv(s) && c in s.threads && Release(s, s', c, pc)
    requires match s.threads[c].pc
             case StartIdle => pc == StartIdleWait
             case StartDrain => pc == StartDrainWait
             case StartUnlock => pc == StartEnter
             case EndUnlock | QuitUnlock => pc == Outside
             case ExecIdle => pc == ExecIdleWait
             case ExecUnlock => pc == Executing
             case _ => false
    ensures Inv(s')
  {
    hide Inv;
    LocalFacts(s, c);
    QuietMove(s, s', c, s'.threads[c]);
  }

  lemma StartQuietKeepsInv(s: State, s': State, c: Cpu)
    requires Inv(s) && c in s.threads && StartStep(true, s, s', c)
    requires s.threads[c].pc == StartIdle || s.threads[c].pc == StartDrain || s.threads[c].pc == StartEnter
    requires s'.lock == s.lock
    ensures Inv(s')
  {
    hide Inv;
    LocalFacts(s, c);
    QuietMove(s, s', c, s'.threads[c]);
  }

  lemma ExecStoreKeepsInv(s: State, s': State, c: Cpu)
    requires Inv(s) && c in s.threads && ExecStep(true, s, s', c)
    requires s.threads[c].pc == ExecSet || s.threads[c].pc == ExecRetract || s.threads[c].pc == ExecSetAgain
    ensures Inv(s')
  {
    hide Inv, MayExecute;
    LocalFacts(s, c);
    if Pending(s) == 0 { NoOwnerSeen(s, c); }
    QuietMove(s, s', c, s'.threads[c]);
  }

  lemma ExecGoKeepsInv(s: State, s': State, c: Cpu)
    requires Inv(s) && c in s.threads && ExecStep(true, s, s', c)
    requires s.threads[c].pc == ExecFence || s.threads[c].pc == ExecIdle || s.threads[c].pc == Executing
    requires s'.lock == s.lock
    ensures Inv(s')
  {
    hide Inv;
    LocalFacts(s, c);
    var t := s'.threads[c];
    assert s' == s.(threads := s.threads[c := t]);
    if s.threads[c].pc == ExecFence {
      QuietMove(s, s', c, t);
    } else if s.threads[c].pc == ExecIdle {
      QuietMove(s, s', c, t);
    } else {
      QuietMove(s, s', c, t);
    }
  }

  lemma ExecReadKeepsInv(s: State, s': State, c: Cpu)
    requires Inv(s) && c in s.threads && ExecStep(true, s, s', c)
    requires s.threads[c].pc == ExecRead || s.threads[c].pc == ExecCheck
    ensures Inv(s')
  {
    hide Inv, MayExecute, CountedSet, Balanced;
    LocalFacts(s, c);
    if s.threads[c].depth > 0 {
      SettledNoneCounted(s, c);
      assert !Counted(s.threads[c]) by { assert CountedSet(s) == {}; NotCounted(s, c); }
    }
    if s.pending == 0 { NoOwnerSeen(s, c); }
    QuietMove(s, s', c, s'.threads[c]);
  }

  lemma NotCounted(s: State, c: Cpu)
    requires c in s.threads && CountedSet(s) == {}
    ensures !Counted(s.threads[c])
  {
    assert c !in CountedSet(s);
  }

  lemma QuitStoreKeepsInv(s: State, s': State, c: Cpu)
    requires Inv(s) && c in s.threads && QuitStep(true, s, s', c)
    requires s.threads[c].pc == QuitClear || s.threads[c].pc == QuitFence || s.threads[c].pc == QuitRead
    ensures Inv(s')
  {
    hide Inv, MayExecute;
    LocalFacts(s, c);
    if s.pending == 0 { NoOwnerSeen(s, c); }
    QuietMove(s, s', c, s'.threads[c]);
  }

  lemma QuitGoKeepsInv(s: State, s': State, c: Cpu)
    requires Inv(s) && c in s.threads && QuitStep(true, s, s', c)
    requires s.threads[c].pc == QuitCheck || s.threads[c].pc == QuitUnmark || s.threads[c].pc == QuitTest
    ensures Inv(s')
  {
    hide Inv;
    LocalFacts(s, c);
    QuietMove(s, s', c, s'.threads[c]);
  }

  lemma FlushRunningKeepsInv(s: State, s': State, c: Cpu)
    requires Inv(s) && c in s.threads && FlushRunning(s, s', c)
    ensures Inv(s')
  {
    hide Inv;
    LocalFacts(s, c);
    QuietMove(s, s', c, s'.threads[c]);
  }

  // Steps of the lock holder that change pending_cpus, or that belong to the scan.

  /** With pending_cpus at 0 there is no owner and nobody is counted. */
  lemma IdleFacts(s: State, d: Cpu)
    requires Inv(s) && d in s.threads && Pending(s) == 0
    ensures !Owns(s.threads[d]) && !s.threads[d].hasWaiter && CountedSet(s) == {}
  {
    hide ThreadInv, OneOwner, Guarded, LockPc, MarkPc;
    assert Balanced(s);
    assert d !in CountedSet(s);
  }

  /** The lock holder is alone at the steps that need the lock. */
  lemma HolderFacts(s: State, c: Cpu, d: Cpu)
    requires Inv(s) && c in s.threads && d in s.threads && c != d && LockPc(s.threads[c].pc)
    ensures !LockPc(s.threads[d].pc) && s.lock == Some(c) && HolderPc(s) == s.threads[c].pc
  {
    hide ThreadInv, OneOwner, Guarded, Accounting, OwnerPending, LockPc;
  }

  /** A move of the lock holder that keeps the lock. */
  lemma HolderMove(s: State, s': State, c: Cpu, t': Thread)
    requires Inv(s) && Moves(s, s', c, t') && s'.lock == s.lock
    requires LockPc(s.threads[c].pc) && LockPc(t'.pc) && ThreadInv(t')
    requires Owns(t') ==> Owns(s.threads[c]) || Pending(s) == 0
    requires OwnerPending(s') && Accounting(s') && Guarded(s')
    ensures Inv(s')
  {
    FrameThreads(s, s', c, t');
    FrameLock(s, s', c, t');
    FrameOneOwner(s, s', c, t');
    hide ThreadInv, LockInv, OneOwner, OwnerPending, Accounting, Guarded, Owns, LockPc;
  }

  lemma RaiseKeepsInv(s: State, s': State, c: Cpu)
    requires Inv(s) && c in s.threads && s.threads[c].pc == StartRaise && StartStep(true, s, s', c)
    ensures Inv(s')
  {
    hide Inv;
    LocalFacts(s, c);
    forall d | d in s'.threads && d != c ensures PendingOk(s', s'.threads[d]) && !Owns(s'.threads[d]) {
      IdleFacts(s, d);
      HolderFacts(s, c, d);
    }
    IdleFacts(s, c);
    assert CountedSet(s') == CountedSet(s);
    HolderMove(s, s', c, s'.threads[c]);
  }

  lemma FenceAccounting(s: State, s': State, c: Cpu)
    requires Inv(s) && c in s.threads && s.threads[c].pc == StartFence && StartStep(true, s, s', c)
    ensures Accounting(s')
  {
    hide Inv, MarkPc, ThreadInv, PendingOk;
    LocalFacts(s, c);
    ScanCount(s, c);
    assert CountedSet(s') == CountedSet(s);
  }

  lemma FenceKeepsInv(s: State, s': State, c: Cpu)
    requires Inv(s) && c in s.threads && s.threads[c].pc == StartFence && StartStep(true, s, s', c)
    ensures Inv(s')
  {
    hide Inv, Guarded, Accounting;
    var t' := s'.threads[c];
    LocalFacts(s, c);
    FrameOwnerPending(s, s', c, t');
    FrameGuarded(s, s', c, t');
    FenceAccounting(s, s', c);
    HolderMove(s, s', c, t');
  }

  /** A CPU whose flag the scan reads as set is where it can be marked; otherwise it does not execute. */
  lemma ScanFacts(s: State, c: Cpu, o: Cpu)
    requires Inv(s) && c in s.threads && o in s.threads && s.threads[c].pc.StartScan?
    ensures c == o ==> !OwnRunning(s.threads[o])
    ensures c != o && s.threads[o].running ==> MarkPc(s.threads[o].pc)
    ensures (c == o || !s.threads[o].running) ==> !Executes(s.threads[o].pc)
  {
    hide Inv;
    LocalFacts(s, c);
    LocalFacts(s, o);
    if c != o { HolderFacts(s, c, o); }
  }

  lemma ScanLeaves(s: State, s': State, c: Cpu, o: Cpu)
    requires Inv(s) && c in s.threads && o in s.threads && s.threads[c].pc.StartScan?
    requires s' == Scanned(s, c, o, s.threads[c].pc.todo, s.threads[c].pc.n)
    ensures !Executes(s'.threads[c].pc) && Owns(s.threads[c])
    ensures forall d :: d in s.threads && d != o && Unscanned(s.threads[c].pc, d) ==> Unscanned(s'.threads[c].pc, d)
    ensures Executes(s.threads[o].pc) ==> Unscanned(s'.threads[c].pc, o)
  {
    ScanFacts(s, c, o) by { hide Scanned; }
    hide Inv;
  }

  lemma ScanGuarded(s: State, s': State, c: Cpu, o: Cpu)
    requires Inv(s) && c in s.threads && o in s.threads && s.threads[c].pc.StartScan?
    requires s' == Scanned(s, c, o, s.threads[c].pc.todo, s.threads[c].pc.n)
    ensures Guarded(s')
  {
    ScanLeaves(s, s', c, o) by { hide Inv; }
    assert s'.threads == s.threads[c := s'.threads[c]] && s'.threads[c].hasWaiter == s.threads[c].hasWaiter;
    assert Owns(s'.threads[c]) == Owns(s.threads[c]);
    hide ThreadInv, LockInv, OwnerPending, Accounting, Executes, OwnRunning, Scanned, MarkPc, Unscanned, Owns;
  }

  /** What the scan has counted so far. */
  lemma ScanCount(s: State, c: Cpu)
    requires Inv(s) && c in s.threads && s.lock == Some(c)
    ensures var w := CountedSet(s);
      match s.threads[c].pc
      case StartFence => Pending(s) == 1 && w == {}
      case StartScan(todo, n) => Pending(s) == 1 && n == |w| && w !! todo && todo <= s.threads.Keys
      case StartMark(todo, o, n) =>
        && Pending(s) == 1 && n == |w| && w !! todo && todo <= s.threads.Keys
        && o in s.threads && o !in w && o !in todo && MarkPc(s.threads[o].pc)
      case StartPublish(n) => Pending(s) == 1 && n == |w|
      case _ => Balanced(s)
  {
    hide ThreadInv, LockInv, OneOwner, OwnerPending, Guarded, MarkPc, CountedSet, Pending;
  }

  lemma ScanAccounting(s: State, s': State, c: Cpu, o: Cpu)
    requires Inv(s) && c in s.threads && o in s.threads && s.threads[c].pc.StartScan? && o in s.threads[c].pc.todo
    requires s' == Scanned(s, c, o, s.threads[c].pc.todo, s.threads[c].pc.n)
    ensures Accounting(s')
  {
    hide Inv, MarkPc, Executes, ThreadInv, PendingOk;
    LocalFacts(s, c);
    ScanCount(s, c);
    ScanFacts(s, c, o);
    assert CountedSet(s') == CountedSet(s);
  }

  lemma ScanKeepsInv(s: State, s': State, c: Cpu)
    requires Inv(s) && c in s.threads && s.threads[c].pc.StartScan? && StartStep(true, s, s', c)
    ensures Inv(s')
  {
    hide Inv, Guarded, Accounting;
    var t' := s'.threads[c];
    var todo := s.threads[c].pc.todo;
    LocalFacts(s, c);
    FrameOwnerPending(s, s', c, t');
    if todo == {} {
      FrameGuarded(s, s', c, t');
      PublishableAccounting(s, s', c);
    } else {
      var o :| o in todo && o in s.threads && s' == Scanned(s, c, o, todo, s.threads[c].pc.n);
      ScanGuarded(s, s', c, o);
      ScanAccounting(s, s', c, o);
    }
    HolderMove(s, s', c, t');
  }

  lemma PublishableAccounting(s: State, s': State, c: Cpu)
    requires Inv(s) && c in s.threads && s.threads[c].pc.StartScan?
    requires s' == Go(s, c, StartPublish(s.threads[c].pc.n))
    ensures Accounting(s')
  {
    hide Inv, MarkPc, ThreadInv, PendingOk;
    LocalFacts(s, c);
    ScanCount(s, c);
    assert CountedSet(s') == CountedSet(s);
  }

  lemma PublishAccounting(s: State, s': State, c: Cpu)
    requires Inv(s) && c in s.threads && s.threads[c].pc.StartPublish?
    requires s' == StorePending(s, c, s.threads[c].pc.n + 1, StartDrain)
    ensures Accounting(s') && Pending(s') == s.threads[c].pc.n + 1
  {
    hide Inv, MarkPc, ThreadInv, PendingOk;
    LocalFacts(s, c);
    ScanCount(s, c);
    assert CountedSet(s') == CountedSet(s);
  }

  lemma PublishKeepsInv(s: State, s': State, c: Cpu)
    requires Inv(s) && c in s.threads && s.threads[c].pc.StartPublish? && StartStep(true, s, s', c)
    ensures Inv(s')
  {
    hide Inv, Guarded, Accounting;
    var t' := s'.threads[c];
    LocalFacts(s, c);
    FrameGuarded(s, s', c, t');
    PublishAccounting(s, s', c);
    forall d | d in s'.threads && d != c ensures PendingOk(s', s'.threads[d]) {
      LocalFacts(s, d);
      HolderFacts(s, c, d);
      OwnerFacts(s, c, d);
    }
    HolderMove(s, s', c, t');
  }

  lemma OwnerFacts(s: State, c: Cpu, d: Cpu)
    requires Inv(s) && c in s.threads && d in s.threads && c != d && Owns(s.threads[c])
    ensures !Owns(s.threads[d]) && !Settled(s.threads[d])
  {
    hide ThreadInv, LockInv, OwnerPending, Accounting, Guarded;
  }

  lemma ClearKeepsInv(s: State, s': State, c: Cpu)
    requires Inv(s) && c in s.threads && s.threads[c].pc == EndClear && EndStep(s, s', c)
    ensures Inv(s')
  {
    hide Inv;
    LocalFacts(s, c);
    SettledNoneCounted(s, c);
    forall d | d in s'.threads && d != c ensures PendingOk(s', s'.threads[d]) && !Owns(s'.threads[d]) {
      NotCounted(s, d);
      HolderFacts(s, c, d);
      OwnerFacts(s, c, d);
    }
    NotCounted(s, c);
    assert CountedSet(s') == CountedSet(s);
    HolderMove(s, s', c, s'.threads[c]);
  }

  lemma DecFacts(s: State, c: Cpu, d: Cpu)
    requires Inv(s) && c in s.threads && s.threads[c].pc == QuitDec && d in s.threads
    ensures c in CountedSet(s) && Pending(s) == 1 + |CountedSet(s)| && Pending(s) >= 2
    ensures !Settled(s.threads[d])
  {
    hide Inv;
    LocalFacts(s, c);
    assert c in CountedSet(s);
    ScanCount(s, c);
    assert |CountedSet(s)| >= |{c}| by { SubsetSize({c}, CountedSet(s)); }
    if Settled(s.threads[d]) { SettledNoneCounted(s, d); }
  }

  lemma DecKeepsInv(s: State, s': State, c: Cpu)
    requires Inv(s) && c in s.threads && s.threads[c].pc == QuitDec && QuitStep(true, s, s', c)
    ensures Inv(s')
  {
    hide Inv, Guarded;
    var t' := s'.threads[c];
    LocalFacts(s, c);
    FrameGuarded(s, s', c, t');
    DecFacts(s, c, c);
    assert CountedSet(s') == CountedSet(s) - {c};
    assert Pending(s') == Pending(s) - 1;
    assert Accounting(s') by { hide PendingOk, ThreadInv; }
    hide Accounting, CountedSet;
    forall d | d in s'.threads && d != c ensures PendingOk(s', s'.threads[d]) {
      LocalFacts(s, d);
      HolderFacts(s, c, d);
      DecFacts(s, c, d);
    }
    HolderMove(s, s', c, t');
  }

  lemma SignalKeepsInv(s: State, s': State, c: Cpu)
    requires Inv(s) && c in s.threads && s.threads[c].pc == QuitSignal && QuitStep(true, s, s', c)
    ensures Inv(s')
  {
    hide Inv;
    LocalFacts(s, c);
    QuietMove(s, s', c, s'.threads[c]);
  }

  lemma BroadcastKeepsInv(s: State, s': State, c: Cpu)
    requires Inv(s) && c in s.threads && s.threads[c].pc == EndBroadcast && EndStep(s, s', c)
    ensures Inv(s')
  {
    hide Inv;
    LocalFacts(s, c);
    QuietMove(s, s', c, s'.threads[c]);
  }

  lemma FlushPendingKeepsInv(s: State, s': State)
    requires Inv(s) && FlushPending(s, s')
    ensures Inv(s')
  {
    assert Pending(s') == Pending(s);
    assert OwnerPending(s') by {
      hide ThreadInv, LockInv, OneOwner, Accounting, Guarded, Owns, Settled, ZeroPc;
      assert s.pendingStores[0] in s.pendingStores;
      assert forall v :: v in s'.pendingStores ==> v in s.pendingStores;
    }
    assert CountedSet(s') == CountedSet(s);
    hide ThreadInv, Owns, Settled, LockPc, MarkPc, OwnerPending, Pending, CountedSet;
  }

  lemma MarkAccounting(s: State, s': State, c: Cpu)
    requires Inv(s) && c in s.threads && s.threads[c].pc.StartMark? && StartStep(true, s, s', c)
    ensures Accounting(s')
  {
    hide Inv, MarkPc, ThreadInv, PendingOk;
    LocalFacts(s, c);
    ScanCount(s, c);
    assert CountedSet(s') == CountedSet(s) + {s.threads[c].pc.other};
  }

  lemma MarkLocal(s: State, s': State, c: Cpu, d: Cpu)
    requires Inv(s) && c in s.threads && s.threads[c].pc.StartMark? && StartStep(true, s, s', c) && d in s.threads
    ensures d in s'.threads && ThreadInv(s'.threads[d]) && PendingOk(s', s'.threads[d])
    ensures Owns(s'.threads[d]) == Owns(s.threads[d]) && LockPc(s'.threads[d].pc) == LockPc(s.threads[d].pc)
    ensures Executes(s'.threads[d].pc) == Executes(s.threads[d].pc)
    ensures s'.threads[d].hasWaiter == (s.threads[d].hasWaiter || d == s.threads[c].pc.other)
  {
    hide Inv;
    LocalFacts(s, c);
    LocalFacts(s, d);
  }

  /** What marking a CPU as counted leaves of a thread. */
  predicate Marked(s: State, s': State, c: Cpu, d: Cpu)
    requires c in s.threads && s.threads[c].pc.StartMark? && d in s.threads
  {
    && d in s'.threads && ThreadInv(s'.threads[d]) && PendingOk(s', s'.threads[d])
    && Owns(s'.threads[d]) == Owns(s.threads[d]) && LockPc(s'.threads[d].pc) == LockPc(s.threads[d].pc)
    && Executes(s'.threads[d].pc) == Executes(s.threads[d].pc)
    && s'.threads[d].hasWaiter == (s.threads[d].hasWaiter || d == s.threads[c].pc.other)
  }

  lemma MarkGuarded(s: State, s': State, c: Cpu)
    requires Guarded(s) && OneOwner(s) && LockInv(s) && c in s.threads && s.threads[c].pc.StartMark? &&
      Owns(s.threads[c])
    requires s'.threads.Keys == s.threads.Keys && s'.lock == s.lock && s'.pendingStores == s.pendingStores
    requires forall d :: d in s.threads ==> Marked(s, s', c, d)
    requires forall d :: d != s.threads[c].pc.other && Unscanned(s.threads[c].pc, d) ==> Unscanned(s'.threads[c].pc, d)
    ensures Guarded(s') && OneOwner(s') && LockInv(s') && OwnerPending(s')
  {
    hide ThreadInv, PendingOk, Owns, LockPc, Executes, Unscanned;
    forall d | d in s.threads ensures Marked(s, s', c, d) {}
  }

  lemma MarkFacts(s: State, s': State, c: Cpu)
    requires c in s.threads && s.threads[c].pc.StartMark? && StartStep(true, s, s', c)
    ensures s'.threads.Keys == s.threads.Keys && s'.lock == s.lock && s'.pendingStores == s.pendingStores
    ensures c in s'.threads && Owns(s.threads[c])
    ensures forall d :: d != s.threads[c].pc.other && Unscanned(s.threads[c].pc, d) ==> Unscanned(s'.threads[c].pc, d)
  {
  }

  lemma MarkKeepsInv(s: State, s': State, c: Cpu)
    requires Inv(s) && c in s.threads && s.threads[c].pc.StartMark? && StartStep(true, s, s', c)
    ensures Inv(s')
  {
    hide StartStep, Accounting, OneOwner, LockInv, Guarded, OwnerPending, Owns, Unscanned, ThreadInv, PendingOk;
    MarkAccounting(s, s', c);
    MarkFacts(s, s', c);
    forall d | d in s.threads ensures Marked(s, s', c, d) {
      hide Inv;
      MarkLocal(s, s', c, d);
    }
    MarkGuarded(s, s', c);
    forall d | d in s'.threads ensures ThreadInv(s'.threads[d]) { assert Marked(s, s', c, d); }
  }

  /** Every step of every thread keeps the invariant. */
  lemma StepKeepsInv(s: State, s': State, c: Cpu)
    requires Inv(s) && Step(true, s, s', c)
    ensures Inv(s')
  {
    hide Inv;
    if s.threads[c].pc == Outside && OutsideStep(s, s', c) {
      OutsideKeepsInv(s, s', c);
    } else if FlushRunning(s, s', c) {
      FlushRunningKeepsInv(s, s', c);
    } else if FlushPending(s, s') {
      FlushPendingKeepsInv(s, s');
    } else {
      match s.threads[c].pc
      case StartLock => AcquireKeepsInv(s, s', c, StartIdle);
      case StartIdle =>
        if Pending(s) != 0 {
          ReleaseKeepsInv(s, s', c, StartIdleWait);
        } else {
          StartQuietKeepsInv(s, s', c);
        }
      case StartIdleWait => AcquireKeepsInv(s, s', c, StartIdle);
      case StartRaise => RaiseKeepsInv(s, s', c);
      case StartFence => FenceKeepsInv(s, s', c);
      case StartScan(_, _) => ScanKeepsInv(s, s', c);
      case StartMark(_, _, _) => MarkKeepsInv(s, s', c);
      case StartPublish(_) => PublishKeepsInv(s, s', c);
      case StartDrain =>
        if Pending(s) > 1 {
          ReleaseKeepsInv(s, s', c, StartDrainWait);
        } else {
          StartQuietKeepsInv(s, s', c);
        }
      case StartDrainWait => AcquireKeepsInv(s, s', c, StartDrain);
      case StartUnlock => ReleaseKeepsInv(s, s', c, StartEnter);
      case StartEnter => StartQuietKeepsInv(s, s', c);
      case EndLock => AcquireKeepsInv(s, s', c, EndClear);
      case EndClear => ClearKeepsInv(s, s', c);
      case EndBroadcast => BroadcastKeepsInv(s, s', c);
      case EndUnlock => ReleaseKeepsInv(s, s', c, Outside);
      case ExecLock => AcquireKeepsInv(s, s', c, ExecCheck);
      case ExecRead | ExecCheck => ExecReadKeepsInv(s, s', c);
      case ExecSet | ExecRetract | ExecSetAgain => ExecStoreKeepsInv(s, s', c);
      case ExecIdle =>
        if Pending(s) != 0 {
          ReleaseKeepsInv(s, s', c, ExecIdleWait);
        } else {
          ExecGoKeepsInv(s, s', c);
        }
      case ExecFence | Executing => ExecGoKeepsInv(s, s', c);
      case ExecIdleWait => AcquireKeepsInv(s, s', c, ExecIdle);
      case ExecUnlock => ReleaseKeepsInv(s, s', c, Executing);
      case QuitClear | QuitFence | QuitRead => QuitStoreKeepsInv(s, s', c);
      case QuitLock => AcquireKeepsInv(s, s', c, QuitCheck);
      case QuitCheck | QuitUnmark | QuitTest => QuitGoKeepsInv(s, s', c);
      case QuitDec => DecKeepsInv(s, s', c);
      case QuitSignal => SignalKeepsInv(s, s', c);
      case QuitUnlock => ReleaseKeepsInv(s, s', c, Outside);
      case Outside =>
    }
  }

  lemma {:induction false} RunInv(r: seq<State>, who: seq<Cpu>, i: nat)
    requires Run(true, r, who) && i < |r|
    ensures Inv(r[i])
  {
    if i == 0 {
      InitInv(r[0]);
    } else {
      RunInv(r, who, i - 1);
      StepKeepsInv(r[i - 1], r[i], who[i - 1]);
    }
  }

  // --------------------------------------------------------- main results

  /**
   While a thread is between the return of start_exclusive and its outermost
   end_exclusive, no CPU is between cpu_exec_start and cpu_exec_end and no other
   thread is in a section; this holds in every state of every run.
   */
  lemma MutualExclusion(r: seq<State>, who: seq<Cpu>, i: nat, c: Cpu, d: Cpu)
    requires Run(true, r, who) && i < |r| && c in r[i].threads && d in r[i].threads
    requires InSection(r[i].threads[c])
    ensures !Executes(r[i].threads[d].pc)
    ensures InSection(r[i].threads[d]) ==> d == c
  {
    RunInv(r, who, i);
    SectionExcludes(r[i], c, d);
  }

  lemma SectionExcludes(s: State, c: Cpu, d: Cpu)
    requires Inv(s) && c in s.threads && d in s.threads && InSection(s.threads[c])
    ensures !Executes(s.threads[d].pc)
    ensures InSection(s.threads[d]) ==> d == c
  {
    assert Owns(s.threads[c]) && Settled(s.threads[c]);
    SettledNoneCounted(s, c);
    NotCounted(s, d);
    LocalFacts(s, c);
    hide ThreadInv, LockInv, OwnerPending, Accounting, CountedSet;
  }

  function Waiters(s: State): set<Cpu> {
    set c | c in s.threads && s.threads[c].hasWaiter
  }

  /**
   From the end of the scan in start_exclusive until end_exclusive clears it,
   pending_cpus is 1 plus the number of CPUs with has_waiter; only between the
   two writes of cpu_exec_end is it one more.  Memory agrees when the lock is free.
   */
  lemma PendingCount(r: seq<State>, who: seq<Cpu>, i: nat, c: Cpu)
    requires Run(true, r, who) && i < |r| && c in r[i].threads
    requires Owns(r[i].threads[c]) && BalancedPc(r[i].threads[c].pc)
    ensures Pending(r[i]) == 1 + |Waiters(r[i])| + (if HolderPc(r[i]) == QuitDec then 1 else 0)
    ensures r[i].lock == None ==> r[i].pending == Pending(r[i]) == 1 + |Waiters(r[i])|
  {
    RunInv(r, who, i);
    var s := r[i];
    CountAtOwner(s, c);
    CountedSplit(s);
  }

  lemma CountAtOwner(s: State, c: Cpu)
    requires Inv(s) && c in s.threads && Owns(s.threads[c]) && BalancedPc(s.threads[c].pc)
    ensures Pending(s) == 1 + |CountedSet(s)|
    ensures s.lock == None ==> s.pending == Pending(s)
  {
    hide Inv, MarkPc, CountedSet;
    LocalFacts(s, c);
    HolderIsBalanced(s, c);
  }

  /** While one thread owns the section past its scan, no other thread scans. */
  lemma HolderIsBalanced(s: State, c: Cpu)
    requires Inv(s) && c in s.threads && Owns(s.threads[c]) && BalancedPc(s.threads[c].pc)
    ensures BalancedPc(HolderPc(s)) && Balanced(s)
  {
    if s.lock.Some? && s.lock.value in s.threads && s.lock.value != c {
      OwnerFacts(s, c, s.lock.value);
    }
    hide ThreadInv, LockInv, OneOwner, OwnerPending, Guarded, CountedSet;
  }

  lemma CountedSplit(s: State)
    requires Inv(s)
    ensures |CountedSet(s)| == |Waiters(s)| + if HolderPc(s) == QuitDec then 1 else 0
    ensures s.lock == None ==> HolderPc(s) != QuitDec
  {
    hide Inv;
    if HolderPc(s) == QuitDec {
      var h := s.lock.value;
      forall d | d in s.threads && d != h ensures s.threads[d].pc != QuitDec { HolderFacts(s, h, d); }
      LocalFacts(s, h);
      assert CountedSet(s) == Waiters(s) + {h};
    } else {
      forall d | d in s.threads ensures s.threads[d].pc != QuitDec { LocalFacts(s, d); }
      assert CountedSet(s) == Waiters(s);
    }
  }
}
