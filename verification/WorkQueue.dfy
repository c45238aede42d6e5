/**
 The per-CPU work queue of cpu-common.c (queue_work_on_cpu, do_run_on_cpu,
 async_run_on_cpu, async_safe_run_on_cpu, process_queued_cpu_work) on top of the
 exclusive-section protocol.  A step is one critical section of work_mutex, one
 run of an item's function, one read of `done`, or one step of the protocol.
 */
module WorkQueue {
  import opened Exclusive
  import opened ExclusiveProgress

  type Id = nat

  /**
   `live` says that the storage of the item is still valid: an item with `free`
   set dies when the consumer frees it, one without dies when the synchronous
   caller, on whose stack it is, returns.
   */
  datatype Item = Item(free: bool, exclusive: bool, done: bool, live: bool)

  /** Where process_queued_cpu_work is, and with which item. */
  datatype Phase =
    | Idle
    | Popped(id: Id)
    | Plain(id: Id)
    | Entering(id: Id)
    | Section(id: Id)
    | Ran(id: Id)
    | Leaving(id: Id)
    | Finish(id: Id)

  /**
   `pushed` and `ran` record the order of insertion and of execution, `direct` what
   do_run_on_cpu ran on the spot.
   */
  datatype Worker = Worker(queue: seq<Id>, phase: Phase, pushed: seq<Id>, ran: seq<Id>, direct: seq<Id>)

  datatype State = State(ex: Exclusive.State, workers: map<Cpu, Worker>, items: map<Id, Item>)

  predicate Init(s: State) {
    && Exclusive.Init(s.ex) && s.workers.Keys == s.ex.threads.Keys && s.items == map[]
    && forall c :: c in s.workers ==> s.workers[c] == Worker([], Idle, [], [], [])
  }

  predicate Quiescent(s: State, c: Cpu) {
    c in s.ex.threads && s.ex.threads[c].pc == Outside && s.ex.threads[c].depth == 0
  }

  // ---------------------------------------------------------------- steps

  function SetPhase(s: State, c: Cpu, p: Phase): State
    requires c in s.workers
  {
    s.(workers := s.workers[c := s.workers[c].(phase := p)])
  }

  /** queue_work_on_cpu, called by any thread with a new item. */
  predicate Push(s: State, s': State, c: Cpu, id: Id, free: bool, exclusive: bool) {
    && c in s.workers && id !in s.items && (exclusive ==> free)
    && var w := s.workers[c];
       s' == s.(items := s.items[id := Item(free, exclusive, false, true)],
                workers := s.workers[c := w.(queue := w.queue + [id], pushed := w.pushed + [id])])
  }

  function Pop(s: State, c: Cpu): State
    requires c in s.workers && s.workers[c].queue != []
  {
    var w := s.workers[c];
    s.(workers := s.workers[c := w.(queue := w.queue[1..], phase := Popped(w.queue[0]))])
  }

  function RunItem(s: State, c: Cpu, id: Id, p: Phase): State
    requires c in s.workers
  {
    s.(workers := s.workers[c := s.workers[c].(ran := s.workers[c].ran + [id], phase := p)])
  }

  /** After the item ran: free it or set `done`, then look for the next one. */
  function Finished(s: State, c: Cpu, id: Id): State
    requires c in s.workers && id in s.items
  {
    var it := s.items[id];
    var s1 := s.(items := s.items[id := if it.free then it.(live := false) else it.(done := true)]);
    if s.workers[c].queue == [] then SetPhase(s1, c, Idle) else Pop(s1, c)
  }

  /** One step of process_queued_cpu_work on CPU c. */
  predicate WorkerStep(s: State, s': State, c: Cpu) {
    && c in s.workers && c in s.ex.threads
    && match s.workers[c].phase
       case Idle => Quiescent(s, c) && s.workers[c].queue != [] && s' == Pop(s, c)
       case Popped(id) =>
         && id in s.items
         && if s.items[id].exclusive then
              Call(s, s', c, s.ex.threads[c].(pc := StartLock), Entering(id))
            else s' == SetPhase(s, c, Plain(id))
       case Plain(id) => s' == RunItem(s, c, id, Finish(id))
       case Entering(id) => s.ex.threads[c].pc == Outside && s' == SetPhase(s, c, Section(id))
       case Section(id) => s' == RunItem(s, c, id, Ran(id))
       case Ran(id) => Call(s, s', c, s.ex.threads[c].(depth := 0, pc := EndLock), Leaving(id))
       case Leaving(id) => Quiescent(s, c) && s' == SetPhase(s, c, Finish(id))
       case Finish(id) => id in s.items && s' == Finished(s, c, id)
  }

  /** The thread of CPU c, outside the protocol, calls start_exclusive or end_exclusive. */
  predicate Call(s: State, s': State, c: Cpu, t: Thread, p: Phase)
    requires c in s.workers
  {
    && c in s.ex.threads && s.ex.threads[c].pc == Outside
    && OutsideStep(s.ex, s'.ex, c) && s'.ex == Put(s.ex, c, t)
    && s' == SetPhase(s, c, p).(ex := s'.ex)
  }

  /**
   A step of the protocol.  While CPU c processes work its thread makes no call
   of its own, but goes on with the call that the item made.
   */
  predicate ProtocolStep(s: State, s': State, c: Cpu) {
    && Exclusive.Step(true, s.ex, s'.ex, c) && s' == s.(ex := s'.ex)
    && c in s.workers
    && (s.workers[c].phase != Idle ==> s.ex.threads[c].pc != Outside || s'.ex.threads == s.ex.threads)
  }

  /** do_run_on_cpu sees `done` and returns; the item on its stack is gone. */
  predicate SyncReturn(s: State, s': State, id: Id) {
    && id in s.items && !s.items[id].free && s.items[id].live && s.items[id].done
    && s' == s.(items := s.items[id := s.items[id].(live := false)])
  }

  /** do_run_on_cpu is called by the thread of the CPU itself: the function runs at once, and no item is queued. */
  predicate DirectRun(s: State, s': State, c: Cpu, id: Id) {
    && c in s.workers && id !in s.items
    && var w := s.workers[c];
       s' == s.(items := s.items[id := Item(false, false, true, false)],
                workers := s.workers[c := w.(direct := w.direct + [id])])
  }

  ghost predicate Next(s: State, s': State) {
    || (exists c, id, free, exclusive :: Push(s, s', c, id, free, exclusive))
    || (exists c :: WorkerStep(s, s', c))
    || (exists c :: ProtocolStep(s, s', c))
    || (exists id :: SyncReturn(s, s', id))
    || (exists c, id :: DirectRun(s, s', c, id))
  }

  ghost predicate Run(r: seq<State>) {
    && |r| > 0 && Init(r[0])
    && forall i :: 0 <= i < |r| - 1 ==> Next(r[i], r[i + 1])
  }

  // ------------------------------------------------------------ invariant

  /** The item that was taken off the queue and has not run yet. */
  function Waiting(p: Phase): seq<Id> {
    if p.Popped? || p.Plain? || p.Entering? || p.Section? then [p.id] else []
  }

  /** The item that the consumer may still read or write. */
  function Touched(p: Phase): seq<Id> {
    if p.Idle? then [] else [p.id]
  }

  predicate Held(w: Worker, id: Id) {
    id in w.queue || id in Touched(w.phase)
  }

  predicate NoDup(q: seq<Id>) {
    forall i, j :: 0 <= i < j < |q| ==> q[i] != q[j]
  }

  ghost predicate WorkerInv(s: State, w: Worker) {
    && w.pushed == w.ran + Waiting(w.phase) + w.queue
    && NoDup(w.pushed)
    && (forall id :: id in w.pushed ==> id in s.items)
    && (forall id :: Held(w, id) ==> id in w.pushed && s.items[id].live && !s.items[id].done)
    && (w.phase.Ran? || w.phase.Leaving? || w.phase.Finish? ==> w.phase.id in w.ran)
  }

  /** How the phase of the worker and the state of its thread go together. */
  predicate PhaseInv(s: State, c: Cpu)
    requires c in s.workers && c in s.ex.threads
  {
    var t := s.ex.threads[c];
    match s.workers[c].phase
    case Idle => true
    case Popped(_) | Finish(_) => t.pc == Outside && t.depth == 0
    case Plain(id) => t.pc == Outside && t.depth == 0 && id in s.items && !s.items[id].exclusive
    case Entering(id) =>
      id in s.items && s.items[id].exclusive &&
        (if t.pc == Outside then t.depth == 1 else StartPc(t.pc) && t.depth == 0)
    case Section(id) => id in s.items && s.items[id].exclusive && t.pc == Outside && t.depth == 1
    case Ran(id) => t.pc == Outside && t.depth == 1
    case Leaving(id) => t.depth == 0 && (t.pc == Outside || EndPc(t.pc))
  }

  predicate StartPc(pc: Pc) {
    match pc
    case StartLock | StartIdle | StartIdleWait | StartRaise | StartFence | StartScan(_, _) | StartMark(_, _, _)
      | StartPublish(_) | StartDrain | StartDrainWait | StartUnlock | StartEnter => true
    case _ => false
  }

  predicate EndPc(pc: Pc) {
    pc.EndLock? || pc.EndClear? || pc.EndBroadcast? || pc.EndUnlock?
  }

  predicate Apart(s: State) {
    forall c, d, id ::
      c in s.workers && d in s.workers && id in s.workers[c].pushed && id in s.workers[d].pushed ==> c == d
  }

  /** The thread of some CPU has run the item's function. */
  ghost predicate HasRun(s: State, id: Id) {
    exists c :: c in s.workers && RanIt(s.workers[c], id)
  }

  predicate RanIt(w: Worker, id: Id) {
    id in w.ran || id in w.direct
  }

  /** An item that is done, or no longer live, has been run. */
  ghost predicate DoneRan(s: State) {
    forall id :: id in s.items && (s.items[id].done || !s.items[id].live) ==> HasRun(s, id)
  }

  /** The storage of an item has been given back to its owner: freed, or left to the synchronous caller. */
  predicate GivenBack(it: Item) {
    if it.free then !it.live else it.done || !it.live
  }

  /** An item that the worker has run and does not touch any more has been given back. */
  ghost predicate RanReleased(s: State) {
    forall c, id :: c in s.workers && id in s.workers[c].ran && id !in Touched(s.workers[c].phase) ==>
      id in s.items && GivenBack(s.items[id])
  }

  ghost predicate QueueInv(s: State) {
    && Inv(s.ex) && s.workers.Keys == s.ex.threads.Keys
    && (forall c :: c in s.workers ==> WorkerInv(s, s.workers[c]) && PhaseInv(s, c))
    && Apart(s)
    && DoneRan(s)
    && RanReleased(s)
  }

  lemma InitQueueInv(s: State)
    requires Init(s)
    ensures QueueInv(s)
  {
    InitInv(s.ex);
    hide Inv;
  }

  /** A worker does not notice changes to items that are not its own. */
  lemma WorkerFrame(s: State, s': State, w: Worker)
    requires WorkerInv(s, w)
    requires forall id :: id in w.pushed ==> id in s'.items && s'.items[id] == s.items[id]
    ensures WorkerInv(s', w)
  {
  }

  lemma PhaseFrame(s: State, s': State, c: Cpu)
    requires c in s.workers && c in s.ex.threads && PhaseInv(s, c) && WorkerInv(s, s.workers[c])
    requires c in s'.workers && c in s'.ex.threads
    requires s'.ex.threads[c] == s.ex.threads[c] && s'.workers[c].phase == s.workers[c].phase
    requires forall id :: id in s.workers[c].pushed ==> id in s'.items && s'.items[id] == s.items[id]
    ensures PhaseInv(s', c)
  {
    hide StartPc, EndPc, NoDup;
    if !s.workers[c].phase.Idle? { assert Held(s.workers[c], s.workers[c].phase.id); }
  }

  /** What the invariant says about one worker. */
  lemma WorkerFacts(s: State, d: Cpu)
    requires QueueInv(s) && d in s.workers
    ensures d in s.ex.threads && WorkerInv(s, s.workers[d]) && PhaseInv(s, d)
  {
    hide Inv, Apart, DoneRan, RanReleased, WorkerInv, PhaseInv;
  }

  lemma SharedFacts(s: State)
    requires QueueInv(s)
    ensures Inv(s.ex) && s.workers.Keys == s.ex.threads.Keys && Apart(s) && DoneRan(s) && RanReleased(s)
  {
    hide Inv, Apart, DoneRan, RanReleased, WorkerInv, PhaseInv;
  }

  lemma MakeInv(s: State)
    requires Inv(s.ex) && s.workers.Keys == s.ex.threads.Keys && Apart(s) && DoneRan(s) && RanReleased(s)
    requires forall c :: c in s.workers ==> WorkerInv(s, s.workers[c]) && PhaseInv(s, c)
    ensures QueueInv(s)
  {
    hide Inv, Apart, DoneRan, RanReleased, WorkerInv, PhaseInv;
  }

  /** The worker gives back no item that it does not run, and items that were given back stay so. */
  lemma ReleasedFrame(s: State, s': State)
    requires RanReleased(s) && s'.workers.Keys == s.workers.Keys
    requires forall c, id :: c in s.workers && id in s'.workers[c].ran && id !in Touched(s'.workers[c].phase) ==>
      id in s.workers[c].ran && id !in Touched(s.workers[c].phase)
    requires forall id :: id in s.items && GivenBack(s.items[id]) ==> id in s'.items && GivenBack(s'.items[id])
    ensures RanReleased(s')
  {
  }

  lemma PushWorker(s: State, s': State, c: Cpu, id: Id, free: bool, exclusive: bool)
    requires Push(s, s', c, id, free, exclusive) && WorkerInv(s, s.workers[c])
    ensures WorkerInv(s', s'.workers[c])
  {
    var w, w' := s.workers[c], s'.workers[c];
    assert w'.ran + Waiting(w'.phase) + w'.queue == w.ran + Waiting(w.phase) + w.queue + [id];
    assert id !in w.pushed;
  }

  lemma PushApart(s: State, s': State, c: Cpu, id: Id, free: bool, exclusive: bool)
    requires QueueInv(s) && Push(s, s', c, id, free, exclusive)
    ensures Apart(s')
  {
    forall d | d in s.workers ensures id !in s.workers[d].pushed {
      hide QueueInv;
      WorkerFacts(s, d);
    }
    assert Apart(s) by { hide Inv, PhaseInv, WorkerInv, DoneRan; }
    hide QueueInv;
  }

  lemma PushKeeps(s: State, s': State, c: Cpu, id: Id, free: bool, exclusive: bool)
    requires QueueInv(s) && Push(s, s', c, id, free, exclusive)
    ensures QueueInv(s')
  {
    hide QueueInv, Inv, DoneRan, RanReleased;
    SharedFacts(s);
    PushApart(s, s', c, id, free, exclusive);
    forall d | d in s'.workers ensures WorkerInv(s', s'.workers[d]) && PhaseInv(s', d) {
      PushOneWorker(s, s', c, id, free, exclusive, d);
    }
    hide WorkerInv, PhaseInv, Apart, DoneRan, RanReleased;
    DoneRanGrows(s, s');
    ReleasedFrame(s, s');
    MakeInv(s');
  }

  lemma PushOneWorker(s: State, s': State, c: Cpu, id: Id, free: bool, exclusive: bool, d: Cpu)
    requires QueueInv(s) && Push(s, s', c, id, free, exclusive) && d in s'.workers
    ensures d in s'.ex.threads && WorkerInv(s', s'.workers[d]) && PhaseInv(s', d)
  {
    hide QueueInv, Inv;
    SharedFacts(s);
    WorkerFacts(s, d);
    if d == c {
      PushWorker(s, s', c, id, free, exclusive);
    } else {
      WorkerFrame(s, s', s.workers[d]);
    }
    PhaseFrame(s, s', d);
  }

  lemma DoneRanGrows(s: State, s': State)
    requires DoneRan(s)
    requires forall c :: c in s.workers ==>
      c in s'.workers && s.workers[c].ran <= s'.workers[c].ran && s.workers[c].direct <= s'.workers[c].direct
    requires forall id :: id in s'.items && (s'.items[id].done || !s'.items[id].live) ==>
      (id in s.items && s'.items[id] == s.items[id]) || HasRun(s', id)
    ensures DoneRan(s')
  {
    forall id | id in s'.items && (s'.items[id].done || !s'.items[id].live) ensures HasRun(s', id) {
      if id in s.items && s'.items[id] == s.items[id] {
        assert HasRun(s, id);
        var d :| d in s.workers && RanIt(s.workers[d], id);
        assert RanIt(s'.workers[d], id);
      }
    }
  }

  lemma DirectKeeps(s: State, s': State, c: Cpu, id: Id)
    requires QueueInv(s) && DirectRun(s, s', c, id)
    ensures QueueInv(s')
  {
    hide QueueInv, Inv, PhaseInv, DoneRan, RanReleased;
    SharedFacts(s);
    forall d | d in s'.workers ensures WorkerInv(s', s'.workers[d]) && PhaseInv(s', d) {
      WorkerFacts(s, d);
      DirectWorker(s, s', c, id, d);
    }
    assert RanIt(s'.workers[c], id);
    hide WorkerInv, RanIt;
    DoneRanGrows(s, s');
    ReleasedFrame(s, s');
    assert Apart(s');
    MakeInv(s') by { hide Apart; }
  }

  lemma DirectWorker(s: State, s': State, c: Cpu, id: Id, d: Cpu)
    requires DirectRun(s, s', c, id) && d in s.workers && d in s.ex.threads && WorkerInv(s, s.workers[d]) &&
      PhaseInv(s, d)
    ensures WorkerInv(s', s'.workers[d]) && PhaseInv(s', d)
  {
    WorkerFrame(s, s', s.workers[d]);
    PhaseFrame(s, s', d);
    hide PhaseInv;
  }

  lemma SyncReturnWorker(s: State, s': State, id: Id, d: Cpu)
    requires d in s.workers && d in s.ex.threads && SyncReturn(s, s', id)
    requires WorkerInv(s, s.workers[d]) && PhaseInv(s, d)
    ensures WorkerInv(s', s'.workers[d]) && PhaseInv(s', d)
  {
    hide StartPc, EndPc, NoDup;
    assert !Held(s.workers[d], id);
  }

  lemma SyncReturnKeeps(s: State, s': State, id: Id)
    requires QueueInv(s) && SyncReturn(s, s', id)
    ensures QueueInv(s')
  {
    hide QueueInv, Inv;
    SharedFacts(s);
    forall d | d in s'.workers ensures WorkerInv(s', s'.workers[d]) && PhaseInv(s', d) {
      WorkerFacts(s, d);
      SyncReturnWorker(s, s', id, d);
    }
    MakeInv(s') by { hide WorkerInv, PhaseInv; }
  }

  /** The call that an item made moves on inside the protocol. */
  lemma CallMoves(s: Exclusive.State, s': Exclusive.State, c: Cpu)
    requires Inv(s) && Step(true, s, s', c) && s.threads[c].pc != Outside && s.threads[c].depth == 0
    ensures c in s'.threads
    ensures StartPc(s.threads[c].pc) ==>
      (StartPc(s'.threads[c].pc) && s'.threads[c].depth == 0) ||
        (s'.threads[c].pc == Outside && s'.threads[c].depth == 1)
    ensures EndPc(s.threads[c].pc) ==>
      (EndPc(s'.threads[c].pc) || s'.threads[c].pc == Outside) && s'.threads[c].depth == 0
  {
    hide Inv, Pending;
    if StartPc(s.threads[c].pc) {
    } else if EndPc(s.threads[c].pc) {
    } else {
      hide StartStep, EndStep;
    }
  }

  lemma ProtocolPhase(s: State, s': State, c: Cpu, d: Cpu)
    requires Inv(s.ex) && ProtocolStep(s, s', c) && Frame(s.ex, s'.ex, c)
    requires d in s.workers && d in s.ex.threads && PhaseInv(s, d)
    ensures PhaseInv(s', d)
  {
    hide Inv, Step;
    if d == c && s.ex.threads[c].pc != Outside && s.ex.threads[c].depth == 0 {
      CallMoves(s.ex, s'.ex, c);
    }
    hide StartPc, EndPc;
  }

  lemma ProtocolKeeps(s: State, s': State, c: Cpu)
    requires QueueInv(s) && ProtocolStep(s, s', c)
    ensures QueueInv(s')
  {
    hide QueueInv, Inv, Step;
    SharedFacts(s);
    StepKeepsInv(s.ex, s'.ex, c);
    StepFrame(s.ex, s'.ex, c);
    forall d | d in s'.workers ensures WorkerInv(s', s'.workers[d]) && PhaseInv(s', d) {
      WorkerFacts(s, d);
      WorkerFrame(s, s', s.workers[d]);
      ProtocolPhase(s, s', c, d);
    }
    SameWork(s, s');
    MakeInv(s') by { hide WorkerInv, PhaseInv, Apart, DoneRan; }
  }

  lemma SameWork(s: State, s': State)
    requires s'.workers == s.workers && s'.items == s.items && Apart(s) && DoneRan(s)
    ensures Apart(s') && DoneRan(s')
  {
  }

  // One worker moves; the others and, unless the item is finished, the items stay.

  predicate OnlyWorker(s: State, s': State, c: Cpu) {
    && c in s.workers && c in s'.workers && s'.workers == s.workers[c := s'.workers[c]]
    && s'.ex.threads.Keys == s.ex.threads.Keys
    && (forall d :: d in s.ex.threads && d != c ==> s'.ex.threads[d] == s.ex.threads[d])
    && s'.workers[c].pushed == s.workers[c].pushed && s.workers[c].ran <= s'.workers[c].ran
    && s'.workers[c].direct == s.workers[c].direct
    && s'.items.Keys == s.items.Keys
    && (forall id :: id in s.items && s'.items[id] != s.items[id] ==>
          id in s.workers[c].pushed && id in s'.workers[c].ran)
  }

  /** What the worker leaves has been given back, and nothing is taken back. */
  ghost predicate GivesBack(s: State, s': State, c: Cpu) {
    && c in s.workers && c in s'.workers
    && (forall id :: id in s'.workers[c].ran && id !in Touched(s'.workers[c].phase) ==>
          (id in s.workers[c].ran && id !in Touched(s.workers[c].phase)) || (id in s'.items && GivenBack(s'.items[id])))
    && (forall id :: id in s.items && GivenBack(s.items[id]) ==> id in s'.items && GivenBack(s'.items[id]))
  }

  lemma MoveReleases(s: State, s': State, c: Cpu)
    requires RanReleased(s) && OnlyWorker(s, s', c) && GivesBack(s, s', c)
    ensures RanReleased(s')
  {
    forall d, id | d in s'.workers && id in s'.workers[d].ran && id !in Touched(s'.workers[d].phase)
      ensures id in s'.items && GivenBack(s'.items[id])
    {
      if d != c { assert id in s.items && GivenBack(s.items[id]); }
    }
  }

  lemma OtherWorker(s: State, s': State, c: Cpu, d: Cpu)
    requires QueueInv(s) && OnlyWorker(s, s', c) && d in s.workers && d != c && d in s'.ex.threads
    ensures WorkerInv(s', s'.workers[d]) && PhaseInv(s', d)
  {
    assert Apart(s) by { hide Inv, PhaseInv, WorkerInv, DoneRan; }
    hide QueueInv, PhaseInv;
    WorkerFacts(s, d);
    assert forall id :: id in s.workers[d].pushed ==> id in s.items && s'.items[id] == s.items[id];
    hide OnlyWorker;
    WorkerFrame(s, s', s.workers[d]);
    PhaseFrame(s, s', d);
  }

  lemma WorkerMove(s: State, s': State, c: Cpu)
    requires QueueInv(s) && OnlyWorker(s, s', c) && Inv(s'.ex) && GivesBack(s, s', c)
    requires WorkerInv(s', s'.workers[c]) && c in s'.ex.threads && PhaseInv(s', c)
    ensures QueueInv(s')
  {
    hide QueueInv, Inv, WorkerInv, PhaseInv;
    SharedFacts(s);
    forall d | d in s'.workers ensures WorkerInv(s', s'.workers[d]) && PhaseInv(s', d) {
      if d != c { OtherWorker(s, s', c, d); }
    }
    assert Apart(s') by { hide DoneRan; }
    forall id | id in s.items && s'.items[id] != s.items[id] ensures HasRun(s', id) { assert RanIt(s'.workers[c], id); }
    DoneRanGrows(s, s') by { hide Apart, DoneRan, HasRun, RanReleased; }
    MoveReleases(s, s', c) by { hide Apart, DoneRan, HasRun; }
    MakeInv(s') by { hide Apart, DoneRan, OnlyWorker, RanReleased; }
  }

  lemma PopWorker(s: State, w: Worker)
    requires WorkerInv(s, w) && w.queue != [] && Waiting(w.phase) == []
    ensures WorkerInv(s, w.(queue := w.queue[1..], phase := Popped(w.queue[0])))
    ensures w.queue[0] in s.items
  {
    var w' := w.(queue := w.queue[1..], phase := Popped(w.queue[0]));
    assert w'.ran + Waiting(w'.phase) + w'.queue == w.ran + Waiting(w.phase) + w.queue;
    assert Held(w, w.queue[0]);
    assert forall id :: Held(w', id) ==> Held(w, id);
  }

  lemma RunWorker(s: State, w: Worker, p: Phase)
    requires WorkerInv(s, w) && Waiting(w.phase) != [] && Waiting(p) == [] && Touched(p) == [w.phase.id]
    ensures WorkerInv(s, w.(ran := w.ran + [w.phase.id], phase := p))
  {
    var w' := w.(ran := w.ran + [w.phase.id], phase := p);
    assert w'.ran + Waiting(w'.phase) + w'.queue == w.ran + Waiting(w.phase) + w.queue;
    assert forall id :: Held(w', id) ==> Held(w, id);
  }

  lemma RanNotQueued(w: Worker, id: Id)
    requires w.pushed == w.ran + Waiting(w.phase) + w.queue && NoDup(w.pushed) && id in w.ran
    ensures id !in w.queue
  {
    var i :| 0 <= i < |w.ran| && w.ran[i] == id;
    forall j | 0 <= j < |w.queue| ensures w.queue[j] != id {
      assert w.pushed[i] == id && w.pushed[|w.pushed| - |w.queue| + j] == w.queue[j];
    }
  }

  lemma FinishWorker(s: State, s': State, c: Cpu, id: Id)
    requires c in s.workers && s.workers[c].phase == Finish(id) && WorkerInv(s, s.workers[c]) && id in s.items
    requires s' == Finished(s, c, id)
    ensures WorkerInv(s', s'.workers[c]) && OnlyWorker(s, s', c) && GivesBack(s, s', c)
  {
    var w := s.workers[c];
    var w0 := w.(phase := Idle);
    var s1 := s.(items := s'.items);
    assert WorkerInv(s1, w0) by {
      assert w0.ran + Waiting(w0.phase) + w0.queue == w.ran + Waiting(w.phase) + w.queue;
      RanNotQueued(w, id);
      assert forall x :: Held(w0, x) ==> Held(w, x) && x != id;
    }
    if w.queue != [] {
      PopWorker(s1, w0);
    }
  }

  lemma IdleKeeps(s: State, s': State, c: Cpu)
    requires QueueInv(s) && WorkerStep(s, s', c) && s.workers[c].phase == Idle
    ensures QueueInv(s')
  {
    hide QueueInv, Inv, WorkerInv;
    SharedFacts(s);
    WorkerFacts(s, c);
    PopWorker(s, s.workers[c]);
    assert WorkerInv(s', s'.workers[c]) by { WorkerFrame0(s, s', s'.workers[c]); }
    WorkerMove(s, s', c);
  }

  lemma WorkerFrame0(s: State, s': State, w: Worker)
    requires WorkerInv(s, w) && s'.items == s.items
    ensures WorkerInv(s', w)
  {
  }

  lemma RunKeeps(s: State, s': State, c: Cpu)
    requires QueueInv(s) && WorkerStep(s, s', c) && (s.workers[c].phase.Plain? || s.workers[c].phase.Section?)
    ensures QueueInv(s')
  {
    hide QueueInv, Inv, WorkerInv;
    SharedFacts(s);
    WorkerFacts(s, c);
    RunWorker(s, s.workers[c], s'.workers[c].phase);
    WorkerFrame0(s, s', s'.workers[c]);
    WorkerMove(s, s', c);
  }

  lemma PhaseWorker(s: State, w: Worker, p: Phase)
    requires WorkerInv(s, w) && Waiting(p) == Waiting(w.phase) && Touched(p) == Touched(w.phase) && !p.Idle?
    ensures WorkerInv(s, w.(phase := p))
  {
    var w' := w.(phase := p);
    assert forall id :: Held(w', id) <==> Held(w, id);
  }

  lemma PhaseMoves(s: State, s': State, c: Cpu)
    requires Inv(s.ex) && WorkerStep(s, s', c) && PhaseInv(s, c)
    requires s.workers[c].phase.Popped? || s.workers[c].phase.Entering? || s.workers[c].phase.Ran? ||
      s.workers[c].phase.Leaving?
    ensures Inv(s'.ex) && OnlyWorker(s, s', c) && c in s'.ex.threads && PhaseInv(s', c)
  {
    hide Inv;
    if s'.ex != s.ex {
      assert Step(true, s.ex, s'.ex, c) by { hide StartStep, EndStep, ExecStep, QuitStep; }
      StepKeepsInv(s.ex, s'.ex, c);
    }
    hide Step, OutsideStep;
  }

  /** Steps that only move the item on to its next phase, with or without a call. */
  lemma PhaseKeeps(s: State, s': State, c: Cpu)
    requires QueueInv(s) && WorkerStep(s, s', c)
    requires s.workers[c].phase.Popped? || s.workers[c].phase.Entering? || s.workers[c].phase.Ran? ||
      s.workers[c].phase.Leaving?
    ensures QueueInv(s')
  {
    hide QueueInv, Inv, WorkerInv;
    SharedFacts(s);
    WorkerFacts(s, c);
    PhaseMoves(s, s', c);
    hide Step, OutsideStep, PhaseInv;
    PhaseWorker(s, s.workers[c], s'.workers[c].phase);
    WorkerFrame0(s, s', s'.workers[c]);
    WorkerMove(s, s', c);
  }

  lemma FinishKeeps(s: State, s': State, c: Cpu)
    requires QueueInv(s) && WorkerStep(s, s', c) && s.workers[c].phase.Finish?
    ensures QueueInv(s')
  {
    hide QueueInv, Inv, WorkerInv, OnlyWorker;
    SharedFacts(s);
    WorkerFacts(s, c);
    FinishWorker(s, s', c, s.workers[c].phase.id);
    WorkerMove(s, s', c);
  }

  lemma NextKeeps(s: State, s': State)
    requires QueueInv(s) && Next(s, s')
    ensures QueueInv(s')
  {
    hide QueueInv, Push, ProtocolStep, SyncReturn, DirectRun;
    if c, id, free, exclusive :| Push(s, s', c, id, free, exclusive) {
      PushKeeps(s, s', c, id, free, exclusive);
    } else if c :| ProtocolStep(s, s', c) {
      ProtocolKeeps(s, s', c);
    } else if id :| SyncReturn(s, s', id) {
      SyncReturnKeeps(s, s', id);
    } else if c, id :| DirectRun(s, s', c, id) {
      DirectKeeps(s, s', c, id);
    } else {
      var c :| WorkerStep(s, s', c);
      match s.workers[c].phase
      case Idle => IdleKeeps(s, s', c);
      case Plain(_) | Section(_) => RunKeeps(s, s', c);
      case Finish(_) => FinishKeeps(s, s', c);
      case _ => PhaseKeeps(s, s', c);
    }
  }

  lemma {:induction false} RunQueueInv(r: seq<State>, i: nat)
    requires Run(r) && i < |r|
    ensures QueueInv(r[i])
  {
    if i == 0 {
      InitQueueInv(r[0]);
    } else {
      RunQueueInv(r, i - 1);
      NextKeeps(r[i - 1], r[i]);
    }
  }

  // --------------------------------------------------------- main results

  /** Items of one CPU run in the order of their insertion and at most once each. */
  lemma RunsInOrderOnce(r: seq<State>, i: nat, c: Cpu)
    requires Run(r) && i < |r| && c in r[i].workers
    ensures r[i].workers[c].ran <= r[i].workers[c].pushed && NoDup(r[i].workers[c].ran)
    ensures r[i].workers[c].pushed == r[i].workers[c].ran + Waiting(r[i].workers[c].phase) + r[i].workers[c].queue
  {
    RunQueueInv(r, i);
    hide Run, QueueInv;
    WorkerFacts(r[i], c);
    InOrder(r[i], r[i].workers[c]);
  }

  lemma InOrder(s: State, w: Worker)
    requires WorkerInv(s, w)
    ensures w.ran <= w.pushed && NoDup(w.ran) && w.pushed == w.ran + Waiting(w.phase) + w.queue
  {
    assert w.ran == w.pushed[..|w.ran|];
  }

  /** The item that worker c is about to run, if any, is run the way its kind asks for. */
  predicate RunsAsAsked(s: State, c: Cpu, d: Cpu)
    requires c in s.workers && d in s.ex.threads
  {
    var p := s.workers[c].phase;
    && (p.Plain? ==> p.id in s.items && !s.items[p.id].exclusive)
    && (p.Section? ==>
          && p.id in s.items && s.items[p.id].exclusive
          && c in s.ex.threads && InSection(s.ex.threads[c])
          && !Executes(s.ex.threads[d].pc)
          && (InSection(s.ex.threads[d]) ==> d == c))
  }

  lemma StateRunsAsAsked(s: State, c: Cpu, d: Cpu)
    requires QueueInv(s) && c in s.workers && d in s.ex.threads
    ensures RunsAsAsked(s, c, d)
  {
    hide QueueInv, Inv, WorkerInv, StartPc, EndPc, Executes;
    WorkerFacts(s, c);
    SharedFacts(s);
    if s.workers[c].phase.Section? {
      SectionExcludes(s.ex, c, d);
    }
  }

  /**
   When an item queued by async_safe_run_on_cpu is about to run, its CPU is in an
   exclusive section, no CPU executes and no other thread is in a section; every
   other item runs without a section of its own.
   */
  lemma ExclusiveItemRunsAlone(r: seq<State>, i: nat, c: Cpu, d: Cpu)
    requires Run(r) && i < |r| && c in r[i].workers && d in r[i].ex.threads
    ensures RunsAsAsked(r[i], c, d)
  {
    hide Run, RunsAsAsked, QueueInv;
    RunQueueInv(r, i);
    StateRunsAsAsked(r[i], c, d);
  }

  /** do_run_on_cpu returns only after the function was run, from the queue or on the spot. */
  lemma SyncReturnAfterRun(r: seq<State>, i: nat, id: Id)
    requires Run(r) && i < |r| && id in r[i].items && (r[i].items[id].done || !r[i].items[id].live)
    ensures HasRun(r[i], id)
  {
    RunQueueInv(r, i);
    hide QueueInv, Inv;
    SharedFacts(r[i]);
  }

  /** The consumer only touches items that are live and not done: never one that it marked done or freed. */
  lemma ConsumerTouchesLive(r: seq<State>, i: nat, c: Cpu, id: Id)
    requires Run(r) && i < |r| && c in r[i].workers && Held(r[i].workers[c], id)
    ensures id in r[i].items && r[i].items[id].live && !r[i].items[id].done
  {
    RunQueueInv(r, i);
    hide QueueInv, Inv;
    WorkerFacts(r[i], c);
  }

  /**
   When the worker has run an item and turned to something else, the item has been
   freed, or its synchronous caller has been told; so that a caller that has not
   returned yet can.
   */
  lemma RanItemsAreReleased(r: seq<State>, i: nat, c: Cpu, id: Id)
    requires Run(r) && i < |r| && c in r[i].workers && id in r[i].workers[c].ran
    requires r[i].workers[c].phase.Idle? || r[i].workers[c].phase.id != id
    ensures id in r[i].items
    ensures var it := r[i].items[id]; if it.free then !it.live else it.done || !it.live
    ensures !r[i].items[id].free && r[i].items[id].live ==> exists s' :: SyncReturn(r[i], s', id)
  {
    RunQueueInv(r, i);
    hide QueueInv, Inv, Run;
    var s := r[i];
    SharedFacts(s);
    assert id in s.items && GivenBack(s.items[id]);
    if !s.items[id].free && s.items[id].live {
      assert SyncReturn(s, s.(items := s.items[id := s.items[id].(live := false)]), id);
    }
  }

  /** What can happen to an item: its worker finishes it, or its caller sees that it is done and returns. */
  predicate ItemMoves(s: State, s': State, id: Id) {
    && id in s.items && id in s'.items
    && var it, it' := s.items[id], s'.items[id];
       && it'.free == it.free && it'.exclusive == it.exclusive && (it.done ==> it'.done) && (it'.live ==> it.live)
       && (!it.done && it'.done ==> !it.free && Finishing(s, id))
       && (it.live && !it'.live ==> if it.free then Finishing(s, id) else it.done)
  }

  /** A worker is at the end of the item. */
  predicate Finishing(s: State, id: Id) {
    exists c :: c in s.workers && s.workers[c].phase == Finish(id) && id in s.workers[c].ran
  }

  lemma ItemsSame(s: State, s': State, c: Cpu)
    requires WorkerStep(s, s', c) && !s.workers[c].phase.Finish?
    ensures s'.items == s.items
  {
    hide OutsideStep;
  }

  lemma FinishItem(s: State, s': State, c: Cpu)
    requires WorkerStep(s, s', c) && s.workers[c].phase.Finish? && WorkerInv(s, s.workers[c])
    ensures var x := s.workers[c].phase.id;
      && x in s.items && s.items[x].live && !s.items[x].done && x in s.workers[c].ran && s'.items.Keys == s.items.Keys
      && (forall id :: id in s.items && id != x ==> s'.items[id] == s.items[id])
      && s'.items[x] == if s.items[x].free then s.items[x].(live := false) else s.items[x].(done := true)
  {
    assert Held(s.workers[c], s.workers[c].phase.id);
    hide OutsideStep, NoDup;
  }

  lemma WorkerItemMoves(s: State, s': State, c: Cpu, id: Id)
    requires QueueInv(s) && WorkerStep(s, s', c) && id in s.items
    ensures ItemMoves(s, s', id)
  {
    hide QueueInv, WorkerInv, PhaseInv;
    WorkerFacts(s, c);
    if s.workers[c].phase.Finish? {
      FinishItem(s, s', c);
      hide WorkerStep;
      if s.workers[c].phase.id == id { assert Finishing(s, id); }
    } else {
      ItemsSame(s, s', c);
      hide WorkerStep, Finishing;
    }
  }

  /** An item lives until its worker frees it or its caller returns, and becomes done only by its worker. */
  lemma ItemLife(s: State, s': State, id: Id)
    requires QueueInv(s) && Next(s, s') && id in s.items
    ensures ItemMoves(s, s', id)
  {
    hide QueueInv, WorkerStep;
    if c :| WorkerStep(s, s', c) {
      WorkerItemMoves(s, s', c, id);
    } else {
      hide Finishing;
    }
  }

  /** The item is what the caller of queue_work_on_cpu made it. */
  predicate Flagged(s: State, id: Id, free: bool, exclusive: bool) {
    id in s.items && s.items[id].free == free && s.items[id].exclusive == exclusive
  }

  /**
   Anybody can queue work at any time.  It goes to the end of the queue, not done and
   with valid storage, and from then on it is exclusive and freed by the worker exactly
   if the caller asked for that.
   */
  lemma PushQueues(r: seq<State>, c: Cpu, id: Id, free: bool, exclusive: bool) returns (s': State)
    requires Run(r) && c in r[|r| - 1].workers && id !in r[|r| - 1].items && (exclusive ==> free)
    ensures Run(r + [s']) && Flagged(s', id, free, exclusive) && s'.items[id].live && !s'.items[id].done
    ensures c in s'.workers && s'.workers[c].queue == r[|r| - 1].workers[c].queue + [id]
    ensures s'.workers[c].phase == r[|r| - 1].workers[c].phase && s'.ex == r[|r| - 1].ex
  {
    var s := r[|r| - 1];
    var w := s.workers[c];
    s' := s.(items := s.items[id := Item(free, exclusive, false, true)],
             workers := s.workers[c := w.(queue := w.queue + [id], pushed := w.pushed + [id])]);
    assert Push(s, s', c, id, free, exclusive);
    hide Push, WorkerStep, ProtocolStep, SyncReturn, DirectRun;
    assert Next(s, s');
    hide Next;
  }

  lemma PushFlags(s: State, s': State, c: Cpu, id: Id, free: bool, exclusive: bool)
    requires Push(s, s', c, id, free, exclusive)
    ensures Flagged(s', id, free, exclusive)
  {
  }

  lemma {:induction false} FlagsStay(r: seq<State>, i: nat, m: nat, id: Id, free: bool, exclusive: bool)
    requires Run(r) && i <= m < |r| && Flagged(r[i], id, free, exclusive)
    ensures Flagged(r[m], id, free, exclusive)
    decreases m
  {
    hide Next, QueueInv, Init, Flagged;
    if i < m {
      FlagsStay(r, i, m - 1, id, free, exclusive);
      RunQueueInv(r, m - 1);
      StepFlags(r[m - 1], r[m], id, free, exclusive);
    }
  }

  lemma StepFlags(s: State, s': State, id: Id, free: bool, exclusive: bool)
    requires QueueInv(s) && Next(s, s') && Flagged(s, id, free, exclusive)
    ensures Flagged(s', id, free, exclusive)
  {
    hide Next, QueueInv, Finishing;
    ItemLife(s, s', id);
  }

  /** Work that is queued as exclusive is never run without a section, and runs alone in its section. */
  lemma SafeWorkRunsAlone(r: seq<State>, i: nat, m: nat, c: Cpu, id: Id, free: bool, d: Cpu)
    requires Run(r) && i + 1 < |r| && i < m < |r| && Push(r[i], r[i + 1], c, id, free, true)
    requires c in r[m].workers && c in r[m].ex.threads && d in r[m].ex.threads
    ensures r[m].workers[c].phase != Plain(id)
    ensures r[m].workers[c].phase == Section(id) ==>
      && InSection(r[m].ex.threads[c]) && !Executes(r[m].ex.threads[d].pc)
      && (InSection(r[m].ex.threads[d]) ==> d == c)
  {
    PushFlags(r[i], r[i + 1], c, id, free, true);
    hide Run, Push;
    FlagsStay(r, i + 1, m, id, free, true);
    ExclusiveItemRunsAlone(r, m, c, d);
    hide Executes;
  }

  /** process_queued_cpu_work returns only when there is no work left, and then does return. */
  lemma ReturnsWhenEmpty(s: State, s': State, c: Cpu)
    requires WorkerStep(s, s', c)
    ensures c in s'.workers
    ensures s'.workers[c].phase.Idle? <==> s.workers[c].phase.Finish? && s.workers[c].queue == []
  {
    hide OutsideStep;
  }

  // ---------------------------------------------------------------- progress

  function PhaseRank(p: Phase): nat {
    match p
    case Idle => 0
    case Popped(_) => 7
    case Plain(_) | Entering(_) => 6
    case Section(_) => 5
    case Ran(_) => 4
    case Leaving(_) => 3
    case Finish(_) => 2
  }

  /** What the worker has left to do. */
  function WorkLeft(w: Worker): nat {
    8 * |w.queue| + PhaseRank(w.phase)
  }

  /** Every step of the worker brings it closer to an empty queue. */
  lemma WorkDrops(s: State, s': State, c: Cpu)
    requires WorkerStep(s, s', c)
    ensures c in s'.workers && WorkLeft(s'.workers[c]) < WorkLeft(s.workers[c])
  {
    hide OutsideStep;
  }

  /**
   A worker with work left can go on, unless its thread is in start_exclusive or
   end_exclusive, or not at the place where it processes work.
   */
  lemma WorkerCanMove(r: seq<State>, i: nat, c: Cpu)
    requires Run(r) && i < |r| && c in r[i].workers && c in r[i].ex.threads && WorkLeft(r[i].workers[c]) > 0
    requires r[i].ex.threads[c].pc == Outside && (r[i].workers[c].phase.Idle? ==> r[i].ex.threads[c].depth == 0)
    ensures exists s' :: WorkerStep(r[i], s', c)
  {
    RunQueueInv(r, i);
    hide Run;
    hide QueueInv, Inv;
    WorkerFacts(r[i], c);
    StateCanMove(r[i], c);
    assert WorkerStep(r[i], Moved(r[i], c), c);
  }

  lemma StateCanMove(s: State, c: Cpu)
    requires c in s.workers && c in s.ex.threads && WorkerInv(s, s.workers[c]) && PhaseInv(s, c)
    requires WorkLeft(s.workers[c]) > 0
    requires s.ex.threads[c].pc == Outside && (s.workers[c].phase.Idle? ==> s.ex.threads[c].depth == 0)
    ensures WorkerStep(s, Moved(s, c), c)
  {
    assert !s.workers[c].phase.Idle? ==> Held(s.workers[c], s.workers[c].phase.id);
    hide WorkerInv, Held, StartPc, EndPc;
  }

  /** Where the worker goes. */
  ghost function Moved(s: State, c: Cpu): State
    requires c in s.workers && c in s.ex.threads && WorkerInv(s, s.workers[c]) && WorkLeft(s.workers[c]) > 0
  {
    var t := s.ex.threads[c];
    assert !s.workers[c].phase.Idle? ==> Held(s.workers[c], s.workers[c].phase.id);
    match s.workers[c].phase
    case Idle => Pop(s, c)
    case Popped(id) =>
      if s.items[id].exclusive then SetPhase(s, c, Entering(id)).(ex := Put(s.ex, c, t.(pc := StartLock)))
      else SetPhase(s, c, Plain(id))
    case Plain(id) => RunItem(s, c, id, Finish(id))
    case Entering(id) => SetPhase(s, c, Section(id))
    case Section(id) => RunItem(s, c, id, Ran(id))
    case Ran(id) => SetPhase(s, c, Leaving(id)).(ex := Put(s.ex, c, t.(depth := 0, pc := EndLock)))
    case Leaving(id) => SetPhase(s, c, Finish(id))
    case Finish(id) => Finished(s, c, id)
  }
}
