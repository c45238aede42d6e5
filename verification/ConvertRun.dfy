/**
 The coroutines of `qemu-img convert` (convert_co_do_copy) as a state machine: any
 number of coroutines, interleaved at every yield point, with an I/O error
 possible at every request.
 */
module ConvertRun {
  import opened Common
  import opened Sparse
  import opened Convert

  /** Where a coroutine is, with its request: `n` sectors from `start` on. */
  datatype Phase =
    | NotStarted
    | WantLock
    | Iterating
    | Reading(start: nat, n: nat, kind: Kind)
    | Ordering(start: nat, n: nat, kind: Kind, buf: seq<Sector>)
    | Waiting(start: nat, n: nat, kind: Kind, buf: seq<Sector>, woken: bool)
    | Writing(start: nat, n: nat, kind: Kind, buf: seq<Sector>, cur: nat)
    | Finishing(start: nat, n: nat)
    | Exiting
    | Exited

  /** s->ret: -EINPROGRESS, 0 or an error. */
  datatype Ret = InProgress | Done | Error

  /** `handed` lists the requests in the order in which they were handed out. */
  datatype State = State(cos: seq<Phase>, sectorNum: nat, cache: Cache, ret: Ret, wrOffs: nat,
                         lock: Option<nat>, running: int, target: seq<Sector>, handed: seq<(nat, nat)>)

  function Total(c: Config): nat {
    |Flat(c.parts)|
  }

  predicate Init(c: Config, init: seq<Sector>, s: State) {
    && Total(c) <= |init| && (c.zeroInit ==> AllZero(init))
    && (forall i :: 0 <= i < |s.cos| ==> s.cos[i] == NotStarted)
    && s.sectorNum == 0 && s.cache.nextStatus == 0 && s.ret == InProgress && s.wrOffs == 0
    && s.lock == None && s.running == 0 && s.target == init && s.handed == []
  }

  // ---------------------------------------------------------------- steps

  function Put(s: State, i: nat, p: Phase): State
    requires i < |s.cos|
  {
    s.(cos := s.cos[i := p])
  }

  predicate StartStep(s: State, s': State, i: nat)
    requires i < |s.cos|
  {
    s.cos[i] == NotStarted && s' == Put(s, i, WantLock).(running := s.running + 1)
  }

  predicate LockStep(c: Config, s: State, s': State, i: nat)
    requires i < |s.cos|
  {
    && s.cos[i] == WantLock && s.lock == None
    && s' == if s.ret != InProgress || s.sectorNum >= Total(c) then Put(s, i, Exiting)
             else Put(s, i, Iterating).(lock := Some(i))
  }

  /** The coroutine that holds the lock asks for the next request. */
  ghost predicate Asks(c: Config, s: State, i: nat) {
    i < |s.cos| && s.cos[i] == Iterating && Valid(c) && s.sectorNum < Total(c)
  }

  /** convert_iteration_sectors fails, because the status query does. */
  ghost predicate IterateFails(c: Config, s: State, s': State, i: nat) {
    && Asks(c, s, i) && NextRequest(c, s.cache, s.sectorNum).None?
    && s' == Put(s, i, Exiting).(lock := None, ret := Error)
  }

  /** How much of a request is handed out: zeroes that have to be written must fit the buffer. */
  function Taken(c: Config, n: nat, kind: Kind): nat {
    if c.minSparse == 0 && kind == ZeroKind then Min(n, c.bufSectors) else n
  }

  /** convert_iteration_sectors answered with n0 sectors; the request is handed out. */
  ghost predicate IterateStep(c: Config, s: State, s': State, i: nat, n0: nat, cache: Cache) {
    && Asks(c, s, i) && NextRequest(c, s.cache, s.sectorNum) == Some((n0, cache))
    && var n := Taken(c, n0, cache.kind);
       s' == Put(s, i, Reading(s.sectorNum, n, cache.kind)).(
               sectorNum := s.sectorNum + n, cache := cache, lock := None, handed := s.handed + [(s.sectorNum, n)])
  }

  predicate ReadStep(c: Config, s: State, s': State, i: nat)
    requires i < |s.cos|
  {
    && s.cos[i].Reading?
    && var p := s.cos[i];
       if p.kind == DataKind then
         && p.start + p.n <= Total(c)
         && s' == Put(s, i, Ordering(p.start, p.n, DataKind, Flat(c.parts)[p.start..p.start + p.n]))
       else if c.minSparse == 0 then s' == Put(s, i, Ordering(p.start, p.n, DataKind, ZeroFill(p.n)))
       else s' == Put(s, i, Ordering(p.start, p.n, ZeroKind, []))
  }

  predicate ReadFails(s: State, s': State, i: nat, buf: seq<Sector>)
    requires i < |s.cos|
  {
    && s.cos[i].Reading? && s.cos[i].kind == DataKind
    && s' == Put(s, i, Ordering(s.cos[i].start, s.cos[i].n, DataKind, buf)).(ret := Error)
  }

  /** The wait for the predecessor's write, and the look at s->ret before writing. */
  predicate OrderStep(c: Config, s: State, s': State, i: nat)
    requires i < |s.cos|
  {
    && (s.cos[i].Ordering? || (s.cos[i].Waiting? && s.cos[i].woken))
    && var p := s.cos[i];
       s' == Put(s, i,
         if c.inOrder && s.wrOffs != p.start && s.ret == InProgress then Waiting(p.start, p.n, p.kind, p.buf, false)
         else if s.ret == InProgress then Writing(p.start, p.n, p.kind, p.buf, p.start)
         else Finishing(p.start, p.n))
  }

  function Rest(p: Phase): seq<Sector>
    requires p.Writing?
  {
    if p.kind == DataKind && p.start <= p.cur <= p.start + |p.buf| then p.buf[p.cur - p.start..] else []
  }

  predicate WriteStep(c: Config, s: State, s': State, i: nat, k: nat)
    requires i < |s.cos|
  {
    && s.cos[i].Writing?
    && var p := s.cos[i];
       && 0 < k && p.cur + k <= p.start + p.n
       && (p.kind == DataKind ==> k <= |Rest(p)|)
       && ChunkEffect(c, s.target, s'.target, p.cur, p.kind, Rest(p), k)
       && s' == Put(s, i, p.(cur := p.cur + k)).(target := s'.target)
  }

  predicate WriteFails(s: State, s': State, i: nat)
    requires i < |s.cos|
  {
    && s.cos[i].Writing? && |s'.target| == |s.target|
    && s' == Put(s, i, Finishing(s.cos[i].start, s.cos[i].n)).(ret := Error, target := s'.target)
  }

  predicate WrittenStep(s: State, s': State, i: nat)
    requires i < |s.cos|
  {
    && s.cos[i].Writing? && s.cos[i].cur == s.cos[i].start + s.cos[i].n
    && s' == Put(s, i, Finishing(s.cos[i].start, s.cos[i].n))
  }

  predicate WaitsFor(p: Phase, off: nat) {
    p.Waiting? && !p.woken && p.start == off
  }

  /** The end of a round: with ordered writes the coroutine that waits for this one is entered. */
  predicate FinishStep(c: Config, s: State, s': State, i: nat)
    requires i < |s.cos|
  {
    && s.cos[i].Finishing?
    && var e := s.cos[i].start + s.cos[i].n;
       if !c.inOrder then s' == Put(s, i, WantLock)
       else if exists j :: 0 <= j < |s.cos| && WaitsFor(s.cos[j], e) then
         exists j :: 0 <= j < |s.cos| && WaitsFor(s.cos[j], e) && s' == Handover(s, i, j, e)
       else s' == Put(s, i, WantLock).(wrOffs := e)
  }

  function Handover(s: State, i: nat, j: nat, e: nat): State
    requires i < |s.cos| && j < |s.cos| && s.cos[j].Waiting?
  {
    Put(Put(s, j, s.cos[j].(woken := true)), i, WantLock).(wrOffs := e)
  }

  predicate ExitStep(s: State, s': State, i: nat)
    requires i < |s.cos|
  {
    && s.cos[i] == Exiting
    && s' == Put(s, i, Exited).(running := s.running - 1,
                                ret := if s.running == 1 && s.ret == InProgress then Done else s.ret)
  }

  ghost predicate Step(c: Config, s: State, s': State, i: nat) {
    && i < |s.cos|
    && (|| StartStep(s, s', i)
        || LockStep(c, s, s', i)
        || IterateFails(c, s, s', i)
        || (exists n0, cache :: IterateStep(c, s, s', i, n0, cache))
        || ReadStep(c, s, s', i)
        || (exists buf :: ReadFails(s, s', i, buf))
        || OrderStep(c, s, s', i)
        || (exists k :: WriteStep(c, s, s', i, k))
        || WriteFails(s, s', i)
        || WrittenStep(s, s', i)
        || FinishStep(c, s, s', i)
        || ExitStep(s, s', i))
  }

  ghost predicate Run(c: Config, init: seq<Sector>, r: seq<State>, who: seq<nat>) {
    && |r| == |who| + 1 && Init(c, init, r[0])
    && forall k :: 0 <= k < |who| ==> Step(c, r[k], r[k + 1], who[k])
  }

  // ------------------------------------------------------------ invariant

  predicate HasRange(p: Phase) {
    p.Reading? || p.Ordering? || p.Waiting? || p.Writing? || p.Finishing?
  }

  /** Sector j belongs to the request of p and is still to be written. */
  predicate Left(p: Phase, j: nat) {
    && HasRange(p) && !p.Finishing?
    && (if p.Writing? then p.cur else p.start) <= j < p.start + p.n
  }

  predicate Covers(p: Phase, j: nat) {
    HasRange(p) && p.start <= j < p.start + p.n
  }

  predicate Active(p: Phase) {
    p != NotStarted && p != Exited
  }

  function CountActive(cos: seq<Phase>): nat {
    if cos == [] then 0 else CountActive(cos[..|cos| - 1]) + if Active(cos[|cos| - 1]) then 1 else 0
  }

  predicate RangeOk(s: State, p: Phase) {
    HasRange(p) ==> p.n > 0 && p.start + p.n <= s.sectorNum && (p.Writing? ==> p.start <= p.cur <= p.start + p.n)
  }

  predicate Disjoint(p: Phase, q: Phase) {
    HasRange(p) && HasRange(q) ==> p.start + p.n <= q.start || q.start + q.n <= p.start
  }

  predicate Ranges(c: Config, s: State) {
    && s.sectorNum <= Total(c)
    && (forall i :: 0 <= i < |s.cos| ==> RangeOk(s, s.cos[i]))
    && (forall i, j :: 0 <= i < j < |s.cos| ==> Disjoint(s.cos[i], s.cos[j]))
  }

  predicate Locking(s: State) {
    && (s.lock.Some? ==> s.lock.value < |s.cos|)
    && forall i :: 0 <= i < |s.cos| ==> (s.cos[i] == Iterating <==> s.lock == Some(i))
  }

  /** The data that a coroutine carries is that of its sectors. */
  predicate Carries(c: Config, s: State, p: Phase) {
    HasRange(p) && !p.Finishing? && p.start + p.n <= Total(c) ==>
      && (p.kind == ZeroKind ==> AllZero(Flat(c.parts)[p.start..p.start + p.n]))
      && (p.kind == DataKind && !p.Reading? && s.ret != Error ==> p.buf == Flat(c.parts)[p.start..p.start + p.n])
      && (!p.Reading? && c.minSparse == 0 ==> p.kind == DataKind)
  }

  predicate Carrying(c: Config, s: State) {
    && CacheOk(c, s.cache, s.sectorNum)
    && forall i :: 0 <= i < |s.cos| ==> Carries(c, s, s.cos[i])
  }

  predicate IsLeft(s: State, j: nat) {
    j >= s.sectorNum || exists i :: 0 <= i < |s.cos| && Left(s.cos[i], j)
  }

  /** Sectors that are still to be written are as before, the others are copied. */
  predicate Content(c: Config, init: seq<Sector>, s: State) {
    && |s.target| == |init|
    && (s.ret != Error ==> forall j :: 0 <= j < |init| ==>
          s.target[j] == if IsLeft(s, j) then init[j] else if j < Total(c) then Flat(c.parts)[j] else init[j])
  }

  predicate Counting(c: Config, s: State) {
    && s.running == CountActive(s.cos)
    && (forall i :: 0 <= i < |s.cos| && (s.cos[i] == Exiting || s.cos[i] == Exited) && s.ret == InProgress ==>
          s.sectorNum == Total(c))
    && (s.ret == Done ==> s.sectorNum == Total(c))
    && (forall i :: 0 <= i < |s.cos| && s.ret == Done ==> !HasRange(s.cos[i]) && s.cos[i] != Iterating)
    && (forall i :: 0 <= i < |s.cos| && s.cos[i] == Exited && s.running == 0 ==> s.ret != InProgress)
  }

  /** The requests handed out so far follow one another without gap. */
  predicate Tiles(handed: seq<(nat, nat)>, upto: nat) {
    && (forall k :: 0 <= k < |handed| ==> handed[k].1 > 0)
    && (forall k :: 0 <= k < |handed| - 1 ==> handed[k].0 + handed[k].1 == handed[k + 1].0)
    && (if handed == [] then upto == 0
        else handed[0].0 == 0 && handed[|handed| - 1].0 + handed[|handed| - 1].1 == upto)
  }

  predicate InFlight(s: State, j: nat) {
    exists i :: 0 <= i < |s.cos| && Covers(s.cos[i], j)
  }

  /** With ordered writes the requests in flight cover [wrOffs, sectorNum), and only the first one writes. */
  predicate Ordered(c: Config, s: State) {
    c.inOrder && s.ret == InProgress ==>
      && s.wrOffs <= s.sectorNum
      && (forall i :: 0 <= i < |s.cos| && HasRange(s.cos[i]) ==> s.wrOffs <= s.cos[i].start)
      && (forall i :: 0 <= i < |s.cos| && (s.cos[i].Writing? || s.cos[i].Finishing?) ==> s.cos[i].start == s.wrOffs)
      && (forall j :: s.wrOffs <= j < s.sectorNum ==> InFlight(s, j))
  }

  predicate EndsAt(p: Phase, off: nat) {
    HasRange(p) && p.start + p.n == off
  }

  /** A coroutine that waits has an unfinished predecessor, or has been entered for good reason. */
  predicate WaiterOk(c: Config, s: State, p: Phase) {
    p.Waiting? ==>
      && c.inOrder
      && (!p.woken ==> exists i :: 0 <= i < |s.cos| && EndsAt(s.cos[i], p.start))
      && (p.woken ==> s.ret != InProgress || s.wrOffs == p.start)
  }

  predicate Waiters(c: Config, s: State) {
    forall i :: 0 <= i < |s.cos| ==> WaiterOk(c, s, s.cos[i])
  }

  /** Whoever holds the lock has a request to hand out. */
  predicate Unfinished(c: Config, s: State) {
    s.lock.Some? ==> s.sectorNum < Total(c)
  }

  predicate Inv(c: Config, init: seq<Sector>, s: State) {
    && Total(c) <= |init| && (c.zeroInit ==> AllZero(init))
    && Ranges(c, s) && Locking(s) && Unfinished(c, s) && Carrying(c, s) && Content(c, init, s)
    && Counting(c, s) && Tiles(s.handed, s.sectorNum) && Ordered(c, s) && Waiters(c, s)
  }

  lemma InitInv(c: Config, init: seq<Sector>, s: State)
    requires Init(c, init, s)
    ensures Inv(c, init, s)
  {
    NoneActive(s.cos);
  }

  lemma {:induction false} NoneActive(cos: seq<Phase>)
    requires forall i :: 0 <= i < |cos| ==> !Active(cos[i])
    ensures CountActive(cos) == 0
  {
    if cos != [] { NoneActive(cos[..|cos| - 1]); }
  }

  lemma {:induction false} CountUpdate(cos: seq<Phase>, i: nat, p: Phase)
    requires i < |cos|
    ensures CountActive(cos[i := p]) ==
      CountActive(cos) - (if Active(cos[i]) then 1 else 0) + (if Active(p) then 1 else 0)
  {
    var k := |cos| - 1;
    if i == k {
      assert cos[i := p][..k] == cos[..k];
    } else {
      assert cos[i := p][..k] == cos[..k][i := p];
      CountUpdate(cos[..k], i, p);
    }
  }

  lemma {:induction false} CountPositive(cos: seq<Phase>, i: nat)
    requires i < |cos| && Active(cos[i])
    ensures CountActive(cos) >= 1
    ensures CountActive(cos) == 1 ==> forall j :: 0 <= j < |cos| && j != i ==> !Active(cos[j])
  {
    CountUpdate(cos, i, Exited);
    if CountActive(cos) == 1 {
      NoneIfZero(cos[i := Exited]);
      forall j | 0 <= j < |cos| && j != i ensures !Active(cos[j]) { assert cos[j] == cos[i := Exited][j]; }
    }
  }

  lemma {:induction false} NoneIfZero(cos: seq<Phase>)
    requires CountActive(cos) == 0
    ensures forall i :: 0 <= i < |cos| ==> !Active(cos[i])
  {
    if cos != [] {
      NoneIfZero(cos[..|cos| - 1]);
      forall i | 0 <= i < |cos| ensures !Active(cos[i]) {
        if i < |cos| - 1 { assert cos[i] == cos[..|cos| - 1][i]; }
      }
    }
  }

  // Steps of one coroutine that keep its request, or that it makes without one.

  predicate SameRange(p: Phase, p': Phase) {
    HasRange(p) == HasRange(p') && (HasRange(p) ==> p.start == p'.start && p.n == p'.n)
  }

  predicate LocalMove(s: State, s': State, i: nat) {
    && i < |s.cos| && |s'.cos| == |s.cos| && s'.cos == s.cos[i := s'.cos[i]] && SameRange(s.cos[i], s'.cos[i])
    && s'.sectorNum == s.sectorNum && s'.wrOffs == s.wrOffs && s'.cache == s.cache && s'.handed == s.handed
    && (s'.ret == s.ret || s'.ret != InProgress)
  }

  lemma LocalRanges(c: Config, s: State, s': State, i: nat)
    requires Ranges(c, s) && LocalMove(s, s', i)
    requires s'.cos[i].Writing? ==> s'.cos[i].start <= s'.cos[i].cur <= s'.cos[i].start + s'.cos[i].n
    ensures Ranges(c, s')
  {
    hide HasRange;
    forall a, b | 0 <= a < b < |s'.cos| ensures Disjoint(s'.cos[a], s'.cos[b]) {
      assert Disjoint(s.cos[a], s.cos[b]);
    }
  }

  lemma LocalOrdered(c: Config, s: State, s': State, i: nat)
    requires Ordered(c, s) && LocalMove(s, s', i)
    requires c.inOrder && s'.ret == InProgress && (s'.cos[i].Writing? || s'.cos[i].Finishing?) ==>
      s'.cos[i].start == s.wrOffs
    ensures Ordered(c, s')
  {
    if c.inOrder && s'.ret == InProgress {
      forall j | s'.wrOffs <= j < s'.sectorNum ensures InFlight(s', j) {
        assert InFlight(s, j);
        var k :| 0 <= k < |s.cos| && Covers(s.cos[k], j);
        assert Covers(s'.cos[k], j);
      }
    }
  }

  lemma LocalWaiters(c: Config, s: State, s': State, i: nat)
    requires Waiters(c, s) && LocalMove(s, s', i)
    requires WaiterOk(c, s, s'.cos[i])
    ensures Waiters(c, s')
  {
    forall k | 0 <= k < |s'.cos| ensures WaiterOk(c, s', s'.cos[k]) {
      var p := s'.cos[k];
      if p.Waiting? {
        assert WaiterOk(c, s, p);
        if !p.woken {
          var e :| 0 <= e < |s.cos| && EndsAt(s.cos[e], p.start);
          assert EndsAt(s'.cos[e], p.start);
        }
      }
    }
  }

  lemma LocalContent(c: Config, init: seq<Sector>, s: State, s': State, i: nat)
    requires Content(c, init, s) && LocalMove(s, s', i) && s'.target == s.target
    requires s'.ret != Error ==> s.ret != Error && forall j :: Left(s.cos[i], j) == Left(s'.cos[i], j)
    ensures Content(c, init, s')
  {
    if s'.ret != Error {
      forall j | 0 <= j < |init| ensures IsLeft(s', j) == IsLeft(s, j) {
        if k :| 0 <= k < |s.cos| && Left(s.cos[k], j) { assert Left(s'.cos[k], j); }
        if k :| 0 <= k < |s'.cos| && Left(s'.cos[k], j) { assert Left(s.cos[k], j); }
      }
    }
  }

  lemma LocalCarrying(c: Config, s: State, s': State, i: nat)
    requires Carrying(c, s) && LocalMove(s, s', i) && Carries(c, s', s'.cos[i])
    requires s'.ret != Error ==> s.ret != Error
    ensures Carrying(c, s')
  {
    forall k | 0 <= k < |s'.cos| ensures Carries(c, s', s'.cos[k]) {
      assert Carries(c, s, s.cos[k]);
    }
  }

  /** All parts of the invariant that a local move leaves alone. */
  lemma LocalKeeps(c: Config, init: seq<Sector>, s: State, s': State, i: nat)
    requires Inv(c, init, s) && LocalMove(s, s', i)
    requires s'.cos[i].Writing? ==> s'.cos[i].start <= s'.cos[i].cur <= s'.cos[i].start + s'.cos[i].n
    requires c.inOrder && s'.ret == InProgress && (s'.cos[i].Writing? || s'.cos[i].Finishing?) ==>
      s'.cos[i].start == s.wrOffs
    requires WaiterOk(c, s, s'.cos[i]) && Carries(c, s', s'.cos[i]) && (s'.ret != Error ==> s.ret != Error)
    requires Content(c, init, s') && Counting(c, s') && Locking(s') && Unfinished(c, s')
    ensures Inv(c, init, s')
  {
    LocalRanges(c, s, s', i);
    LocalOrdered(c, s, s', i);
    LocalWaiters(c, s, s', i);
    LocalCarrying(c, s, s', i);
    hide Ranges, Locking, Carrying, Content, Counting, Tiles, Ordered, Waiters, Carries, WaiterOk;
  }

  /** The counters after a local move that does not end the conversion. */
  lemma LocalCounting(c: Config, s: State, s': State, i: nat)
    requires Counting(c, s) && LocalMove(s, s', i)
    requires s'.running == s.running - (if Active(s.cos[i]) then 1 else 0) + (if Active(s'.cos[i]) then 1 else 0)
    requires Active(s'.cos[i])
    requires s'.cos[i] == Exiting && s'.ret == InProgress ==> s.sectorNum == Total(c)
    requires s'.ret == Done ==> s.ret == Done && s'.cos[i] != Iterating
    ensures Counting(c, s')
  {
    CountUpdate(s.cos, i, s'.cos[i]);
    CountPositive(s'.cos, i);
  }

  lemma StartKeeps(c: Config, init: seq<Sector>, s: State, s': State, i: nat)
    requires Inv(c, init, s) && i < |s.cos| && StartStep(s, s', i)
    ensures Inv(c, init, s')
  {
    LocalCounting(c, s, s', i) by { hide Ranges, Carrying, Content, Ordered, Waiters; }
    LocalContent(c, init, s, s', i) by { hide Ranges, Carrying, Ordered, Waiters, Counting; }
    assert Locking(s') by { hide Ranges, Carrying, Content, Counting, Ordered, Waiters; }
    hide Ranges, Locking, Carrying, Content, Counting, Tiles, Ordered, Waiters;
    LocalKeeps(c, init, s, s', i);
  }

  lemma LockKeeps(c: Config, init: seq<Sector>, s: State, s': State, i: nat)
    requires Inv(c, init, s) && i < |s.cos| && LockStep(c, s, s', i)
    ensures Inv(c, init, s')
  {
    assert s.sectorNum <= Total(c) by { hide Locking, Carrying, Content, Counting, Ordered, Waiters; }
    LocalCounting(c, s, s', i) by { hide Ranges, Carrying, Content, Ordered, Waiters; }
    LocalContent(c, init, s, s', i) by { hide Ranges, Carrying, Ordered, Waiters, Counting; }
    assert Locking(s') by { hide Ranges, Carrying, Content, Counting, Ordered, Waiters; }
    hide Ranges, Locking, Carrying, Content, Counting, Tiles, Ordered, Waiters;
    LocalKeeps(c, init, s, s', i);
  }

  lemma IterateFailsKeeps(c: Config, init: seq<Sector>, s: State, s': State, i: nat)
    requires Inv(c, init, s) && i < |s.cos| && IterateFails(c, s, s', i)
    ensures Inv(c, init, s')
  {
    LocalCounting(c, s, s', i) by { hide Ranges, Carrying, Content, Ordered, Waiters; }
    LocalContent(c, init, s, s', i) by { hide Ranges, Carrying, Ordered, Waiters, Counting; }
    assert Locking(s') by { hide Ranges, Carrying, Content, Counting, Ordered, Waiters; }
    hide Ranges, Locking, Carrying, Content, Counting, Tiles, Ordered, Waiters;
    LocalKeeps(c, init, s, s', i);
  }

  /** What the invariant says about one coroutine. */
  lemma CoFacts(c: Config, init: seq<Sector>, s: State, i: nat)
    requires Inv(c, init, s) && i < |s.cos|
    ensures RangeOk(s, s.cos[i]) && Carries(c, s, s.cos[i]) && WaiterOk(c, s, s.cos[i]) && s.sectorNum <= Total(c)
    ensures (s.cos[i] == Iterating <==> s.lock == Some(i)) && (s.cos[i] == Iterating ==> s.sectorNum < Total(c))
    ensures s.ret == Done ==> !HasRange(s.cos[i]) && s.cos[i] != Iterating
    ensures c.inOrder && s.ret == InProgress && HasRange(s.cos[i]) ==> s.wrOffs <= s.cos[i].start
    ensures c.inOrder && s.ret == InProgress && (s.cos[i].Writing? || s.cos[i].Finishing?) ==>
      s.cos[i].start == s.wrOffs
  {
    hide RangeOk, Carries, WaiterOk, Content, HasRange, Tiles;
  }

  lemma ReadCarries(c: Config, s: State, s': State, i: nat)
    requires i < |s.cos| && ReadStep(c, s, s', i) && Carries(c, s, s.cos[i])
    ensures Carries(c, s', s'.cos[i])
  {
    var p := s.cos[i];
    if p.kind == ZeroKind && p.start + p.n <= Total(c) {
      AllZeroEqual(ZeroFill(p.n), Flat(c.parts)[p.start..p.start + p.n]);
    }
  }

  lemma ReadKeeps(c: Config, init: seq<Sector>, s: State, s': State, i: nat)
    requires Inv(c, init, s) && i < |s.cos| && ReadStep(c, s, s', i)
    ensures Inv(c, init, s')
  {
    CoFacts(c, init, s, i);
    ReadCarries(c, s, s', i) by { hide Inv; }
    LocalCounting(c, s, s', i) by { hide Ranges, Carrying, Content, Ordered, Waiters; }
    LocalContent(c, init, s, s', i) by { hide Ranges, Carrying, Ordered, Waiters, Counting; }
    assert Locking(s') by { hide Ranges, Carrying, Content, Counting, Ordered, Waiters; }
    hide Ranges, Locking, Carrying, Content, Counting, Tiles, Ordered, Waiters, Carries;
    LocalKeeps(c, init, s, s', i);
  }

  lemma ReadFailsKeeps(c: Config, init: seq<Sector>, s: State, s': State, i: nat, buf: seq<Sector>)
    requires Inv(c, init, s) && i < |s.cos| && ReadFails(s, s', i, buf)
    ensures Inv(c, init, s')
  {
    CoFacts(c, init, s, i);
    LocalCounting(c, s, s', i) by { hide Ranges, Carrying, Content, Ordered, Waiters; }
    LocalContent(c, init, s, s', i) by { hide Ranges, Carrying, Ordered, Waiters, Counting; }
    assert Locking(s') by { hide Ranges, Carrying, Content, Counting, Ordered, Waiters; }
    hide Ranges, Locking, Carrying, Content, Counting, Tiles, Ordered, Waiters;
    LocalKeeps(c, init, s, s', i);
  }

  /** A request that is not the first in flight has a predecessor in flight. */
  lemma Predecessor(c: Config, s: State, i: nat)
    requires Ranges(c, s) && Ordered(c, s) && c.inOrder && s.ret == InProgress
    requires i < |s.cos| && HasRange(s.cos[i]) && s.cos[i].start != s.wrOffs
    ensures exists k :: 0 <= k < |s.cos| && EndsAt(s.cos[k], s.cos[i].start)
  {
    var j := s.cos[i].start - 1;
    assert RangeOk(s, s.cos[i]);
    assert InFlight(s, j);
    var k :| 0 <= k < |s.cos| && Covers(s.cos[k], j);
    assert if i < k then Disjoint(s.cos[i], s.cos[k]) else k < i ==> Disjoint(s.cos[k], s.cos[i]);
    assert EndsAt(s.cos[k], s.cos[i].start);
  }

  /** What the wait and the look at s->ret leave alone. */
  lemma OrderFacts(c: Config, s: State, s': State, i: nat)
    requires i < |s.cos| && OrderStep(c, s, s', i) && WaiterOk(c, s, s.cos[i]) && Carries(c, s, s.cos[i])
    requires s.ret != Done
    requires c.inOrder && s.ret == InProgress && s.cos[i].start != s.wrOffs ==>
      exists k :: 0 <= k < |s.cos| && EndsAt(s.cos[k], s.cos[i].start)
    ensures LocalMove(s, s', i) && s'.ret == s.ret && s'.target == s.target && s'.lock == s.lock &&
      s'.running == s.running
    ensures HasRange(s.cos[i]) && HasRange(s'.cos[i]) && WaiterOk(c, s, s'.cos[i]) && Carries(c, s', s'.cos[i])
    ensures s'.cos[i].Writing? ==> s'.cos[i].start <= s'.cos[i].cur <= s'.cos[i].start + s'.cos[i].n
    ensures c.inOrder && s'.ret == InProgress && (s'.cos[i].Writing? || s'.cos[i].Finishing?) ==>
      s'.cos[i].start == s.wrOffs
    ensures s'.ret != Error ==> forall j :: Left(s.cos[i], j) == Left(s'.cos[i], j)
  {
  }

  lemma OrderKeeps(c: Config, init: seq<Sector>, s: State, s': State, i: nat)
    requires Inv(c, init, s) && i < |s.cos| && OrderStep(c, s, s', i)
    ensures Inv(c, init, s')
  {
    CoFacts(c, init, s, i);
    assert s.ret != Done by { hide Inv; }
    if c.inOrder && s.ret == InProgress && s.cos[i].start != s.wrOffs {
      Predecessor(c, s, i) by { hide Locking, Carrying, Content, Counting, Waiters; }
    }
    OrderFacts(c, s, s', i) by { hide Inv; }
    hide OrderStep, WaiterOk, Carries;
    LocalCounting(c, s, s', i) by { hide Ranges, Carrying, Content, Ordered, Waiters; }
    LocalContent(c, init, s, s', i) by { hide Ranges, Carrying, Ordered, Waiters, Counting; }
    assert Locking(s') by { hide Ranges, Carrying, Content, Counting, Ordered, Waiters; }
    hide Ranges, Locking, Carrying, Content, Counting, Tiles, Ordered, Waiters;
    LocalKeeps(c, init, s, s', i);
  }

  /** The sectors that a write reaches hold the source's data, the others are untouched. */
  lemma WriteTarget(c: Config, s: State, s': State, i: nat, k: nat, j: nat)
    requires i < |s.cos| && WriteStep(c, s, s', i, k) && s.ret != Error
    requires RangeOk(s, s.cos[i]) && Carries(c, s, s.cos[i]) && s.sectorNum <= Total(c) <= |s.target|
    requires j < |s.target|
    ensures |s'.target| == |s.target|
    ensures !(s.cos[i].cur <= j < s.cos[i].cur + k) ==> s'.target[j] == s.target[j]
    ensures s.cos[i].cur <= j < s.cos[i].cur + k ==>
      s'.target[j] == Flat(c.parts)[j] || (c.zeroInit && s'.target[j] == s.target[j] && ZeroSector(Flat(c.parts)[j]))
  {
    var p := s.cos[i];
    var t, t', all := s.target, s'.target, Flat(c.parts);
    if j < p.cur {
      assert t'[j] == t'[..p.cur][j] && t[j] == t[..p.cur][j];
    } else if j >= p.cur + k {
      assert t'[j] == t'[p.cur + k..][j - p.cur - k] && t[j] == t[p.cur + k..][j - p.cur - k];
    } else {
      var w := Wanted(p.kind, Rest(p), k);
      assert t'[j] == t'[p.cur..p.cur + k][j - p.cur];
      if p.kind == DataKind {
        assert w[j - p.cur] == p.buf[j - p.start] == all[p.start..p.start + p.n][j - p.start];
      } else {
        var mine := all[p.start..p.start + p.n];
        assert all[j] == mine[j - p.start] && ZeroSector(mine[j - p.start]);
        ZeroSectorUnique(w[j - p.cur], all[j]);
      }
      assert w[j - p.cur] == all[j];
    }
  }

  lemma OneCovers(c: Config, s: State, i: nat, k: nat, j: nat)
    requires Ranges(c, s) && i < |s.cos| && k < |s.cos| && i != k && Covers(s.cos[i], j)
    ensures !Covers(s.cos[k], j) && !Left(s.cos[k], j)
  {
    assert RangeOk(s, s.cos[k]);
    if i < k { assert Disjoint(s.cos[i], s.cos[k]); } else { assert Disjoint(s.cos[k], s.cos[i]); }
  }

  lemma Apart(c: Config, s: State, i: nat, k: nat)
    requires Ranges(c, s) && i < |s.cos| && k < |s.cos| && i != k
    ensures Disjoint(s.cos[i], s.cos[k]) && RangeOk(s, s.cos[i]) && RangeOk(s, s.cos[k])
  {
    if i < k { assert Disjoint(s.cos[i], s.cos[k]); } else { assert Disjoint(s.cos[k], s.cos[i]); }
  }

  /** Which sectors a write step takes off the list. */
  lemma WriteLeft(c: Config, s: State, s': State, i: nat, k: nat, j: nat)
    requires Ranges(c, s) && i < |s.cos| && WriteStep(c, s, s', i, k)
    ensures IsLeft(s', j) == (IsLeft(s, j) && !(s.cos[i].cur <= j < s.cos[i].cur + k))
    ensures s.cos[i].cur <= j < s.cos[i].cur + k ==> IsLeft(s, j)
  {
    var p := s.cos[i];
    assert RangeOk(s, p);
    if p.cur <= j < p.cur + k {
      assert Left(p, j);
      forall q | 0 <= q < |s'.cos| ensures !Left(s'.cos[q], j) {
        if q != i { OneCovers(c, s, i, q, j); }
      }
    } else {
      if q :| 0 <= q < |s.cos| && Left(s.cos[q], j) { assert Left(s'.cos[q], j); }
      if q :| 0 <= q < |s'.cos| && Left(s'.cos[q], j) { assert Left(s.cos[q], j); }
    }
  }

  lemma WriteContent(c: Config, init: seq<Sector>, s: State, s': State, i: nat, k: nat)
    requires Content(c, init, s) && Ranges(c, s) && i < |s.cos| && WriteStep(c, s, s', i, k)
    requires Carries(c, s, s.cos[i]) && Total(c) <= |init| && (c.zeroInit ==> AllZero(init))
    ensures Content(c, init, s')
  {
    if s.ret != Error {
      forall j | 0 <= j < |init|
        ensures s'.target[j] == if IsLeft(s', j) then init[j] else if j < Total(c) then Flat(c.parts)[j] else init[j]
      {
        assert RangeOk(s, s.cos[i]);
        WriteTarget(c, s, s', i, k, j);
        WriteLeft(c, s, s', i, k, j);
        hide IsLeft, WriteStep, Ranges, Carries, ZeroSector;
        if c.zeroInit && j < Total(c) && ZeroSector(Flat(c.parts)[j]) {
          ZeroSectorUnique(init[j], Flat(c.parts)[j]);
        }
      }
    }
  }

  lemma WriteKeeps(c: Config, init: seq<Sector>, s: State, s': State, i: nat, k: nat)
    requires Inv(c, init, s) && i < |s.cos| && WriteStep(c, s, s', i, k)
    ensures Inv(c, init, s')
  {
    hide ChunkEffect;
    CoFacts(c, init, s, i);
    WriteContent(c, init, s, s', i, k) by { hide Ranges, Carrying, Content, Ordered, Waiters, Counting; }
    LocalCounting(c, s, s', i) by { hide Ranges, Carrying, Content, Ordered, Waiters; }
    assert Locking(s') by { hide Ranges, Carrying, Content, Counting, Ordered, Waiters; }
    hide Ranges, Locking, Carrying, Content, Counting, Tiles, Ordered, Waiters;
    LocalKeeps(c, init, s, s', i);
  }

  lemma WriteFailsKeeps(c: Config, init: seq<Sector>, s: State, s': State, i: nat)
    requires Inv(c, init, s) && i < |s.cos| && WriteFails(s, s', i)
    ensures Inv(c, init, s')
  {
    CoFacts(c, init, s, i);
    LocalCounting(c, s, s', i) by { hide Ranges, Carrying, Content, Ordered, Waiters; }
    assert Content(c, init, s') by { hide Ranges, Carrying, Counting, Ordered, Waiters; }
    assert Locking(s') by { hide Ranges, Carrying, Content, Counting, Ordered, Waiters; }
    hide Ranges, Locking, Carrying, Content, Counting, Tiles, Ordered, Waiters;
    LocalKeeps(c, init, s, s', i);
  }

  lemma WrittenKeeps(c: Config, init: seq<Sector>, s: State, s': State, i: nat)
    requires Inv(c, init, s) && i < |s.cos| && WrittenStep(s, s', i)
    ensures Inv(c, init, s')
  {
    CoFacts(c, init, s, i);
    LocalCounting(c, s, s', i) by { hide Ranges, Carrying, Content, Ordered, Waiters; }
    LocalContent(c, init, s, s', i) by { hide Ranges, Carrying, Ordered, Waiters, Counting; }
    assert Locking(s') by { hide Ranges, Carrying, Content, Counting, Ordered, Waiters; }
    hide Ranges, Locking, Carrying, Content, Counting, Tiles, Ordered, Waiters;
    LocalKeeps(c, init, s, s', i);
  }

  /** The last coroutine to leave finds everything handed out and finished. */
  lemma ExitKeeps(c: Config, init: seq<Sector>, s: State, s': State, i: nat)
    requires Inv(c, init, s) && i < |s.cos| && ExitStep(s, s', i)
    ensures Inv(c, init, s')
  {
    assert Counting(c, s') by {
      hide Ranges, Carrying, Content, Ordered, Waiters;
      CountUpdate(s.cos, i, Exited);
      CountPositive(s.cos, i);
    }
    LocalContent(c, init, s, s', i) by { hide Ranges, Carrying, Ordered, Waiters, Counting; }
    assert Locking(s') by { hide Ranges, Carrying, Content, Counting, Ordered, Waiters; }
    hide Ranges, Locking, Carrying, Content, Counting, Tiles, Ordered, Waiters;
    LocalKeeps(c, init, s, s', i);
  }

  // Handing out a request.

  lemma IterateRanges(c: Config, s: State, s': State, i: nat, n0: nat, cache: Cache)
    requires Ranges(c, s) && IterateStep(c, s, s', i, n0, cache) && RequestOk(c, s.sectorNum, n0, cache.kind)
    ensures Ranges(c, s')
  {
    forall k | 0 <= k < |s'.cos| ensures RangeOk(s', s'.cos[k]) { assert RangeOk(s, s.cos[k]); }
    forall a, b | 0 <= a < b < |s'.cos| ensures Disjoint(s'.cos[a], s'.cos[b]) {
      assert Disjoint(s.cos[a], s.cos[b]) && RangeOk(s, s.cos[a]) && RangeOk(s, s.cos[b]);
    }
  }

  lemma ZeroPrefix(b: seq<Sector>, a: nat, n0: nat, n: nat)
    requires n <= n0 && a + n0 <= |b| && AllZero(b[a..a + n0])
    ensures AllZero(b[a..a + n])
  {
    var p, q := b[a..a + n], b[a..a + n0];
    forall i | 0 <= i < |p| ensures ZeroSector(p[i]) { assert p[i] == q[i]; }
  }

  lemma IterateCarrying(c: Config, s: State, s': State, i: nat, n0: nat, cache: Cache)
    requires Carrying(c, s) && IterateStep(c, s, s', i, n0, cache)
    requires RequestOk(c, s.sectorNum, n0, cache.kind) && CacheOk(c, cache, s.sectorNum)
    ensures Carrying(c, s')
  {
    CacheLater(c, cache, s.sectorNum, s'.sectorNum);
    var n, all := s'.cos[i].n, Flat(c.parts);
    forall k | 0 <= k < |s'.cos| ensures Carries(c, s', s'.cos[k]) {
      if k == i {
        assert s'.cos[i] == Reading(s.sectorNum, n, cache.kind) && n <= n0;
        if cache.kind == ZeroKind { ZeroPrefix(all, s.sectorNum, n0, n); }
      } else {
        assert Carries(c, s, s.cos[k]);
      }
    }
  }

  lemma IterateContent(c: Config, init: seq<Sector>, s: State, s': State, i: nat, n0: nat, cache: Cache)
    requires Content(c, init, s) && IterateStep(c, s, s', i, n0, cache)
    ensures Content(c, init, s')
  {
    forall j | 0 <= j < |init| ensures IsLeft(s', j) == IsLeft(s, j) {
      if k :| 0 <= k < |s.cos| && Left(s.cos[k], j) { assert Left(s'.cos[k], j); }
      if k :| 0 <= k < |s'.cos| && Left(s'.cos[k], j) { assert k != i ==> Left(s.cos[k], j); }
      if s.sectorNum <= j < s'.sectorNum { assert Left(s'.cos[i], j); }
    }
  }

  lemma IterateOrdered(c: Config, s: State, s': State, i: nat, n0: nat, cache: Cache)
    requires Ordered(c, s) && IterateStep(c, s, s', i, n0, cache)
    ensures Ordered(c, s')
  {
    if c.inOrder && s'.ret == InProgress {
      forall j | s'.wrOffs <= j < s'.sectorNum ensures InFlight(s', j) {
        if j < s.sectorNum {
          assert InFlight(s, j);
          var k :| 0 <= k < |s.cos| && Covers(s.cos[k], j);
          assert Covers(s'.cos[k], j);
        } else {
          assert Covers(s'.cos[i], j);
        }
      }
    }
  }

  lemma IterateWaiters(c: Config, s: State, s': State, i: nat, n0: nat, cache: Cache)
    requires Waiters(c, s) && IterateStep(c, s, s', i, n0, cache)
    ensures Waiters(c, s')
  {
    forall k | 0 <= k < |s'.cos| ensures WaiterOk(c, s', s'.cos[k]) {
      var p := s'.cos[k];
      if p.Waiting? {
        assert WaiterOk(c, s, s.cos[k]);
        if !p.woken {
          var e :| 0 <= e < |s.cos| && EndsAt(s.cos[e], p.start);
          assert EndsAt(s'.cos[e], p.start);
        }
      }
    }
  }

  lemma IterateCounting(c: Config, s: State, s': State, i: nat, n0: nat, cache: Cache)
    requires Counting(c, s) && IterateStep(c, s, s', i, n0, cache)
    ensures Counting(c, s')
  {
    CountUpdate(s.cos, i, s'.cos[i]);
    CountPositive(s.cos, i);
  }

  lemma IterateKeeps(c: Config, init: seq<Sector>, s: State, s': State, i: nat, n0: nat, cache: Cache)
    requires Inv(c, init, s) && IterateStep(c, s, s', i, n0, cache) && Valid(c)
    ensures Inv(c, init, s')
  {
    NextRequestOk(c, s.cache, s.sectorNum) by { hide Ranges, Locking, Content, Counting, Ordered, Waiters; }
    assert Tiles(s'.handed, s'.sectorNum) by { hide Ranges, Locking, Carrying, Content, Counting, Ordered, Waiters; }
    assert Locking(s') by { hide Ranges, Carrying, Content, Counting, Ordered, Waiters; }
    hide Ranges, Locking, Carrying, Content, Counting, Tiles, Ordered, Waiters;
    IterateRanges(c, s, s', i, n0, cache);
    IterateCarrying(c, s, s', i, n0, cache);
    IterateContent(c, init, s, s', i, n0, cache);
    IterateOrdered(c, s, s', i, n0, cache);
    IterateWaiters(c, s, s', i, n0, cache);
    IterateCounting(c, s, s', i, n0, cache);
  }

  // The end of a round.

  function RoundEnd(s: State, i: nat): nat
    requires i < |s.cos| && s.cos[i].Finishing?
  {
    s.cos[i].start + s.cos[i].n
  }

  /** What a finishing coroutine does to the others: those that wait for it are woken. */
  predicate Wakes(p: Phase, p': Phase, e: nat) {
    p' == p || (WaitsFor(p, e) && p' == p.(woken := true))
  }

  predicate FinishMove(c: Config, s: State, s': State, i: nat) {
    && i < |s.cos| && s.cos[i].Finishing? && |s'.cos| == |s.cos| && s'.cos[i] == WantLock
    && (forall k :: 0 <= k < |s.cos| && k != i ==> Wakes(s.cos[k], s'.cos[k], RoundEnd(s, i)))
    && (c.inOrder ==> forall k :: 0 <= k < |s.cos| ==> !WaitsFor(s'.cos[k], RoundEnd(s, i)))
    && s'.wrOffs == (if c.inOrder then RoundEnd(s, i) else s.wrOffs)
    && s'.sectorNum == s.sectorNum && s'.cache == s.cache && s'.ret == s.ret && s'.lock == s.lock
    && s'.running == s.running && s'.target == s.target && s'.handed == s.handed
  }

  lemma HandoverMoves(c: Config, s: State, i: nat, j: nat)
    requires Ranges(c, s) && c.inOrder && i < |s.cos| && s.cos[i].Finishing?
    requires j < |s.cos| && WaitsFor(s.cos[j], RoundEnd(s, i))
    ensures FinishMove(c, s, Handover(s, i, j, RoundEnd(s, i)), i)
    ensures CountActive(Handover(s, i, j, RoundEnd(s, i)).cos) == CountActive(s.cos)
  {
    var e := RoundEnd(s, i);
    var s' := Handover(s, i, j, e);
    forall k | 0 <= k < |s.cos| ensures !WaitsFor(s'.cos[k], e) {
      if k != j { Apart(c, s, j, k); }
    }
    var woken := s.cos[j].(woken := true);
    CountUpdate(s.cos, j, woken);
    CountUpdate(s.cos[j := woken], i, WantLock);
  }

  ghost predicate SomeoneWaits(s: State, e: nat) {
    exists j :: 0 <= j < |s.cos| && WaitsFor(s.cos[j], e)
  }

  lemma PlainFinish(c: Config, s: State, s': State, i: nat)
    requires i < |s.cos| && FinishStep(c, s, s', i) && !(c.inOrder && SomeoneWaits(s, RoundEnd(s, i)))
    ensures FinishMove(c, s, s', i) && s'.cos == s.cos[i := WantLock]
  {
  }

  lemma FinishMoves(c: Config, s: State, s': State, i: nat)
    requires Ranges(c, s) && Counting(c, s) && i < |s.cos| && FinishStep(c, s, s', i)
    ensures FinishMove(c, s, s', i) && s'.running == CountActive(s'.cos)
  {
    var e := RoundEnd(s, i);
    if c.inOrder && SomeoneWaits(s, e) {
      var j :| 0 <= j < |s.cos| && WaitsFor(s.cos[j], e) && s' == Handover(s, i, j, e);
      HandoverMoves(c, s, i, j);
      hide FinishStep, FinishMove, Ranges, WaitsFor, CountActive;
    } else {
      PlainFinish(c, s, s', i);
      CountUpdate(s.cos, i, WantLock);
      hide FinishStep, Ranges, WaitsFor, CountActive;
    }
  }

  lemma FinishRanges(c: Config, s: State, s': State, i: nat)
    requires Ranges(c, s) && FinishMove(c, s, s', i)
    ensures Ranges(c, s')
  {
    forall k | 0 <= k < |s'.cos| ensures RangeOk(s', s'.cos[k]) { assert RangeOk(s, s.cos[k]); }
    forall a, b | 0 <= a < b < |s'.cos| ensures Disjoint(s'.cos[a], s'.cos[b]) {
      assert Disjoint(s.cos[a], s.cos[b]);
    }
  }

  lemma FinishCarrying(c: Config, s: State, s': State, i: nat)
    requires Carrying(c, s) && FinishMove(c, s, s', i)
    ensures Carrying(c, s')
  {
    forall k | 0 <= k < |s'.cos| ensures Carries(c, s', s'.cos[k]) { assert Carries(c, s, s.cos[k]); }
  }

  lemma FinishContent(c: Config, init: seq<Sector>, s: State, s': State, i: nat)
    requires Content(c, init, s) && FinishMove(c, s, s', i)
    ensures Content(c, init, s')
  {
    forall j | 0 <= j < |init| ensures IsLeft(s', j) == IsLeft(s, j) {
      if k :| 0 <= k < |s.cos| && Left(s.cos[k], j) { assert Left(s'.cos[k], j); }
      if k :| 0 <= k < |s'.cos| && Left(s'.cos[k], j) { assert Left(s.cos[k], j); }
    }
  }

  /** With ordered writes every other request in flight lies after the one that ends. */
  lemma OthersAfter(c: Config, s: State, i: nat, k: nat)
    requires Ranges(c, s) && Ordered(c, s) && c.inOrder && s.ret == InProgress
    requires i < |s.cos| && s.cos[i].Finishing? && k < |s.cos| && k != i && HasRange(s.cos[k])
    ensures s.cos[i].start == s.wrOffs && s.cos[k].start >= RoundEnd(s, i) && !s.cos[k].Writing? && !s.cos[k].Finishing?
  {
    assert RangeOk(s, s.cos[i]) && RangeOk(s, s.cos[k]);
    if s.cos[k].start < RoundEnd(s, i) { OneCovers(c, s, i, k, s.cos[k].start); }
  }

  lemma FinishOrdered(c: Config, s: State, s': State, i: nat)
    requires Ranges(c, s) && Ordered(c, s) && FinishMove(c, s, s', i)
    ensures Ordered(c, s')
  {
    if c.inOrder && s'.ret == InProgress {
      assert RangeOk(s, s.cos[i]);
      forall k | 0 <= k < |s'.cos| && HasRange(s'.cos[k])
        ensures s'.wrOffs <= s'.cos[k].start && !s'.cos[k].Writing? && !s'.cos[k].Finishing?
      {
        OthersAfter(c, s, i, k);
      }
      forall j | s'.wrOffs <= j < s'.sectorNum ensures InFlight(s', j) {
        assert InFlight(s, j);
        var k :| 0 <= k < |s.cos| && Covers(s.cos[k], j);
        assert Covers(s'.cos[k], j);
      }
    }
  }

  lemma FinishWaiters(c: Config, s: State, s': State, i: nat)
    requires Ranges(c, s) && Ordered(c, s) && Waiters(c, s) && FinishMove(c, s, s', i)
    ensures Waiters(c, s')
  {
    forall k | 0 <= k < |s'.cos| ensures WaiterOk(c, s', s'.cos[k]) {
      var p := s'.cos[k];
      if p.Waiting? {
        assert WaiterOk(c, s, s.cos[k]);
        if !p.woken {
          var e :| 0 <= e < |s.cos| && EndsAt(s.cos[e], p.start);
          assert EndsAt(s'.cos[e], p.start);
        } else if s.ret == InProgress {
          OthersAfter(c, s, i, k);
          assert RangeOk(s, s.cos[i]);
        }
      }
    }
  }

  lemma FinishCounting(c: Config, s: State, s': State, i: nat)
    requires Counting(c, s) && FinishMove(c, s, s', i) && s'.running == CountActive(s'.cos)
    ensures Counting(c, s') && (Locking(s) ==> Locking(s'))
  {
    CountPositive(s'.cos, i);
  }

  lemma FinishKeeps(c: Config, init: seq<Sector>, s: State, s': State, i: nat)
    requires Inv(c, init, s) && i < |s.cos| && FinishStep(c, s, s', i)
    ensures Inv(c, init, s')
  {
    hide Ranges, Locking, Carrying, Content, Counting, Tiles, Ordered, Waiters;
    FinishMoves(c, s, s', i);
    hide FinishStep;
    FinishRanges(c, s, s', i);
    FinishCarrying(c, s, s', i);
    FinishContent(c, init, s, s', i);
    FinishOrdered(c, s, s', i);
    FinishWaiters(c, s, s', i);
    FinishCounting(c, s, s', i);
  }

  lemma StepKeepsInv(c: Config, init: seq<Sector>, s: State, s': State, i: nat)
    requires Inv(c, init, s) && Step(c, s, s', i) && Valid(c)
    ensures Inv(c, init, s')
  {
    hide Inv, StartStep, LockStep, IterateFails, IterateStep, ReadStep, ReadFails, OrderStep, WriteStep, WriteFails,
      WrittenStep, FinishStep, ExitStep;
    if StartStep(s, s', i) { StartKeeps(c, init, s, s', i); }
    else if LockStep(c, s, s', i) { LockKeeps(c, init, s, s', i); }
    else if IterateFails(c, s, s', i) { IterateFailsKeeps(c, init, s, s', i); }
    else if n0, cache :| IterateStep(c, s, s', i, n0, cache) { IterateKeeps(c, init, s, s', i, n0, cache); }
    else if ReadStep(c, s, s', i) { ReadKeeps(c, init, s, s', i); }
    else if buf :| ReadFails(s, s', i, buf) { ReadFailsKeeps(c, init, s, s', i, buf); }
    else if OrderStep(c, s, s', i) { OrderKeeps(c, init, s, s', i); }
    else if k :| WriteStep(c, s, s', i, k) { WriteKeeps(c, init, s, s', i, k); }
    else if WriteFails(s, s', i) { WriteFailsKeeps(c, init, s, s', i); }
    else if WrittenStep(s, s', i) { WrittenKeeps(c, init, s, s', i); }
    else if FinishStep(c, s, s', i) { FinishKeeps(c, init, s, s', i); }
    else { ExitKeeps(c, init, s, s', i); }
  }

  lemma {:induction false} RunInv(c: Config, init: seq<Sector>, r: seq<State>, who: seq<nat>, k: nat)
    requires Run(c, init, r, who) && k < |r| && Valid(c)
    ensures Inv(c, init, r[k]) && |r[k].cos| == |r[0].cos|
  {
    hide Inv;
    if k == 0 {
      InitInv(c, init, r[0]);
    } else {
      RunInv(c, init, r, who, k - 1);
      assert Step(c, r[k - 1], r[k], who[k - 1]);
      StepKeepsInv(c, init, r[k - 1], r[k], who[k - 1]);
    }
  }

  // ---------------------------------------------------------- what a run does

  predicate AllExited(s: State) {
    forall i :: 0 <= i < |s.cos| ==> s.cos[i] == Exited
  }

  /**
   When the last coroutine has left, either an error was recorded or the target
   holds the concatenated sources, whatever the interleaving was; and the requests
   handed out were a partition of the input.
   */
  lemma ConvertCopies(c: Config, init: seq<Sector>, r: seq<State>, who: seq<nat>)
    requires Run(c, init, r, who) && Valid(c)
    requires |r[0].cos| > 0 && AllExited(r[|r| - 1])
    ensures var s := r[|r| - 1];
      && s.ret != InProgress
      && (s.ret == Done ==> s.target == Flat(c.parts) + init[Total(c)..] && Tiles(s.handed, Total(c)))
  {
    var s := r[|r| - 1];
    RunInv(c, init, r, who, |r| - 1);
    assert s.cos[0] == Exited;
    NoneActive(s.cos);
    assert s.ret != InProgress by { hide Ranges, Locking, Carrying, Content, Ordered, Waiters; }
    if s.ret == Done {
      assert s.sectorNum == Total(c) by { hide Ranges, Locking, Carrying, Content, Ordered, Waiters; }
      forall j | 0 <= j < |init| ensures s.target[j] == (Flat(c.parts) + init[Total(c)..])[j] {
        hide Ranges, Locking, Carrying, Ordered, Waiters, Counting;
        if i :| 0 <= i < |s.cos| && Left(s.cos[i], j) { assert false; }
      }
    }
  }

  /** The target is a copy up to w and untouched from there on. */
  predicate CopiedUpTo(c: Config, init: seq<Sector>, t: seq<Sector>, w: nat) {
    && w <= Total(c) <= |init| && |t| == |init|
    && (forall j :: 0 <= j < w ==> t[j] == Flat(c.parts)[j]) && (forall j :: w <= j < |t| ==> t[j] == init[j])
  }

  /** How far the writing has come when it is done in order. */
  function Frontier(s: State, i: nat): (w: nat)
    requires i < |s.cos| && (s.cos[i].Writing? || s.cos[i].Finishing?)
  {
    if s.cos[i].Writing? then s.cos[i].cur else RoundEnd(s, i)
  }

  /** The sectors still to be written are those from the frontier on. */
  lemma FrontierLeft(c: Config, s: State, i: nat, j: nat)
    requires Ranges(c, s) && Ordered(c, s) && c.inOrder && s.ret == InProgress
    requires i < |s.cos| && (s.cos[i].Writing? || s.cos[i].Finishing?)
    ensures IsLeft(s, j) <==> j >= Frontier(s, i)
  {
    assert RangeOk(s, s.cos[i]);
    if j < s.sectorNum {
      if s.wrOffs <= j {
        assert InFlight(s, j);
        var k :| 0 <= k < |s.cos| && Covers(s.cos[k], j);
        if k == i {
          forall q | 0 <= q < |s.cos| && q != i ensures !Left(s.cos[q], j) { OneCovers(c, s, i, q, j); }
          assert IsLeft(s, j) <==> Left(s.cos[i], j);
        } else {
          Apart(c, s, i, k);
          assert Left(s.cos[k], j);
        }
      } else {
        forall q | 0 <= q < |s.cos| ensures !Left(s.cos[q], j) { assert RangeOk(s, s.cos[q]); }
      }
    }
  }

  lemma NoWriterLeft(c: Config, s: State, j: nat)
    requires Ranges(c, s) && Ordered(c, s) && c.inOrder && s.ret == InProgress
    requires forall i :: 0 <= i < |s.cos| ==> !s.cos[i].Writing? && !s.cos[i].Finishing?
    ensures IsLeft(s, j) <==> j >= s.wrOffs
  {
    if j < s.sectorNum {
      if s.wrOffs <= j {
        assert InFlight(s, j);
        var k :| 0 <= k < |s.cos| && Covers(s.cos[k], j);
        assert Left(s.cos[k], j);
      } else {
        forall q | 0 <= q < |s.cos| ensures !Left(s.cos[q], j) { assert RangeOk(s, s.cos[q]); }
      }
    }
  }

  /** Ordered writes: as long as nothing failed, the target is at every moment a prefix of the copy. */
  lemma OrderedWritesGrowAPrefix(c: Config, init: seq<Sector>, r: seq<State>, who: seq<nat>, k: nat)
    requires Run(c, init, r, who) && Valid(c) && k < |r|
    requires c.inOrder && r[k].ret == InProgress
    ensures exists w :: CopiedUpTo(c, init, r[k].target, w)
  {
    var s := r[k];
    RunInv(c, init, r, who, k);
    hide Run;
    var w: nat;
    if i :| 0 <= i < |s.cos| && (s.cos[i].Writing? || s.cos[i].Finishing?) {
      w := Frontier(s, i);
      assert RangeOk(s, s.cos[i]) by { hide Locking, Carrying, Content, Counting, Tiles, Ordered, Waiters; }
      forall j | 0 <= j < |init| ensures IsLeft(s, j) <==> j >= w {
        hide Ranges, Ordered, Locking, Carrying, Content, Counting, Tiles, Waiters;
        FrontierLeft(c, s, i, j);
      }
    } else {
      w := s.wrOffs;
      forall j | 0 <= j < |init| ensures IsLeft(s, j) <==> j >= w {
        hide Ranges, Ordered, Locking, Carrying, Content, Counting, Tiles, Waiters;
        NoWriterLeft(c, s, j);
      }
    }
    assert w <= Total(c) by { hide Locking, Carrying, Content, Counting, Tiles, Waiters; }
    assert CopiedUpTo(c, init, s.target, w) by {
      hide Ranges, Locking, Carrying, Counting, Tiles, Ordered, Waiters, IsLeft;
    }
  }

  /** Sector j is part of exactly one request in flight. */
  predicate InOneFlight(s: State, j: nat) {
    exists i :: 0 <= i < |s.cos| && OnlyCovers(s, i, j)
  }

  predicate OnlyCovers(s: State, i: nat, j: nat)
    requires i < |s.cos|
  {
    Covers(s.cos[i], j) && forall k :: 0 <= k < |s.cos| && k != i ==> !Covers(s.cos[k], j)
  }

  /**
   Ordered writes: as long as nothing failed, the requests in flight tile the sectors
   from wr_offs to sector_num, only the first of them is being written, and a waiting
   coroutine has an unfinished predecessor or has been entered with its turn come.
   */
  lemma OrderedRequestsTile(c: Config, init: seq<Sector>, r: seq<State>, who: seq<nat>, k: nat, i: nat, j: nat)
    requires Run(c, init, r, who) && Valid(c) && k < |r| && i < |r[k].cos| && c.inOrder &&
      r[k].ret == InProgress
    ensures var s, p := r[k], r[k].cos[i];
      && (s.wrOffs <= j < s.sectorNum <==> InOneFlight(s, j))
      && (p.Writing? ==> p.start == s.wrOffs)
      && (p.Waiting? && !p.woken ==> exists q :: 0 <= q < |s.cos| && EndsAt(s.cos[q], p.start))
      && (p.Waiting? && p.woken ==> s.wrOffs == p.start)
  {
    var s := r[k];
    RunInv(c, init, r, who, k);
    hide Run;
    CoFacts(c, init, s, i);
    assert Ranges(c, s) && Ordered(c, s) by { hide Locking, Carrying, Content, Counting, Tiles, Waiters; }
    hide Inv;
    if s.wrOffs <= j < s.sectorNum {
      assert InFlight(s, j);
      var q :| 0 <= q < |s.cos| && Covers(s.cos[q], j);
      forall m | 0 <= m < |s.cos| && m != q ensures !Covers(s.cos[m], j) { OneCovers(c, s, q, m, j); }
      assert OnlyCovers(s, q, j);
    } else {
      forall q | 0 <= q < |s.cos| ensures !OnlyCovers(s, q, j) { assert RangeOk(s, s.cos[q]); }
    }
  }

  // ------------------------------------------------------------- no deadlock

  /** The coroutine stands still until another one moves. */
  predicate Blocked(s: State, i: nat)
    requires i < |s.cos|
  {
    (s.cos[i] == WantLock && s.lock.Some?) || (s.cos[i].Waiting? && !s.cos[i].woken) || s.cos[i] == Exited
  }

  /** The status query of the coroutine that holds the lock fails. */
  ghost predicate StatusFails(c: Config, s: State, i: nat) {
    Asks(c, s, i) && NextRequest(c, s.cache, s.sectorNum).None?
  }

  /** A step of coroutine i at which nothing fails, unless it is the status query. */
  ghost predicate GoodStep(c: Config, s: State, s': State, i: nat) {
    Step(c, s, s', i) && (s'.ret == Error ==> s.ret == Error || StatusFails(c, s, i))
  }

  lemma FreeCanMove(c: Config, init: seq<Sector>, s: State, i: nat) returns (s': State)
    requires Inv(c, init, s) && i < |s.cos| && !Blocked(s, i) && Valid(c)
    ensures GoodStep(c, s, s', i)
  {
    CoFacts(c, init, s, i);
    assert |s.target| == |init| >= Total(c) by { hide Ranges, Locking, Carrying, Counting, Ordered, Waiters; }
    hide Inv;
    var p := s.cos[i];
    match p
    case NotStarted => s' := Put(s, i, WantLock).(running := s.running + 1);
    case WantLock =>
      s' := if s.ret != InProgress || s.sectorNum >= Total(c) then Put(s, i, Exiting)
            else Put(s, i, Iterating).(lock := Some(i));
      assert LockStep(c, s, s', i);
    case Iterating => s' := IterateCanMove(c, s, i);
    case Reading(start, n, kind) => s' := ReadCanMove(c, s, i);
    case Ordering(start, n, kind, buf) => s' := OrderCanMove(c, s, i);
    case Waiting(start, n, kind, buf, woken) => s' := OrderCanMove(c, s, i);
    case Writing(start, n, kind, buf, cur) => s' := WriteCanMove(c, s, i);
    case Finishing(start, n) => s' := FinishCanMove(c, s, i);
    case Exiting =>
      s' := Put(s, i, Exited).(running := s.running - 1,
                               ret := if s.running == 1 && s.ret == InProgress then Done else s.ret);
      assert ExitStep(s, s', i);
  }

  lemma IterateCanMove(c: Config, s: State, i: nat) returns (s': State)
    requires Asks(c, s, i)
    ensures GoodStep(c, s, s', i)
  {
    match NextRequest(c, s.cache, s.sectorNum)
    case None =>
      s' := Put(s, i, Exiting).(lock := None, ret := Error);
      assert IterateFails(c, s, s', i);
    case Some(answer) =>
      var n := Taken(c, answer.0, answer.1.kind);
      s' := Put(s, i, Reading(s.sectorNum, n, answer.1.kind)).(
              sectorNum := s.sectorNum + n, cache := answer.1, lock := None, handed := s.handed + [(s.sectorNum, n)]);
      assert IterateStep(c, s, s', i, answer.0, answer.1);
  }

  lemma ReadCanMove(c: Config, s: State, i: nat) returns (s': State)
    requires i < |s.cos| && s.cos[i].Reading? && s.cos[i].start + s.cos[i].n <= Total(c)
    ensures GoodStep(c, s, s', i)
  {
    var p := s.cos[i];
    s' := Put(s, i, if p.kind == DataKind then Ordering(p.start, p.n, DataKind, Flat(c.parts)[p.start..p.start + p.n])
                    else if c.minSparse == 0 then Ordering(p.start, p.n, DataKind, ZeroFill(p.n))
                    else Ordering(p.start, p.n, ZeroKind, []));
    assert ReadStep(c, s, s', i);
  }

  lemma OrderCanMove(c: Config, s: State, i: nat) returns (s': State)
    requires i < |s.cos| && (s.cos[i].Ordering? || (s.cos[i].Waiting? && s.cos[i].woken))
    ensures GoodStep(c, s, s', i)
  {
    var p := s.cos[i];
    s' := Put(s, i,
      if c.inOrder && s.wrOffs != p.start && s.ret == InProgress then Waiting(p.start, p.n, p.kind, p.buf, false)
      else if s.ret == InProgress then Writing(p.start, p.n, p.kind, p.buf, p.start)
      else Finishing(p.start, p.n));
    assert OrderStep(c, s, s', i);
  }

  /** A write can go on: it is at its end, or the rest can be written, or an earlier request has failed. */
  lemma WriteCanMove(c: Config, s: State, i: nat) returns (s': State)
    requires i < |s.cos| && s.cos[i].Writing? && RangeOk(s, s.cos[i]) && Carries(c, s, s.cos[i])
    requires s.sectorNum <= Total(c) <= |s.target|
    ensures GoodStep(c, s, s', i)
  {
    var p := s.cos[i];
    if p.cur == p.start + p.n {
      s' := Put(s, i, Finishing(p.start, p.n));
      assert WrittenStep(s, s', i);
    } else if s.ret == Error {
      s' := Put(s, i, Finishing(p.start, p.n));
      assert WriteFails(s, s', i);
    } else {
      s' := WriteAnyChunk(c, s, i, p.start + p.n - p.cur);
    }
  }

  /** Whatever chunk of the rest convert_co_write chooses, it can be written. */
  lemma WriteAnyChunk(c: Config, s: State, i: nat, k: nat) returns (s': State)
    requires i < |s.cos| && s.cos[i].Writing? && RangeOk(s, s.cos[i]) && Carries(c, s, s.cos[i])
    requires s.sectorNum <= Total(c) <= |s.target| && s.ret != Error
    requires 0 < k <= s.cos[i].start + s.cos[i].n - s.cos[i].cur
    ensures GoodStep(c, s, s', i) && s'.ret == s.ret && s'.cos == s.cos[i := s.cos[i].(cur := s.cos[i].cur + k)]
  {
    var p := s.cos[i];
    var b := Wanted(p.kind, Rest(p), k);
    OverwriteEffect(c, s.target, p.cur, p.kind, Rest(p), k);
    s' := Put(s, i, p.(cur := p.cur + k)).(target := s.target[..p.cur] + b + s.target[p.cur + k..]);
    assert WriteStep(c, s, s', i, k);
  }

  lemma FinishCanMove(c: Config, s: State, i: nat) returns (s': State)
    requires i < |s.cos| && s.cos[i].Finishing?
    ensures GoodStep(c, s, s', i)
  {
    var e := RoundEnd(s, i);
    s' := Put(s, i, WantLock);
    if c.inOrder {
      s' := s'.(wrOffs := e);
      if j :| 0 <= j < |s.cos| && WaitsFor(s.cos[j], e) {
        s' := Handover(s, i, j, e);
      }
    }
    assert FinishStep(c, s, s', i);
  }

  /** Following predecessors from a waiting coroutine leads to one that is not waiting. */
  lemma {:induction false} SomeoneFree(c: Config, init: seq<Sector>, s: State, i: nat)
    requires Inv(c, init, s) && i < |s.cos| && HasRange(s.cos[i])
    ensures exists k :: 0 <= k < |s.cos| && !Blocked(s, k)
    decreases if i < |s.cos| && HasRange(s.cos[i]) then s.cos[i].start else 0
  {
    CoFacts(c, init, s, i);
    if Blocked(s, i) {
      var k :| 0 <= k < |s.cos| && EndsAt(s.cos[k], s.cos[i].start);
      CoFacts(c, init, s, k);
      SomeoneFree(c, init, s, k);
    }
  }

  /** As long as a coroutine has not left, one of them can take a step at which nothing but a status query fails. */
  lemma NoDeadlock(c: Config, init: seq<Sector>, r: seq<State>, who: seq<nat>) returns (s': State, k: nat)
    requires Run(c, init, r, who) && Valid(c) && !AllExited(r[|r| - 1])
    ensures GoodStep(c, r[|r| - 1], s', k)
  {
    var s := r[|r| - 1];
    RunInv(c, init, r, who, |r| - 1);
    hide Run;
    var i :| 0 <= i < |s.cos| && s.cos[i] != Exited;
    CoFacts(c, init, s, i);
    k := i;
    if s.cos[i] == WantLock && s.lock.Some? {
      k := s.lock.value;
      assert s.cos[k] == Iterating by { hide Ranges, Carrying, Content, Counting, Tiles, Ordered, Waiters; }
    } else if HasRange(s.cos[i]) {
      SomeoneFree(c, init, s, i);
      var q :| 0 <= q < |s.cos| && !Blocked(s, q);
      k := q;
    }
    s' := FreeCanMove(c, init, s, k);
  }

  // ------------------------------------------------------------- termination

  /** How much a coroutine can still do with the request it has. */
  function Rank(p: Phase): nat {
    match p
    case NotStarted => 4
    case WantLock => 3
    case Iterating => 2
    case Reading(start, n, kind) => n + 9
    case Ordering(start, n, kind, buf) => n + 8
    case Waiting(start, n, kind, buf, woken) => if woken then n + 6 else n + 7
    case Writing(start, n, kind, buf, cur) => if cur <= start + n then start + n - cur + 5 else 5
    case Finishing(start, n) => 4
    case Exiting => 1
    case Exited => 0
  }

  function Ranks(cos: seq<Phase>): nat {
    if cos == [] then 0 else Ranks(cos[..|cos| - 1]) + Rank(cos[|cos| - 1])
  }

  lemma {:induction false} RanksUpdate(cos: seq<Phase>, i: nat, p: Phase)
    requires i < |cos|
    ensures Ranks(cos[i := p]) == Ranks(cos) - Rank(cos[i]) + Rank(p)
  {
    var k := |cos| - 1;
    if i == k {
      assert cos[i := p][..k] == cos[..k];
    } else {
      assert cos[i := p][..k] == cos[..k][i := p];
      RanksUpdate(cos[..k], i, p);
    }
  }

  function Measure(c: Config, s: State): int {
    10 * (Total(c) - s.sectorNum) + Ranks(s.cos)
  }

  lemma RankDrops(c: Config, s: State, s': State, i: nat)
    requires i < |s.cos| && |s'.cos| == |s.cos| && s'.cos == s.cos[i := s'.cos[i]]
    requires 10 * s.sectorNum + Rank(s'.cos[i]) < 10 * s'.sectorNum + Rank(s.cos[i])
    ensures Measure(c, s') < Measure(c, s)
  {
    RanksUpdate(s.cos, i, s'.cos[i]);
  }

  lemma HandoverDrops(c: Config, s: State, i: nat, j: nat)
    requires i < |s.cos| && s.cos[i].Finishing? && j < |s.cos| && WaitsFor(s.cos[j], RoundEnd(s, i))
    ensures Measure(c, Handover(s, i, j, RoundEnd(s, i))) < Measure(c, s)
  {
    var woken := s.cos[j].(woken := true);
    RanksUpdate(s.cos, j, woken);
    RanksUpdate(s.cos[j := woken], i, WantLock);
  }

  lemma FinishDrops(c: Config, s: State, s': State, i: nat)
    requires i < |s.cos| && FinishStep(c, s, s', i)
    ensures Measure(c, s') < Measure(c, s)
  {
    var e := RoundEnd(s, i);
    if c.inOrder && exists j :: 0 <= j < |s.cos| && WaitsFor(s.cos[j], e) {
      var j :| 0 <= j < |s.cos| && WaitsFor(s.cos[j], e) && s' == Handover(s, i, j, e);
      HandoverDrops(c, s, i, j);
      hide Measure, FinishStep, WaitsFor;
    } else {
      RanksUpdate(s.cos, i, WantLock);
    }
  }

  lemma IterateDrops(c: Config, s: State, s': State, i: nat, n0: nat, cache: Cache)
    requires IterateStep(c, s, s', i, n0, cache) && Valid(c)
    ensures Measure(c, s') < Measure(c, s)
  {
    RankDrops(c, s, s', i);
  }

  lemma OrderDrops(c: Config, s: State, s': State, i: nat)
    requires i < |s.cos| && OrderStep(c, s, s', i) && WaiterOk(c, s, s.cos[i])
    ensures Measure(c, s') < Measure(c, s)
  {
    RankDrops(c, s, s', i);
  }

  lemma IoDrops(c: Config, s: State, s': State, i: nat)
    requires i < |s.cos| && RangeOk(s, s.cos[i])
    requires ReadStep(c, s, s', i) || (exists buf :: ReadFails(s, s', i, buf)) || WriteFails(s, s', i) ||
      WrittenStep(s, s', i)
      || exists k :: WriteStep(c, s, s', i, k)
    ensures Measure(c, s') < Measure(c, s)
  {
    hide ChunkEffect, Flat;
    RankDrops(c, s, s', i);
  }

  lemma ControlDrops(c: Config, s: State, s': State, i: nat)
    requires i < |s.cos| && (StartStep(s, s', i) || LockStep(c, s, s', i) || IterateFails(c, s, s', i) ||
      ExitStep(s, s', i))
    ensures Measure(c, s') < Measure(c, s)
  {
    RankDrops(c, s, s', i);
  }

  /** Every step brings the conversion closer to its end. */
  lemma StepDrops(c: Config, init: seq<Sector>, s: State, s': State, i: nat)
    requires Inv(c, init, s) && Step(c, s, s', i) && Valid(c)
    ensures Measure(c, s') < Measure(c, s)
  {
    CoFacts(c, init, s, i);
    hide Inv, Measure, Carries, RangeOk, WaiterOk, StartStep, LockStep, IterateFails, IterateStep, ReadStep, ReadFails,
      OrderStep, WriteStep, WriteFails, WrittenStep, FinishStep, ExitStep;
    if FinishStep(c, s, s', i) { FinishDrops(c, s, s', i); }
    else if n0, cache :| IterateStep(c, s, s', i, n0, cache) { IterateDrops(c, s, s', i, n0, cache); }
    else if OrderStep(c, s, s', i) { OrderDrops(c, s, s', i); }
    else if StartStep(s, s', i) || LockStep(c, s, s', i) || IterateFails(c, s, s', i) || ExitStep(s, s', i) {
      ControlDrops(c, s, s', i);
    } else {
      IoDrops(c, s, s', i);
    }
  }

  /** No run goes on for ever: its length is bounded by what there is to do. */
  lemma {:induction false} RunEnds(c: Config, init: seq<Sector>, r: seq<State>, who: seq<nat>, k: nat)
    requires Run(c, init, r, who) && Valid(c) && k < |r|
    ensures 0 <= Measure(c, r[k]) <= Measure(c, r[0]) - k
  {
    RunInv(c, init, r, who, k);
    assert Measure(c, r[k]) >= 0 by { hide Run, Locking, Carrying, Content, Counting, Ordered, Waiters, Tiles; }
    if k > 0 {
      RunInv(c, init, r, who, k - 1);
      RunEnds(c, init, r, who, k - 1);
      assert Step(c, r[k - 1], r[k], who[k - 1]);
      hide Inv, Step, Measure;
      StepDrops(c, init, r[k - 1], r[k], who[k - 1]);
    }
  }

  lemma ExtendRun(c: Config, init: seq<Sector>, r: seq<State>, who: seq<nat>, s': State, i: nat)
    requires Run(c, init, r, who) && Step(c, r[|r| - 1], s', i)
    ensures Run(c, init, r + [s'], who + [i])
  {
    hide Step;
    var r', who' := r + [s'], who + [i];
    forall k | 0 <= k < |who'| ensures Step(c, r'[k], r'[k + 1], who'[k]) {
      if k < |who| { assert Step(c, r[k], r[k + 1], who[k]); }
    }
  }

  lemma RunNonempty(c: Config, init: seq<Sector>, r: seq<State>, who: seq<nat>)
    requires Run(c, init, r, who)
    ensures |r| > 0
  {
  }

  // ------------------------------------- the requests, whatever the interleaving

  /** No status query fails from here on. */
  ghost predicate Answered(c: Config, cache: Cache, sectorNum: nat)
    requires Valid(c)
    decreases Total(c) - sectorNum
  {
    sectorNum >= Total(c) ||
    match NextRequest(c, cache, sectorNum)
    case None => false
    case Some(answer) => Answered(c, answer.1, sectorNum + Taken(c, answer.0, answer.1.kind))
  }

  /** The requests that one coroutine alone would hand out. */
  ghost function Requests(c: Config, cache: Cache, sectorNum: nat): seq<(nat, nat)>
    requires Valid(c)
    decreases Total(c) - sectorNum
  {
    if sectorNum >= Total(c) then []
    else
      match NextRequest(c, cache, sectorNum)
      case None => []
      case Some(answer) =>
        var n := Taken(c, answer.0, answer.1.kind);
        [(sectorNum, n)] + Requests(c, answer.1, sectorNum + n)
  }

  /** The requests of a state: those handed out and those to come. */
  ghost function AllRequests(c: Config, s: State): seq<(nat, nat)>
    requires Valid(c)
  {
    s.handed + Requests(c, s.cache, s.sectorNum)
  }

  lemma StepRequests(c: Config, s: State, s': State, i: nat)
    requires Valid(c) && Step(c, s, s', i)
    ensures AllRequests(c, s') == AllRequests(c, s)
    ensures Answered(c, s'.cache, s'.sectorNum) <==> Answered(c, s.cache, s.sectorNum)
    ensures StatusFails(c, s, i) ==> !Answered(c, s.cache, s.sectorNum)
  {
    if n0, cache :| IterateStep(c, s, s', i, n0, cache) {
      hide NextRequest;
    } else {
      SameRequests(c, s, s', i);
      hide NextRequest, Step;
    }
  }

  lemma SameRequests(c: Config, s: State, s': State, i: nat)
    requires Step(c, s, s', i) && !exists n0, cache :: IterateStep(c, s, s', i, n0, cache)
    ensures s'.handed == s.handed && s'.cache == s.cache && s'.sectorNum == s.sectorNum
  {
    hide NextRequest, IterateStep, ChunkEffect, Flat, WaitsFor;
  }

  lemma {:induction false} RunRequests(c: Config, init: seq<Sector>, r: seq<State>, who: seq<nat>, k: nat)
    requires Valid(c) && Run(c, init, r, who) && k < |r|
    ensures AllRequests(c, r[k]) == Requests(c, r[0].cache, 0)
    ensures Answered(c, r[k].cache, r[k].sectorNum) <==> Answered(c, r[0].cache, 0)
  {
    hide Step, Answered, Requests;
    if k == 0 {
      assert AllRequests(c, r[0]) == Requests(c, r[0].cache, 0);
    } else {
      RunRequests(c, init, r, who, k - 1);
      assert Step(c, r[k - 1], r[k], who[k - 1]);
      hide Run, AllRequests;
      StepRequests(c, r[k - 1], r[k], who[k - 1]);
    }
  }

  /**
   However many coroutines there are and however they are interleaved, the requests
   handed out are the first of those that one coroutine alone would hand out, and all of
   them when the conversion is complete.
   */
  lemma RequestsFixed(c: Config, init: seq<Sector>, r: seq<State>, who: seq<nat>, k: nat)
    requires Valid(c) && Run(c, init, r, who) && k < |r|
    ensures r[k].handed <= Requests(c, r[0].cache, 0)
    ensures r[k].ret == Done ==> r[k].handed == Requests(c, r[0].cache, 0)
  {
    RunRequests(c, init, r, who, k);
    RunInv(c, init, r, who, k);
    hide Run, NextRequest;
    if r[k].ret == Done {
      assert r[k].sectorNum == Total(c) by { hide Ranges, Locking, Carrying, Content, Ordered, Waiters, Tiles; }
      assert Requests(c, r[k].cache, r[k].sectorNum) == [];
    }
  }

  // ---------------------------------------------------------------- buffers

  /** A request that needs the buffer, for data or for zeroes that are written out, fits it. */
  predicate FitsBuffer(c: Config, p: Phase) {
    HasRange(p) && !p.Finishing? && (p.kind == DataKind || c.minSparse == 0) ==> p.n <= c.bufSectors
  }

  /** How much is handed out: all of it, or as much as the buffer holds of zeroes that are written out. */
  lemma HandedOut(c: Config, s: State, s': State, i: nat, n0: nat, cache: Cache)
    requires IterateStep(c, s, s', i, n0, cache) && CacheOk(c, s.cache, s.sectorNum)
    ensures i < |s'.cos| && s'.cos[i].Reading? && FitsBuffer(c, s'.cos[i])
    ensures var n := s'.cos[i].n;
      0 < n <= n0 && (n < n0 ==> c.minSparse == 0 && cache.kind == ZeroKind && n == c.bufSectors)
  {
    NextRequestOk(c, s.cache, s.sectorNum);
    hide NextRequest, CacheOk;
  }

  lemma StepFits(c: Config, s: State, s': State, i: nat)
    requires Step(c, s, s', i) && CacheOk(c, s.cache, s.sectorNum)
    requires forall j :: 0 <= j < |s.cos| ==> FitsBuffer(c, s.cos[j])
    ensures forall j :: 0 <= j < |s'.cos| ==> FitsBuffer(c, s'.cos[j])
  {
    if n0, cache :| IterateStep(c, s, s', i, n0, cache) {
      HandedOut(c, s, s', i, n0, cache);
      hide NextRequest, CacheOk;
    } else if FinishStep(c, s, s', i) {
      hide Step, CacheOk, WaitsFor;
    } else {
      hide NextRequest, IterateStep, CacheOk, ChunkEffect, Flat, FinishStep;
      OneFits(c, s, s', i);
    }
  }

  lemma OneFits(c: Config, s: State, s': State, i: nat)
    requires Step(c, s, s', i) && !FinishStep(c, s, s', i) && !exists n0, cache :: IterateStep(c, s, s', i, n0, cache)
    requires FitsBuffer(c, s.cos[i])
    ensures |s'.cos| == |s.cos| && s'.cos == s.cos[i := s'.cos[i]] && FitsBuffer(c, s'.cos[i])
  {
    hide NextRequest, IterateStep, ChunkEffect, Flat, FinishStep;
  }

  /** In every run each request fits the buffer that its coroutine has. */
  lemma {:induction false} BuffersFit(c: Config, init: seq<Sector>, r: seq<State>, who: seq<nat>, k: nat)
    requires Run(c, init, r, who) && k < |r| && Valid(c)
    ensures forall j :: 0 <= j < |r[k].cos| ==> FitsBuffer(c, r[k].cos[j])
  {
    hide Step;
    if k > 0 {
      BuffersFit(c, init, r, who, k - 1);
      RunInv(c, init, r, who, k - 1);
      assert CacheOk(c, r[k - 1].cache, r[k - 1].sectorNum) by {
        hide Ranges, Locking, Content, Ordered, Waiters, Tiles;
      }
      assert Step(c, r[k - 1], r[k], who[k - 1]);
      hide Run, Inv, CacheOk;
      StepFits(c, r[k - 1], r[k], who[k - 1]);
    }
  }

  // ------------------------------------------------------------- completion

  /** From every state of every run the coroutines can all leave, with nothing failing but a status query. */
  lemma {:induction false} CanLeave(c: Config, init: seq<Sector>, r: seq<State>, who: seq<nat>)
      returns (r': seq<State>, who': seq<nat>)
    requires Run(c, init, r, who) && Valid(c)
    ensures Run(c, init, r', who') && r <= r' && who <= who' && AllExited(r'[|r'| - 1])
    ensures r'[|r'| - 1].ret == Error ==> r[|r| - 1].ret == Error || !Answered(c, r[0].cache, 0)
    decreases Measure(c, r[0]) - |r| + 1
  {
    hide Answered, Step;
    RunEnds(c, init, r, who, |r| - 1);
    if AllExited(r[|r| - 1]) {
      return r, who;
    }
    var s', i := GoodExtension(c, init, r, who);
    RunNonempty(c, init, r, who);
    hide Run, AllExited, Measure;
    assert (r + [s'])[0] == r[0];
    r', who' := CanLeave(c, init, r + [s'], who + [i]);
  }

  lemma GoodExtension(c: Config, init: seq<Sector>, r: seq<State>, who: seq<nat>) returns (s': State, i: nat)
    requires Run(c, init, r, who) && Valid(c) && !AllExited(r[|r| - 1])
    ensures Run(c, init, r + [s'], who + [i])
    ensures s'.ret == Error ==> r[|r| - 1].ret == Error || !Answered(c, r[0].cache, 0)
  {
    hide Answered, Step, StatusFails, AllExited;
    s', i := NoDeadlock(c, init, r, who);
    ExtendRun(c, init, r, who, s', i);
    RunRequests(c, init, r, who, |r| - 1);
    StepRequests(c, r[|r| - 1], s', i);
  }

  /** A run that goes on from r to the end, with result 0 and the target a copy of the sources. */
  ghost predicate Completes(c: Config, init: seq<Sector>, r: seq<State>, who: seq<nat>,
                            r': seq<State>, who': seq<nat>)
  {
    && Run(c, init, r', who') && r <= r' && who <= who' && Total(c) <= |init|
    && var s := r'[|r'| - 1];
       AllExited(s) && s.ret == Done && s.target == Flat(c.parts) + init[Total(c)..] && Tiles(s.handed, Total(c))
  }

  lemma CanComplete(c: Config, init: seq<Sector>, r: seq<State>, who: seq<nat>)
      returns (r': seq<State>, who': seq<nat>)
    requires Run(c, init, r, who) && Valid(c) && |r[0].cos| > 0 && r[|r| - 1].ret != Error && Answered(c, r[0].cache, 0)
    ensures Completes(c, init, r, who, r', who')
  {
    RunNonempty(c, init, r, who) by { hide Run; }
    r', who' := CanLeave(c, init, r, who);
    assert r'[0] == r[0];
    hide AllExited, Tiles, Step, Answered;
    ConvertCopies(c, init, r', who');
  }

  lemma DoneIsAnswered(c: Config, init: seq<Sector>, r: seq<State>, who: seq<nat>)
    requires Run(c, init, r, who) && Valid(c) && r[|r| - 1].ret == Done
    ensures Answered(c, r[0].cache, 0)
  {
    var k := |r| - 1;
    RunRequests(c, init, r, who, k);
    RunInv(c, init, r, who, k);
    hide Run, NextRequest;
    assert r[k].sectorNum == Total(c) by { hide Ranges, Locking, Carrying, Content, Ordered, Waiters, Tiles; }
  }

  /**
   A conversion in which nothing has failed so far can be completed, from every state of
   every run, exactly if none of the status queries that it makes fails.
   */
  lemma CompletesIff(c: Config, init: seq<Sector>, r: seq<State>, who: seq<nat>)
    requires Run(c, init, r, who) && Valid(c) && |r[0].cos| > 0 && r[|r| - 1].ret != Error
    ensures Answered(c, r[0].cache, 0) <==> exists r', who' :: Completes(c, init, r, who, r', who')
  {
    hide Answered, Step;
    RunNonempty(c, init, r, who);
    if Answered(c, r[0].cache, 0) {
      var r', who' := CanComplete(c, init, r, who);
    }
    forall r', who' | Completes(c, init, r, who, r', who') ensures Answered(c, r[0].cache, 0) {
      assert r'[0] == r[0];
      DoneIsAnswered(c, init, r', who');
    }
  }
}
