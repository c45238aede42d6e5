/** The sector scans that decide what `qemu-img convert` writes: is_allocated_sectors and its _min variant. */
module Sparse {
  import opened Common
  import opened Images

  type Sector = s: seq<Byte> | |s| == SECTOR witness seq(SECTOR, _ => 0)

  predicate ZeroSector(s: Sector) {
    Zero(s)
  }

  predicate AllZero(b: seq<Sector>) {
    forall i :: 0 <= i < |b| ==> ZeroSector(b[i])
  }

  function ZeroFill(n: nat): (b: seq<Sector>)
    ensures |b| == n && AllZero(b)
  {
    seq(n, _ => seq(SECTOR, _ => 0 as Byte))
  }

  lemma ZeroSectorUnique(a: Sector, b: Sector)
    requires ZeroSector(a) && ZeroSector(b)
    ensures a == b
  {
  }

  lemma AllZeroEqual(a: seq<Sector>, b: seq<Sector>)
    requires AllZero(a) && AllZero(b) && |a| == |b|
    ensures a == b
  {
    forall i | 0 <= i < |a| ensures a[i] == b[i] { ZeroSectorUnique(a[i], b[i]); }
  }

  /** How many leading sectors are, like the first one, zero or not zero. */
  function RunLength(b: seq<Sector>): (r: nat)
    requires b != []
    ensures 0 < r <= |b|
    ensures forall i :: 0 <= i < r ==> ZeroSector(b[i]) == ZeroSector(b[0])
    ensures r < |b| ==> ZeroSector(b[r]) != ZeroSector(b[0])
  {
    if |b| == 1 || ZeroSector(b[1]) != ZeroSector(b[0]) then 1 else 1 + RunLength(b[1..])
  }

  /**
   What is_allocated_sectors decides: the leading run, with its end moved to an
   aligned sector; a leading run of zeroes that is too short to be worth it
   counts as data.
   */
  function LeadingArea(b: seq<Sector>, sectorNum: nat, alignment: nat): (bool, nat)
    requires alignment > 0
  {
    if b == [] then (false, 0)
    else
      var zero, i := ZeroSector(b[0]), RunLength(b);
      var tail := (sectorNum + i) % alignment;
      if i == |b| || tail == 0 then (!zero, i)
      else if zero && i > tail then (false, i - tail)
      else (true, Min(i + alignment - tail, |b|))
  }

  lemma RunLengthIs(b: seq<Sector>, r: nat)
    requires 0 < r <= |b|
    requires forall i :: 0 <= i < r ==> ZeroSector(b[i]) == ZeroSector(b[0])
    requires r < |b| ==> ZeroSector(b[r]) != ZeroSector(b[0])
    ensures RunLength(b) == r
  {
  }

  predicate Aligned(x: nat, alignment: nat)
    requires alignment > 0
  {
    AlignDown(x, alignment) == x
  }

  /** An area ends at an aligned sector of the image, or with the buffer. */
  predicate EndsAligned(b: seq<Sector>, pnum: nat, sectorNum: nat, alignment: nat)
    requires alignment > 0
  {
    pnum == |b| || Aligned(sectorNum + pnum, alignment)
  }

  lemma TailCut(x: nat, a: nat)
    requires a > 0
    ensures AlignDown(x - x % a, a) == x - x % a && AlignDown(x + a - x % a, a) == x + a - x % a
    ensures x % a == 0 ==> AlignDown(x, a) == x
  {
    var q := x / a;
    assert x - x % a == q * a && x + a - x % a == (q + 1) * a;
    AlignDownUnique(q * a, a, q);
    AlignDownUnique((q + 1) * a, a, q + 1);
  }

  /** An area that is reported as unused is zero, and every answer makes progress and ends at an aligned sector. */
  lemma LeadingAreaSound(b: seq<Sector>, sectorNum: nat, alignment: nat)
    requires alignment > 0
    ensures var (used, pnum) := LeadingArea(b, sectorNum, alignment);
      && pnum <= |b| && (b != [] ==> pnum > 0)
      && (!used ==> AllZero(b[..pnum]))
      && (b != [] && !ZeroSector(b[0]) ==> used)
      && EndsAligned(b, pnum, sectorNum, alignment)
  {
    if b != [] { TailCut(sectorNum + RunLength(b), alignment); }
  }

  /** The sectors before e, and that at e, are all zero or all not zero. */
  predicate Uniform(b: seq<Sector>, e: nat)
    requires e < |b|
  {
    forall k :: 0 <= k <= e ==> ZeroSector(b[k]) == ZeroSector(b[0])
  }

  /**
   What the answers mean.  The area is unused exactly if the buffer is zero up to some
   aligned sector, or to its end.  An unused area goes to the last such sector.  A used
   area ends at the first aligned sector at which the leading run is over.
   */
  ghost predicate Area(b: seq<Sector>, sectorNum: nat, alignment: nat, used: bool, pnum: nat)
    requires alignment > 0
  {
    && 0 < pnum <= |b| && EndsAligned(b, pnum, sectorNum, alignment)
    && (if used then
          && (pnum < |b| ==> !Uniform(b, pnum))
          && (forall e :: 0 < e < pnum && Aligned(sectorNum + e, alignment) ==> Uniform(b, e))
          && !AllZero(b)
          && (forall e :: 0 < e <= |b| && Aligned(sectorNum + e, alignment) ==> !AllZero(b[..e]))
        else
          && AllZero(b[..pnum])
          && (AllZero(b) ==> pnum == |b|)
          && (forall e :: 0 < e <= |b| && Aligned(sectorNum + e, alignment) && AllZero(b[..e]) ==> e <= pnum))
  }

  /** No aligned number lies between x and the next one after it. */
  lemma NextAligned(x: nat, y: nat, a: nat)
    requires a > 0 && x <= y < x + a - x % a && Aligned(y, a)
    ensures x % a == 0 && y == x
  {
    var p, q := x / a, y / a;
    assert x == p * a + x % a;
    if q < p {
      MulStep(q, p, a);
    } else if q > p {
      MulStep(p, q, a);
    }
  }

  lemma CutBack(x: nat, a: nat)
    requires a > 0
    ensures (x - x % a) % a == 0
  {
    TailCut(x, a);
    AlignedTail(x - x % a, a);
  }

  lemma AlignedTail(x: nat, a: nat)
    requires a > 0 && Aligned(x, a)
    ensures x % a == 0
  {
    assert x == x / a * a + x % a;
  }

  /** Where aligned sectors can lie around the end of a run of i. */
  lemma AroundRun(sectorNum: nat, i: nat, e: nat, a: nat)
    requires a > 0 && Aligned(sectorNum + e, a)
    ensures var tail := (sectorNum + i) % a;
      && (i <= e ==> e >= i + a - tail || (tail == 0 && e == i))
      && (e < i && tail != 0 ==> e <= i - tail)
  {
    var x := sectorNum + i;
    if i <= e && e < i + a - x % a { NextAligned(x, sectorNum + e, a); }
    if e < i && e > i - x % a {
      CutBack(x, a);
      NextAligned(x - x % a, sectorNum + e, a);
    }
  }

  lemma RunIsUniform(b: seq<Sector>, e: nat)
    requires e < |b|
    ensures Uniform(b, e) <==> e < RunLength(b)
    ensures ZeroSector(b[0]) ==> (AllZero(b[..e]) <==> e <= RunLength(b))
    ensures AllZero(b) <==> ZeroSector(b[0]) && RunLength(b) == |b|
  {
    var i := RunLength(b);
    if i < |b| && i < e { assert b[..e][i] == b[i]; }
    if i == |b| && ZeroSector(b[0]) { assert AllZero(b); }
  }

  lemma LeadingAreaIs(b: seq<Sector>, sectorNum: nat, alignment: nat)
    requires alignment > 0 && b != []
    ensures var (used, pnum) := LeadingArea(b, sectorNum, alignment); Area(b, sectorNum, alignment, used, pnum)
  {
    var (used, pnum) := LeadingArea(b, sectorNum, alignment);
    var i := RunLength(b);
    TailCut(sectorNum + i, alignment);
    assert b[..|b|] == b;
    assert Aligned(sectorNum + pnum, alignment) || pnum == |b|;
    hide RunLength, ZeroSector, AllZero, Uniform, Aligned;
    RunIsUniform(b, 0);
    if pnum < |b| { RunIsUniform(b, pnum); }
    forall e | 0 < e <= |b| && Aligned(sectorNum + e, alignment)
      ensures (used ==> !AllZero(b[..e]) && (e < pnum ==> Uniform(b, e)))
        && (!used && AllZero(b[..e]) ==> e <= pnum)
    {
      AroundRun(sectorNum, i, e, alignment);
      if e < |b| { RunIsUniform(b, e); }
      if AllZero(b[..e]) { FirstOfZero(b, e); }
    }
  }

  /** There is only one such answer. */
  lemma AreaUnique(b: seq<Sector>, sectorNum: nat, alignment: nat, u1: bool, p1: nat, u2: bool, p2: nat)
    requires alignment > 0
    requires Area(b, sectorNum, alignment, u1, p1) && Area(b, sectorNum, alignment, u2, p2)
    ensures u1 == u2 && p1 == p2
  {
    hide ZeroSector, AllZero, Uniform, Aligned;
    assert b[..|b|] == b;
  }

  lemma FirstOfZero(b: seq<Sector>, e: nat)
    requires 0 < e <= |b| && AllZero(b[..e])
    ensures ZeroSector(b[0])
  {
    assert b[..e][0] == b[0];
  }

  /** `alignment` is a power of two in qemu-img.c, so the mask there is the remainder here. */
  method IsAllocatedSectors(b: seq<Sector>, sectorNum: nat, alignment: nat) returns (used: bool, pnum: nat)
    requires alignment > 0
    ensures (used, pnum) == LeadingArea(b, sectorNum, alignment)
    ensures if b == [] then !used && pnum == 0 else Area(b, sectorNum, alignment, used, pnum)
  {
    if |b| == 0 { return false, 0; }
    LeadingAreaIs(b, sectorNum, alignment);
    hide Area, AllZero;
    var zero := ZeroSector(b[0]);
    var i := 1;
    while i < |b|
      invariant 1 <= i <= |b|
      invariant forall k :: 0 <= k < i ==> ZeroSector(b[k]) == zero
    {
      if zero != ZeroSector(b[i]) { break; }
      i := i + 1;
    }
    RunLengthIs(b, i);
    if i == |b| { return !zero, i; }
    var tail := (sectorNum + i) % alignment;
    if tail != 0 {
      if zero && i <= tail { zero := false; }
      if !zero {
        i := Min(i + (alignment - tail), |b|);
      } else {
        i := i - tail;
      }
    }
    return !zero, i;
  }

  /**
   How much of b a used area before it takes along: used areas, and unused ones of less
   than `min` sectors that a used one follows.
   */
  function TakenAlong(b: seq<Sector>, min: nat, sectorNum: nat, alignment: nat): (n: nat)
    requires alignment > 0
    ensures n <= |b|
    decreases |b|
  {
    if b == [] then 0
    else
      LeadingAreaSound(b, sectorNum, alignment);
      var (used, p) := LeadingArea(b, sectorNum, alignment);
      if !used && p >= min then 0
      else
        var rest := TakenAlong(b[p..], min, sectorNum + p, alignment);
        if used || rest > 0 then p + rest else 0
  }

  /** One area more. */
  lemma TakenStep(b: seq<Sector>, from: nat, min: nat, sectorNum: nat, alignment: nat)
    requires alignment > 0 && from < |b|
    ensures var (used, p) := LeadingArea(b[from..], sectorNum + from, alignment);
      && 0 < p && from + p <= |b| && (!used ==> AllZero(b[from..][..p]))
      && EndsAligned(b, from + p, sectorNum, alignment)
      && var rest := TakenAlong(b[from + p..], min, sectorNum + from + p, alignment);
         TakenAlong(b[from..], min, sectorNum + from, alignment) ==
         if !used && p >= min then 0 else if used || rest > 0 then p + rest else 0
  {
    LeadingAreaSound(b[from..], sectorNum + from, alignment);
    var (used, p) := LeadingArea(b[from..], sectorNum + from, alignment);
    assert b[from..][p..] == b[from + p..] && sectorNum + (from + p) == sectorNum + from + p;
    hide LeadingArea, AllZero, AlignDown;
  }

  /**
   Like IsAllocatedSectors, but when the buffer starts with a used sector, short
   zero areas of less than `min` sectors are taken along.
   */
  method IsAllocatedSectorsMin(b: seq<Sector>, min0: nat, sectorNum: nat, alignment: nat)
      returns (used: bool, pnum: nat)
    requires alignment > 0
    ensures pnum <= |b| && (b != [] ==> pnum > 0)
    ensures used == LeadingArea(b, sectorNum, alignment).0
    ensures !used ==> pnum == LeadingArea(b, sectorNum, alignment).1 && AllZero(b[..pnum])
    ensures used ==>
      var first := LeadingArea(b, sectorNum, alignment).1;
      first <= pnum && pnum == first + TakenAlong(b[first..], Min(|b|, min0), sectorNum + first, alignment)
    ensures EndsAligned(b, pnum, sectorNum, alignment)
    ensures used && pnum < |b| ==> FreeAreaFollows(b, pnum, Min(|b|, min0))
  {
    var min := Min(|b|, min0);
    hide Area, LeadingArea, TakenAlong, AllZero, Min, EndsAligned, FreeAreaFollows;
    LeadingAreaSound(b, sectorNum, alignment);
    used, pnum := IsAllocatedSectors(b, sectorNum, alignment);
    if !used { return; }
    var numUsed, numChecked := pnum, pnum;
    NoneIsFree(b, pnum);
    while numChecked < |b|
      invariant LeadingArea(b, sectorNum, alignment).1 <= numUsed <= numChecked <= |b|
      invariant AllZero(b[numUsed..numChecked]) && EndsAligned(b, numUsed, sectorNum, alignment)
      invariant var rest := TakenAlong(b[numChecked..], min, sectorNum + numChecked, alignment);
        pnum + TakenAlong(b[pnum..], min, sectorNum + pnum, alignment) ==
        if numUsed == numChecked || rest > 0 then numChecked + rest else numUsed
      decreases |b| - numChecked
    {
      TakenStep(b, numChecked, min, sectorNum, alignment);
      var u, p := IsAllocatedSectors(b[numChecked..], sectorNum + numChecked, alignment);
      ghost var from := numChecked;
      numChecked := numChecked + p;
      if u {
        numUsed := numChecked;
        NoneIsFree(b, numUsed);
      } else {
        FreeExtends(b, numUsed, from, numChecked);
        if p >= min {
          FreeAreaIs(b, numUsed, numChecked, min);
          break;
        }
      }
    }
    pnum := numUsed;
    if numUsed < |b| && numChecked == |b| {
      FreeAreaIs(b, numUsed, numChecked, min);
    }
  }

  lemma NoneIsFree(b: seq<Sector>, k: nat)
    requires k <= |b|
    ensures AllZero(b[k..k])
  {
  }

  lemma FreeAreaIs(b: seq<Sector>, pnum: nat, e: nat, min: nat)
    requires pnum <= e <= |b| && AllZero(b[pnum..e]) && (e == |b| || e >= pnum + min)
    ensures FreeAreaFollows(b, pnum, min)
  {
  }

  lemma FreeExtends(b: seq<Sector>, lo: nat, mid: nat, hi: nat)
    requires lo <= mid <= hi <= |b| && AllZero(b[lo..mid]) && AllZero(b[mid..][..hi - mid])
    ensures AllZero(b[lo..hi])
  {
    assert b[lo..hi] == b[lo..mid] + b[mid..][..hi - mid];
  }

  /** What stops the used area: zeroes up to the end of the buffer, or at least `min` of them. */
  predicate FreeAreaFollows(b: seq<Sector>, pnum: nat, min: nat)
    requires pnum <= |b|
  {
    exists e :: pnum <= e <= |b| && AllZero(b[pnum..e]) && (e == |b| || e >= pnum + min)
  }
}
