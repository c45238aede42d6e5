/**
 The sequential parts of `qemu-img convert` in qemu-img.c: which source a sector
 comes from, how far the next request goes and what kind it is, reading it, and
 writing one chunk of it.
 */
module Convert {
  import opened Common
  import opened Images
  import opened Sparse

  const REQUEST_MAX_SECTORS: int := 0x7fffffff / SECTOR

  datatype Kind = DataKind | ZeroKind

  /** Reply of bdrv_block_status_above for one source; `n` counts sectors. */
  datatype Reply = Failed | Reply(zero: bool, n: nat)

  /**
   The settings of a conversion to a target without a backing file.  `parts` are
   the sources; `status(p, off, n)` answers for source p.  No query is made twice, so
   that a function gives every answer that there can be.
   */
  datatype Config = Config(parts: seq<seq<Sector>>, status: (nat, nat, nat) -> Reply, srcAlignment: seq<nat>,
                           bufSectors: nat, compressed: bool, clusterSectors: nat,
                           minSparse: nat, alignment: nat, zeroInit: bool, inOrder: bool)

  function Flat(parts: seq<seq<Sector>>): (all: seq<Sector>)
    ensures |parts| > 0 ==> |all| >= |parts[0]|
  {
    if parts == [] then [] else parts[0] + Flat(parts[1..])
  }

  /** The sectors before source k. */
  function Before(parts: seq<seq<Sector>>, k: nat): nat
    requires k <= |parts|
  {
    if k == 0 then 0 else Before(parts, k - 1) + |parts[k - 1]|
  }

  lemma {:induction false} FlatSlice(parts: seq<seq<Sector>>, k: nat)
    requires k < |parts|
    ensures Before(parts, k) + |parts[k]| <= |Flat(parts)|
    ensures Flat(parts)[Before(parts, k)..Before(parts, k) + |parts[k]|] == parts[k]
  {
    if k > 0 {
      BeforeTail(parts, k);
      FlatSlice(parts[1..], k - 1);
      var b := Before(parts[1..], k - 1);
      assert Flat(parts)[|parts[0]| + b..|parts[0]| + b + |parts[k]|] == Flat(parts[1..])[b..b + |parts[k]|];
    }
  }

  lemma {:induction false} BeforeTail(parts: seq<seq<Sector>>, k: nat)
    requires 0 < k <= |parts|
    ensures Before(parts, k) == |parts[0]| + Before(parts[1..], k - 1)
  {
    if k > 1 { BeforeTail(parts, k - 1); }
  }

  lemma {:induction false} BeforeEnd(parts: seq<seq<Sector>>)
    ensures Before(parts, |parts|) == |Flat(parts)|
  {
    if parts != [] {
      BeforeTail(parts, |parts|);
      BeforeEnd(parts[1..]);
    }
  }

  /** Sources are consulted truthfully, in whole sectors, and every answer makes progress. */
  ghost predicate Valid(c: Config) {
    && c.bufSectors > 0 && c.alignment > 0 && |c.srcAlignment| == |c.parts|
    && (forall k :: 0 <= k < |c.srcAlignment| ==> c.srcAlignment[k] > 0)
    && (c.compressed ==> 0 < c.clusterSectors == c.bufSectors)
    && (forall p: nat, off: nat, n: nat :: p < |c.parts| && off < |c.parts[p]| && n > 0 ==> TrueReply(c, p, off, n))
  }

  predicate TrueReply(c: Config, p: nat, off: nat, n: nat)
    requires p < |c.parts| && off < |c.parts[p]|
  {
    match c.status(p, off, n)
    case Failed => true
    case Reply(zero, k) =>
      0 < k <= n && off + k <= |c.parts[p]| && (zero ==> AllZero(c.parts[p][off..off + k]))
  }

  lemma {:induction false} BeforeGrows(parts: seq<seq<Sector>>, a: nat, b: nat)
    requires a <= b <= |parts|
    ensures Before(parts, a) <= Before(parts, b)
  {
    if a < b { BeforeGrows(parts, a, b - 1); }
  }

  /** Sector sectorNum is one of source k. */
  predicate Holds(parts: seq<seq<Sector>>, k: nat, sectorNum: nat) {
    k < |parts| && Before(parts, k) <= sectorNum < Before(parts, k) + |parts[k]|
  }

  /** The source that holds a sector. */
  function PartOf(parts: seq<seq<Sector>>, sectorNum: nat): (k: nat)
    requires sectorNum < |Flat(parts)|
    ensures Holds(parts, k, sectorNum)
  {
    if sectorNum < |parts[0]| then 0
    else
      var k := PartOf(parts[1..], sectorNum - |parts[0]|);
      BeforeTail(parts, k + 1);
      k + 1
  }

  lemma PartUnique(parts: seq<seq<Sector>>, sectorNum: nat, j: nat, k: nat)
    requires Holds(parts, j, sectorNum) && Holds(parts, k, sectorNum)
    ensures j == k
  {
    if j < k {
      BeforeGrows(parts, j + 1, k);
    } else if k < j {
      BeforeGrows(parts, k + 1, j);
    }
  }

  /** convert_select_part: the source that holds a sector and where that source begins. */
  method SelectPart(parts: seq<seq<Sector>>, sectorNum: nat) returns (cur: nat, curOffset: nat)
    requires sectorNum < |Flat(parts)|
    ensures Holds(parts, cur, sectorNum) && curOffset == Before(parts, cur) && cur == PartOf(parts, sectorNum)
  {
    cur, curOffset := 0, 0;
    BeforeEnd(parts);
    while cur < |parts| && sectorNum - curOffset >= |parts[cur]|
      invariant cur <= |parts| && curOffset == Before(parts, cur) <= sectorNum
    {
      curOffset := curOffset + |parts[cur]|;
      cur := cur + 1;
    }
    PartUnique(parts, sectorNum, cur, PartOf(parts, sectorNum));
  }

  /** The fields of ImgConvertState that convert_iteration_sectors keeps between calls. */
  datatype Cache = Cache(kind: Kind, nextStatus: nat)

  /** What the cache promises about the sectors from sectorNum on. */
  predicate CacheOk(c: Config, cache: Cache, sectorNum: nat) {
    cache.kind == ZeroKind && sectorNum < cache.nextStatus ==>
      cache.nextStatus <= |Flat(c.parts)| && AllZero(Flat(c.parts)[sectorNum..cache.nextStatus])
  }

  /** What a request for the sectors from sectorNum on may be. */
  predicate RequestOk(c: Config, sectorNum: nat, n: nat, kind: Kind) {
    && 0 < n && sectorNum + n <= |Flat(c.parts)|
    && (kind == DataKind ==> n <= c.bufSectors)
    && (kind == ZeroKind ==> AllZero(Flat(c.parts)[sectorNum..sectorNum + n]))
  }

  /** The status query of convert_iteration_sectors, if it does not fail. */
  ghost function NextStatus(c: Config, sectorNum: nat, limit: nat): (r: Option<Cache>)
    requires Valid(c) && sectorNum < |Flat(c.parts)| && limit > 0
    ensures r.Some? ==> sectorNum < r.value.nextStatus
  {
    var p := PartOf(c.parts, sectorNum);
    var off := sectorNum - Before(c.parts, p);
    assert TrueReply(c, p, off, limit);
    match c.status(p, off, limit)
    case Failed => None
    case Reply(zero, k) =>
      var tail := (off + k) % c.srcAlignment[p];
      Some(Cache(if zero then ZeroKind else DataKind, sectorNum + if k > tail then k - tail else k))
  }

  /** How far a request goes that the status would allow to reach `limit` sectors; the kind may become data. */
  function Shortened(c: Config, cache: Cache, sectorNum: nat, limit: nat): (r: (nat, Cache))
    requires c.bufSectors > 0 && (c.compressed ==> c.clusterSectors > 0)
    requires sectorNum < cache.nextStatus && 0 < limit <= |Flat(c.parts)| - sectorNum
    ensures 0 < r.0 <= |Flat(c.parts)| - sectorNum
  {
    var n0 := Min(limit, cache.nextStatus - sectorNum);
    var n := if cache.kind == DataKind then Min(n0, c.bufSectors) else n0;
    if !c.compressed then (n, cache)
    else if n < c.clusterSectors then
      (Min(c.clusterSectors, |Flat(c.parts)| - sectorNum), cache.(kind := DataKind))
    else
      WholeClusters(n, c.clusterSectors);
      (AlignDown(n, c.clusterSectors), cache)
  }

  /** convert_iteration_sectors: the length of the next request and the new cache, if the status query does not fail. */
  ghost function NextRequest(c: Config, cache: Cache, sectorNum: nat): (r: Option<(nat, Cache)>)
    requires Valid(c) && sectorNum < |Flat(c.parts)|
    ensures r.Some? ==> 0 < r.value.0 <= |Flat(c.parts)| - sectorNum
  {
    var limit := Min(|Flat(c.parts)| - sectorNum, REQUEST_MAX_SECTORS);
    if sectorNum < cache.nextStatus then Some(Shortened(c, cache, sectorNum, limit))
    else
      var known := NextStatus(c, sectorNum, limit);
      if known.None? then None else Some(Shortened(c, known.value, sectorNum, limit))
  }

  /** What convert_co_write wants to see at the target for a request. */
  function Wanted(kind: Kind, buf: seq<Sector>, n: nat): (w: seq<Sector>)
    requires kind == DataKind ==> n <= |buf|
    ensures |w| == n
  {
    if kind == DataKind then buf[..n] else ZeroFill(n)
  }

  /** One round of convert_co_write: n sectors are written, or skipped because the target is zero anyway. */
  predicate ChunkEffect(c: Config, t: seq<Sector>, t': seq<Sector>, sectorNum: nat, kind: Kind,
                        buf: seq<Sector>, n: nat)
    requires kind == DataKind ==> n <= |buf|
  {
    && sectorNum + n <= |t| && |t'| == |t|
    && t'[..sectorNum] == t[..sectorNum] && t'[sectorNum + n..] == t[sectorNum + n..]
    && (t'[sectorNum..sectorNum + n] == Wanted(kind, buf, n)
        || (c.zeroInit && AllZero(Wanted(kind, buf, n)) && t' == t))
  }

  lemma CacheLater(c: Config, cache: Cache, sectorNum: nat, later: nat)
    requires CacheOk(c, cache, sectorNum) && sectorNum <= later
    ensures CacheOk(c, cache, later)
  {
    if cache.kind == ZeroKind && later < cache.nextStatus {
      var all := Flat(c.parts);
      assert all[later..cache.nextStatus] == all[sectorNum..cache.nextStatus][later - sectorNum..];
    }
  }

  lemma CachePrefix(c: Config, cache: Cache, sectorNum: nat, n: nat)
    requires CacheOk(c, cache, sectorNum) && cache.kind == ZeroKind && 0 < n && sectorNum + n <= cache.nextStatus
    ensures sectorNum + n <= |Flat(c.parts)| && AllZero(Flat(c.parts)[sectorNum..sectorNum + n])
  {
    var all := Flat(c.parts);
    assert all[sectorNum..sectorNum + n] == all[sectorNum..cache.nextStatus][..n];
  }

  function Overwrite(t: seq<Sector>, at: nat, b: seq<Sector>): seq<Sector>
    requires at + |b| <= |t|
  {
    t[..at] + b + t[at + |b|..]
  }

  /** Overwriting a range is what ChunkEffect asks for. */
  lemma OverwriteEffect(c: Config, t: seq<Sector>, sectorNum: nat, kind: Kind, buf: seq<Sector>, n: nat)
    requires kind == DataKind ==> n <= |buf|
    requires sectorNum + n <= |t|
    ensures ChunkEffect(c, t, Overwrite(t, sectorNum, Wanted(kind, buf, n)), sectorNum, kind, buf, n)
  {
    var b := Wanted(kind, buf, n);
    var t' := Overwrite(t, sectorNum, b);
    assert t'[sectorNum..sectorNum + n] == b;
  }

  /** Where the target is zero from the start, zeros need not be written. */
  lemma SkipEffect(c: Config, t: seq<Sector>, sectorNum: nat, kind: Kind, buf: seq<Sector>, n: nat)
    requires kind == DataKind ==> n <= |buf|
    requires sectorNum + n <= |t| && c.zeroInit && AllZero(Wanted(kind, buf, n))
    ensures ChunkEffect(c, t, t, sectorNum, kind, buf, n)
  {
  }

  lemma ZeroInPart(c: Config, p: nat, off: nat, k: nat)
    requires p < |c.parts| && off + k <= |c.parts[p]| && AllZero(c.parts[p][off..off + k])
    ensures var a := Before(c.parts, p) + off; a + k <= |Flat(c.parts)| && AllZero(Flat(c.parts)[a..a + k])
  {
    FlatSlice(c.parts, p);
    var b := Before(c.parts, p);
    SliceOfSlice(Flat(c.parts), b, b + |c.parts[p]|, off, off + k);
  }

  lemma SliceOfSlice(s: seq<Sector>, a: nat, b: nat, c: nat, d: nat)
    requires a <= b <= |s| && c <= d <= b - a
    ensures s[a..b][c..d] == s[a + c..a + d]
  {
    var x, y := s[a..b][c..d], s[a + c..a + d];
    forall i | 0 <= i < d - c ensures x[i] == y[i] { assert x[i] == s[a..b][c + i]; }
  }

  /** What a source holds from `at` on comes next in the concatenation. */
  lemma NextSlice(parts: seq<seq<Sector>>, from: nat, at: nat, p: nat, n: nat)
    requires p < |parts| && from <= at && Before(parts, p) <= at && at - Before(parts, p) + n <= |parts[p]|
    ensures at + n <= |Flat(parts)|
    ensures var off := at - Before(parts, p);
      Flat(parts)[from..at + n] == Flat(parts)[from..at] + parts[p][off..off + n]
  {
    hide Flat, Before;
    FlatSlice(parts, p);
    var b := Before(parts, p);
    SliceOfSlice(Flat(parts), b, b + |parts[p]|, at - b, at - b + n);
    SplitSlice(Flat(parts), from, at, at + n);
  }

  lemma SplitSlice(s: seq<Sector>, a: nat, b: nat, c: nat)
    requires a <= b <= c <= |s|
    ensures s[a..c] == s[a..b] + s[b..c]
  {
  }

  /** The request begins with data that has to be written. */
  predicate HoldsData(c: Config, sectorNum: nat, kind: Kind, buf: seq<Sector>)
    requires c.alignment > 0
  {
    kind == DataKind &&
      (c.minSparse == 0 || if c.compressed then !AllZero(buf) else LeadingArea(buf, sectorNum, c.alignment).0)
  }

  /** How much of a request one round deals with: only the scan for zeroes cuts it short. */
  predicate RoundLength(c: Config, sectorNum: nat, kind: Kind, buf: seq<Sector>, nb: nat, n: nat)
    requires c.alignment > 0 && (kind == DataKind ==> |buf| == nb)
  {
    if kind == DataKind && c.minSparse > 0 && !c.compressed then
      var (used, first) := LeadingArea(buf, sectorNum, c.alignment);
      && first <= nb
      && n == first + if used then TakenAlong(buf[first..], Min(nb, c.minSparse), sectorNum + first, c.alignment) else 0
    else n == nb
  }

  /** `failed` records that a read or a write has failed. */
  class ConvertState {
    const c: Config
    var cache: Cache
    var target: seq<Sector>
    ghost var failed: bool

    constructor (c: Config, cache: Cache, target: seq<Sector>)
      ensures this.c == c && this.cache == cache && this.target == target && !failed
    {
      this.c, this.cache, this.target := c, cache, target;
      failed := false;
    }

    /** The new status query of convert_iteration_sectors; on success the cache covers sectorNum. */
    method Query(sectorNum: nat, limit: nat) returns (ok: bool)
      requires Valid(c) && sectorNum < |Flat(c.parts)| && limit > 0
      modifies this`cache
      ensures ok <==> NextStatus(c, sectorNum, limit).Some?
      ensures if ok then Some(cache) == NextStatus(c, sectorNum, limit) else cache == old(cache)
      ensures ok ==> CacheOk(c, cache, sectorNum) && sectorNum < cache.nextStatus <= |Flat(c.parts)|
    {
      var cur, curOffset := SelectPart(c.parts, sectorNum);
      var off := sectorNum - curOffset;
      assert TrueReply(c, cur, off, limit);
      var reply := c.status(cur, off, limit);
      if reply.Failed? { return false; }
      var n := reply.n;
      var tail := (off + n) % c.srcAlignment[cur];
      if n > tail { n := n - tail; }
      cache := Cache(if reply.zero then ZeroKind else DataKind, sectorNum + n);
      NextStatusOk(c, sectorNum, limit);
      ok := true;
    }

    /** convert_iteration_sectors: the length and the kind of the next request. */
    method IterationSectors(sectorNum: nat) returns (ok: bool, n: nat)
      requires Valid(c) && sectorNum < |Flat(c.parts)|
      modifies this`cache
      ensures ok <==> NextRequest(c, old(cache), sectorNum).Some?
      ensures if ok then Some((n, cache)) == NextRequest(c, old(cache), sectorNum) else cache == old(cache)
      ensures ok && CacheOk(c, old(cache), sectorNum) ==>
        && RequestOk(c, sectorNum, n, cache.kind) && CacheOk(c, cache, sectorNum)
        && (c.compressed ==> AlignDown(n, c.clusterSectors) == n || sectorNum + n == |Flat(c.parts)|)
    {
      hide AlignDown, RequestOk, CacheOk, NextStatus, Shortened;
      n := Min(|Flat(c.parts)| - sectorNum, REQUEST_MAX_SECTORS);
      if cache.nextStatus <= sectorNum {
        ok := Query(sectorNum, n);
        if !ok { return; }
      }
      n := Shorten(sectorNum, n);
      if CacheOk(c, old(cache), sectorNum) { NextRequestOk(c, old(cache), sectorNum); }
      ok := true;
    }

    /** The end of convert_iteration_sectors, where the status is known. */
    method Shorten(sectorNum: nat, limit: nat) returns (n: nat)
      requires c.bufSectors > 0 && (c.compressed ==> c.clusterSectors > 0)
      requires sectorNum < cache.nextStatus && 0 < limit <= |Flat(c.parts)| - sectorNum
      modifies this`cache
      ensures (n, cache) == Shortened(c, old(cache), sectorNum, limit)
    {
      hide AlignDown;
      n := Min(limit, cache.nextStatus - sectorNum);
      if cache.kind == DataKind { n := Min(n, c.bufSectors); }
      if c.compressed {
        if n < c.clusterSectors {
          n := Min(c.clusterSectors, |Flat(c.parts)| - sectorNum);
          cache := cache.(kind := DataKind);
        } else {
          n := AlignDown(n, c.clusterSectors);
        }
      }
    }

    /** blk_co_pwrite and blk_co_pwrite_zeroes */
    method Pwrite(sectorNum: nat, b: seq<Sector>) returns (ok: bool)
      requires sectorNum + |b| <= |target|
      modifies this`target, this`failed
      ensures ok ==> target == Overwrite(old(target), sectorNum, b)
      ensures failed == (old(failed) || !ok)
    {
      target := target[..sectorNum] + b + target[sectorNum + |b|..];
      ok := true;
    }

    /** The condition of convert_co_write: whether there is data to be written, and how far to go. */
    method Scan(sectorNum: nat, nb: nat, buf: seq<Sector>, kind: Kind) returns (used: bool, n: nat)
      requires c.alignment > 0 && 0 < nb && (kind == DataKind ==> |buf| == nb)
      ensures 0 < n <= nb && RoundLength(c, sectorNum, kind, buf, nb, n) && used == HoldsData(c, sectorNum, kind, buf)
      ensures if used then kind == DataKind else kind == DataKind ==> AllZero(buf[..n])
    {
      hide LeadingArea, TakenAlong, AllZero;
      n, used := nb, kind == DataKind;
      if kind == DataKind && c.minSparse > 0 {
        if c.compressed {
          assert buf[..nb] == buf;
          used := !AllZero(buf[..nb]);
        } else {
          used, n := IsAllocatedSectorsMin(buf, c.minSparse, sectorNum, c.alignment);
        }
      }
    }

    /** One round of convert_co_write. */
    method WriteChunk(sectorNum: nat, nb: nat, buf: seq<Sector>, kind: Kind) returns (ok: bool, n: nat)
      requires c.alignment > 0 && 0 < nb && sectorNum + nb <= |target| && (kind == DataKind ==> |buf| == nb)
      modifies this`target, this`failed
      ensures 0 < n <= nb && RoundLength(c, sectorNum, kind, buf, nb, n)
      ensures failed == (old(failed) || !ok)
      ensures ok ==> ChunkEffect(c, old(target), target, sectorNum, kind, buf, n)
      ensures ok ==>
        target == if !HoldsData(c, sectorNum, kind, buf) && c.zeroInit then old(target)
                  else Overwrite(old(target), sectorNum, Wanted(kind, buf, n))
    {
      hide ChunkEffect, RoundLength, HoldsData, Overwrite, AllZero;
      var used;
      used, n := Scan(sectorNum, nb, buf, kind);
      OverwriteEffect(c, target, sectorNum, kind, buf, n);
      if used {
        ok := Pwrite(sectorNum, buf[..n]);
        return;
      }
      AllZeroEqual(ZeroFill(n), Wanted(kind, buf, n));
      if c.zeroInit {
        SkipEffect(c, target, sectorNum, kind, buf, n);
        return true, n;
      }
      ok := Pwrite(sectorNum, ZeroFill(n));
    }

    /** blk_co_pread of one source; it may fail. */
    method ReadPart(part: seq<Sector>, off: nat, n: nat) returns (ok: bool, b: seq<Sector>)
      requires off + n <= |part|
      modifies this`failed
      ensures ok ==> b == part[off..off + n]
      ensures failed == (old(failed) || !ok)
    {
      ok, b := true, part[off..off + n];
    }

    /** convert_co_read: a request may reach over the end of one source into the next. */
    method CoRead(sectorNum: nat, nb: nat) returns (ok: bool, buf: seq<Sector>)
      requires sectorNum + nb <= |Flat(c.parts)|
      modifies this`failed
      ensures ok ==> buf == Flat(c.parts)[sectorNum..sectorNum + nb]
      ensures failed == (old(failed) || !ok)
    {
      buf := [];
      var at := sectorNum;
      while at < sectorNum + nb
        invariant sectorNum <= at <= sectorNum + nb && failed == old(failed)
        invariant buf == Flat(c.parts)[sectorNum..at]
      {
        var cur, curOffset := SelectPart(c.parts, at);
        var n := Min(sectorNum + nb - at, |c.parts[cur]| - (at - curOffset));
        var b;
        ok, b := ReadPart(c.parts[cur], at - curOffset, n);
        if !ok { return; }
        NextSlice(c.parts, sectorNum, at, cur, n);
        buf := buf + b;
        at := at + n;
      }
      ok := true;
    }
  }

  lemma WholeClusters(n: nat, m: nat)
    requires m > 0
    ensures AlignDown(m, m) == m && AlignDown(n, m) <= n
    ensures n >= m ==> m <= AlignDown(n, m) && AlignDown(AlignDown(n, m), m) == AlignDown(n, m)
  {
    AlignDownUnique(m, m, 1);
    AlignDownBounds(n, m);
    AlignDownUnique(AlignDown(n, m), m, n / m);
    if n >= m { AlignDownPositive(n, m); }
  }

  /** What a status query learns is true. */
  lemma NextStatusOk(c: Config, sectorNum: nat, limit: nat)
    requires Valid(c) && sectorNum < |Flat(c.parts)| && limit > 0 && NextStatus(c, sectorNum, limit).Some?
    ensures var k := NextStatus(c, sectorNum, limit).value;
      CacheOk(c, k, sectorNum) && k.nextStatus <= |Flat(c.parts)|
  {
    var k := NextStatus(c, sectorNum, limit).value;
    var p := PartOf(c.parts, sectorNum);
    var off := sectorNum - Before(c.parts, p);
    assert TrueReply(c, p, off, limit);
    FlatSlice(c.parts, p);
    if k.kind == ZeroKind {
      var n, m := k.nextStatus - sectorNum, c.status(p, off, limit).n;
      assert c.parts[p][off..off + n] == c.parts[p][off..off + m][..n];
      ZeroInPart(c, p, off, n);
    }
  }

  lemma CutToAlignment(off: nat, k: nat, a: nat)
    requires a > 0
    ensures var tail := (off + k) % a;
      off + (if k > tail then k - tail else k) == if AlignDown(off + k, a) > off then AlignDown(off + k, a) else off + k
  {
    assert off + k == (off + k) / a * a + (off + k) % a;
  }

  /**
   What a status query learns: it fails exactly if the source's answer does, the kind is
   zero exactly if the answer says so, and the status is known up to the end of the
   answer, cut to the alignment of the source if anything is left then.
   */
  lemma QueryLearns(c: Config, sectorNum: nat, limit: nat, p: nat)
    requires Valid(c) && sectorNum < |Flat(c.parts)| && limit > 0 && Holds(c.parts, p, sectorNum)
    ensures var reply := c.status(p, sectorNum - Before(c.parts, p), limit);
      NextStatus(c, sectorNum, limit).None? <==> reply.Failed?
    ensures var off := sectorNum - Before(c.parts, p);
      var reply := c.status(p, off, limit);
      reply.Reply? ==>
        var end := off + reply.n;
        var cut := AlignDown(end, c.srcAlignment[p]);
        var k := NextStatus(c, sectorNum, limit).value;
        && (k.kind == ZeroKind <==> reply.zero)
        && k.nextStatus == Before(c.parts, p) + if cut > off then cut else end
  {
    PartUnique(c.parts, sectorNum, p, PartOf(c.parts, sectorNum));
    var off := sectorNum - Before(c.parts, p);
    var reply := c.status(p, off, limit);
    if reply.Reply? { CutToAlignment(off, reply.n, c.srcAlignment[p]); }
  }

  /** m sectors is the longest request that the known status, the sources and the buffer allow. */
  predicate Longest(c: Config, known: Cache, sectorNum: nat, m: nat) {
    && 0 < m <= |Flat(c.parts)| - sectorNum && m <= REQUEST_MAX_SECTORS && m <= known.nextStatus - sectorNum
    && (known.kind == DataKind ==> m <= c.bufSectors)
    && (|| m == |Flat(c.parts)| - sectorNum || m == REQUEST_MAX_SECTORS || m == known.nextStatus - sectorNum
        || (known.kind == DataKind && m == c.bufSectors))
  }

  /**
   How long the next request is.  It is the longest one; for a compressed target it is
   the longest one of whole clusters, or, if that is none, one cluster or what is left
   of the sources, as data.
   */
  lemma RequestExact(c: Config, cache: Cache, sectorNum: nat) returns (m: nat)
    requires Valid(c) && sectorNum < |Flat(c.parts)| && NextRequest(c, cache, sectorNum).Some?
    ensures var limit := Min(|Flat(c.parts)| - sectorNum, REQUEST_MAX_SECTORS);
      cache.nextStatus <= sectorNum ==> NextStatus(c, sectorNum, limit).Some?
    ensures var limit := Min(|Flat(c.parts)| - sectorNum, REQUEST_MAX_SECTORS);
      var known := if sectorNum < cache.nextStatus then cache else NextStatus(c, sectorNum, limit).value;
      var (n, k) := NextRequest(c, cache, sectorNum).value;
      && Longest(c, known, sectorNum, m) && k.nextStatus == known.nextStatus
      && (!c.compressed ==> n == m && k.kind == known.kind)
      && (c.compressed && m < c.clusterSectors ==>
            k.kind == DataKind && (n == c.clusterSectors || n == |Flat(c.parts)| - sectorNum < c.clusterSectors))
      && (c.compressed && m >= c.clusterSectors ==>
            k.kind == known.kind && AlignDown(n, c.clusterSectors) == n <= m < n + c.clusterSectors)
  {
    var limit := Min(|Flat(c.parts)| - sectorNum, REQUEST_MAX_SECTORS);
    var known := if sectorNum < cache.nextStatus then cache else NextStatus(c, sectorNum, limit).value;
    var n0 := Min(limit, known.nextStatus - sectorNum);
    m := if known.kind == DataKind then Min(n0, c.bufSectors) else n0;
    if c.compressed {
      WholeClusters(m, c.clusterSectors);
      AlignDownBounds(m, c.clusterSectors);
    }
    hide AlignDown, NextStatus;
  }

  /** The request fails exactly if the status is not known and cannot be learnt. */
  lemma RequestFailsIff(c: Config, cache: Cache, sectorNum: nat)
    requires Valid(c) && sectorNum < |Flat(c.parts)|
    ensures var limit := Min(|Flat(c.parts)| - sectorNum, REQUEST_MAX_SECTORS);
      NextRequest(c, cache, sectorNum).None? <==>
      cache.nextStatus <= sectorNum && NextStatus(c, sectorNum, limit).None?
  {
    hide NextStatus, Shortened;
  }

  /**
   A request is not empty, fits the sources and the buffer, is of kind zero only if its
   sectors are zero, and for a compressed target is made of whole clusters or reaches
   the end.
   */
  lemma NextRequestOk(c: Config, cache: Cache, sectorNum: nat)
    requires Valid(c) && sectorNum < |Flat(c.parts)| && CacheOk(c, cache, sectorNum)
    requires NextRequest(c, cache, sectorNum).Some?
    ensures var (n, k) := NextRequest(c, cache, sectorNum).value;
      && RequestOk(c, sectorNum, n, k.kind) && CacheOk(c, k, sectorNum)
      && (c.compressed ==> AlignDown(n, c.clusterSectors) == n || sectorNum + n == |Flat(c.parts)|)
  {
    var limit := Min(|Flat(c.parts)| - sectorNum, REQUEST_MAX_SECTORS);
    if sectorNum < cache.nextStatus {
      ShortenedOk(c, cache, sectorNum, limit);
    } else {
      NextStatusOk(c, sectorNum, limit);
      ShortenedOk(c, NextStatus(c, sectorNum, limit).value, sectorNum, limit);
    }
  }

  lemma ShortenedOk(c: Config, cache: Cache, sectorNum: nat, limit: nat)
    requires Valid(c) && CacheOk(c, cache, sectorNum)
    requires sectorNum < cache.nextStatus && 0 < limit <= |Flat(c.parts)| - sectorNum
    ensures var (n, k) := Shortened(c, cache, sectorNum, limit);
      && RequestOk(c, sectorNum, n, k.kind) && CacheOk(c, k, sectorNum)
      && (c.compressed ==> AlignDown(n, c.clusterSectors) == n || sectorNum + n == |Flat(c.parts)|)
  {
    hide AlignDown;
    var n0 := Min(limit, cache.nextStatus - sectorNum);
    var n1 := if cache.kind == DataKind then Min(n0, c.bufSectors) else n0;
    if c.compressed { WholeClusters(n1, c.clusterSectors); }
    var (n, k) := Shortened(c, cache, sectorNum, limit);
    if k.kind == ZeroKind { CachePrefix(c, cache, sectorNum, n); }
  }

  lemma AlignDownPositive(n: nat, m: nat)
    requires 0 < m <= n
    ensures AlignDown(n, m) >= m
  {
    AlignDownBounds(n, m);
    if n / m > 0 { MulStep(0, n / m, m); }
  }
}
