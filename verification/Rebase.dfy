/**
 The copy loop of safe `img_rebase` in qemu-img.c: an overlay whose backing file
 is about to be replaced gets its own copy of every cluster in which the old and
 the new backing file differ.
 */
module Rebase {
  import opened Common
  import opened Images
  import opened Buffers

  /** The byte at i of an overlay read through backing file b. */
  function Visible(has: seq<bool>, data: seq<Byte>, b: seq<Byte>, i: nat): Byte
    requires i < |has| == |data|
  {
    if has[i] then data[i] else At(b, i)
  }

  function View(has: seq<bool>, data: seq<Byte>, b: seq<Byte>): (v: seq<Byte>)
    requires |has| == |data|
    ensures |v| == |data|
  {
    seq(|data|, i requires 0 <= i < |data| => Visible(has, data, b, i))
  }

  /** Allocation is per block of `align` bytes. */
  predicate Uniform(has: seq<bool>, align: nat)
    requires align > 0
  {
    forall i, j :: 0 <= i < |has| && 0 <= j < |has| && AlignDown(i, align) == AlignDown(j, align) ==> has[i] == has[j]
  }

  predicate Touched(i: nat, lo: nat, hi: nat) {
    lo <= i < hi
  }

  /** Byte i after a write: a block that is touched is allocated, and what is not written is copied up. */
  predicate WrittenAt(has: seq<bool>, data: seq<Byte>, has': seq<bool>, data': seq<Byte>,
                      b: seq<Byte>, align: nat, off: nat, buf: seq<Byte>, i: nat)
    requires align > 0 && i < |has| == |data| == |has'| == |data'|
  {
    var touched := Touched(i, AlignDown(off, align), AlignUp(off + |buf|, align));
    && has'[i] == (has[i] || touched)
    && data'[i] == if off <= i < off + |buf| then buf[i - off]
                   else if touched then Visible(has, data, b, i) else data[i]
  }

  /** A write allocates every block it touches and copies the rest of each new block from the backing file. */
  predicate WriteEffect(has: seq<bool>, data: seq<Byte>, has': seq<bool>, data': seq<Byte>,
                        b: seq<Byte>, align: nat, off: nat, buf: seq<Byte>)
    requires align > 0 && |has| == |data| == |has'| == |data'|
  {
    forall i :: 0 <= i < |has| ==> WrittenAt(has, data, has', data', b, align, off, buf, i)
  }

  /** A write that fails may have reached any of its bytes. */
  predicate PartialEffect(has: seq<bool>, data: seq<Byte>, has': seq<bool>, data': seq<Byte>,
                          b: seq<Byte>, align: nat, off: nat, buf: seq<Byte>)
    requires align > 0 && |has| == |data| == |has'| == |data'|
  {
    forall i :: 0 <= i < |has| ==>
      WrittenAt(has, data, has', data', b, align, off, buf, i) || (has'[i] == has[i] && data'[i] == data[i])
  }

  /** A write of what is already visible changes nothing that is visible, whether it succeeds or not. */
  lemma RewriteKeepsView(has: seq<bool>, data: seq<Byte>, has': seq<bool>, data': seq<Byte>,
                         b: seq<Byte>, align: nat, off: nat, buf: seq<Byte>)
    requires align > 0 && |has| == |data| == |has'| == |data'| && off + |buf| <= |data| && buf != []
    requires PartialEffect(has, data, has', data', b, align, off, buf)
    requires forall i :: off <= i < off + |buf| ==> buf[i - off] == Visible(has, data, b, i)
    ensures View(has', data', b) == View(has, data, b) && Grows(has, has')
    ensures WriteEffect(has, data, has', data', b, align, off, buf) ==> forall i :: off <= i < off + |buf| ==> has'[i]
  {
    AlignDownBounds(off, align);
    AlignUpBounds(off + |buf|, align);
    forall i | 0 <= i < |data| ensures Visible(has', data', b, i) == Visible(has, data, b, i) {
    }
    if WriteEffect(has, data, has', data', b, align, off, buf) {
      forall i | off <= i < off + |buf| ensures has'[i] {
        assert WrittenAt(has, data, has', data', b, align, off, buf, i);
      }
    }
  }

  /** The touched region is made of whole blocks. */
  lemma TouchedUniform(i: nat, j: nat, off: nat, n: nat, align: nat)
    requires align > 0 && n > 0 && AlignDown(i, align) == AlignDown(j, align)
    requires Touched(i, AlignDown(off, align), AlignUp(off + n, align))
    ensures Touched(j, AlignDown(off, align), AlignUp(off + n, align))
  {
    AlignDownBounds(i, align);
    AlignDownBounds(j, align);
    var a, c, e := i / align, off / align, (off + n + align - 1) / align;
    assert a >= c by { if a < c { MulStep(a, c, align); } }
    assert c * align <= a * align by { if c < a { MulStep(c, a, align); } }
    assert a < e by { if a > e { MulStep(e, a, align); } }
    MulStep(a, e, align);
  }

  lemma WriteKeepsUniform(has: seq<bool>, data: seq<Byte>, has': seq<bool>, data': seq<Byte>,
                          b: seq<Byte>, align: nat, off: nat, buf: seq<Byte>)
    requires align > 0 && |has| == |data| == |has'| == |data'| && Uniform(has, align) && buf != []
    requires WriteEffect(has, data, has', data', b, align, off, buf)
    ensures Uniform(has', align)
  {
    var lo, hi := AlignDown(off, align), AlignUp(off + |buf|, align);
    forall i, j | 0 <= i < |has| && 0 <= j < |has| && AlignDown(i, align) == AlignDown(j, align)
      ensures has'[i] == has'[j]
    {
      assert WrittenAt(has, data, has', data', b, align, off, buf, i);
      assert WrittenAt(has, data, has', data', b, align, off, buf, j);
      if Touched(i, lo, hi) { TouchedUniform(i, j, off, |buf|, align); }
      if Touched(j, lo, hi) { TouchedUniform(j, i, off, |buf|, align); }
    }
  }

  /** The image that is rebased, on top of its old backing file. */
  class Overlay {
    const size: nat
    const align: nat
    const backing: seq<Byte>
    var has: seq<bool>
    var data: seq<Byte>
    /** The views through the old backing file after each write so far. */
    ghost var views: seq<seq<Byte>>
    /** Whether a request to a device has failed so far. */
    ghost var failed: bool

    ghost predicate Valid()
      reads this
    {
      align > 0 && |has| == |data| == size && Uniform(has, align)
    }

    constructor (align: nat, backing: seq<Byte>, has: seq<bool>, data: seq<Byte>)
      requires align > 0 && |has| == |data| && Uniform(has, align)
      ensures Valid() && this.align == align && this.backing == backing && this.has == has && this.data == data
      ensures this.size == |data| && views == [] && !failed
    {
      this.size := |data|;
      this.align, this.backing, this.has, this.data, views, failed := align, backing, has, data, [], false;
    }

    /** bdrv_is_allocated: the state of the byte at off, and for how many bytes it holds. */
    method IsAllocated(off: nat, n: nat) returns (ok: bool, state: bool, pnum: nat)
      requires Valid() && n > 0 && off + n <= size
      modifies this`failed
      ensures failed == (old(failed) || !ok)
      ensures ok ==> 0 < pnum <= n && forall i :: off <= i < off + pnum ==> has[i] == state
    {
      ok, state, pnum := true, has[off], 1;
    }

    /** blk_pread of a backing file, zero-filled behind its end; it may fail. */
    method ReadBacking(b: seq<Byte>, off: nat, n: nat) returns (ok: bool, buf: seq<Byte>)
      modifies this`failed
      ensures failed == (old(failed) || !ok)
      ensures ok ==> |buf| == n && forall k :: 0 <= k < n ==> buf[k] == At(b, off + k)
    {
      var avail := Min(n, Max(0, |b| - off));
      var tail: seq<Byte> := seq(n - avail, _ => 0);
      buf := (if avail > 0 then b[off..off + avail] else []) + tail;
      ok := true;
    }

    /**
     bdrv_is_allocated_above between the old backing file and a new one that is
     further down in the same chain: a range that no layer in between holds reads
     the same in both; nothing is known behind the end of the old backing file.
     */
    method IsAllocatedAbove(newb: seq<Byte>, off: nat, n: nat) returns (ok: bool, above: bool, pnum: nat)
      requires n > 0
      modifies this`failed
      ensures failed == (old(failed) || !ok)
      ensures ok ==> pnum <= n && (above ==> pnum > 0)
      ensures ok && !above ==> forall i :: off <= i < off + pnum ==> At(backing, i) == At(newb, i)
    {
      ok, above, pnum := true, true, n;
    }

    /** blk_pwrite or blk_pwrite_zeroes; a write that fails may have been carried out in part. */
    method Pwrite(off: nat, buf: seq<Byte>) returns (ok: bool)
      requires Valid() && buf != [] && off + |buf| <= size
      modifies this
      ensures Valid() && failed == (old(failed) || !ok)
      ensures PartialEffect(old(has), old(data), has, data, backing, align, off, buf)
      ensures ok ==> WriteEffect(old(has), old(data), has, data, backing, align, off, buf)
      ensures views == old(views) + [View(has, data, backing)]
    {
      var lo, hi := AlignDown(off, align), AlignUp(off + |buf|, align);
      var oldHas, oldData := has, data;
      has := seq(size, i requires 0 <= i < |oldHas| => oldHas[i] || Touched(i, lo, hi));
      data := seq(size, i requires 0 <= i < |oldHas| && |oldHas| == |oldData| =>
        if off <= i < off + |buf| then buf[i - off]
        else if Touched(i, lo, hi) then Visible(oldHas, oldData, backing, i) else oldData[i]);
      WriteKeepsUniform(oldHas, oldData, has, data, backing, align, off, buf);
      views := views + [View(has, data, backing)];
      ok := true;
    }
  }

  /** Byte i needs no copy any more: the overlay has it, or both backing files agree on it. */
  predicate Safe(has: seq<bool>, oldb: seq<Byte>, newb: seq<Byte>, i: nat)
    requires i < |has|
  {
    has[i] || At(oldb, i) == At(newb, i)
  }

  predicate Grows(has: seq<bool>, has': seq<bool>) {
    |has| == |has'| && forall i :: 0 <= i < |has| ==> has[i] ==> has'[i]
  }

  predicate AllViews(views: seq<seq<Byte>>, v: seq<Byte>) {
    forall k :: 0 <= k < |views| ==> views[k] == v
  }

  lemma ViewAt(has: seq<bool>, data: seq<Byte>, b: seq<Byte>, v: seq<Byte>, i: nat)
    requires |has| == |data| && View(has, data, b) == v && i < |data|
    ensures v[i] == Visible(has, data, b, i)
  {
    assert View(has, data, b)[i] == Visible(has, data, b, i);
  }

  predicate SafeRange(has: seq<bool>, oldb: seq<Byte>, newb: seq<Byte>, lo: nat, hi: nat)
    requires hi <= |has|
  {
    forall i :: lo <= i < hi ==> Safe(has, oldb, newb, i)
  }

  lemma SafeGrows(has: seq<bool>, has': seq<bool>, oldb: seq<Byte>, newb: seq<Byte>, lo: nat, mid: nat, hi: nat)
    requires Grows(has, has') && mid <= hi <= |has|
    requires SafeRange(has, oldb, newb, lo, mid) && SafeRange(has', oldb, newb, mid, hi)
    ensures SafeRange(has', oldb, newb, lo, hi)
  {
    forall i | lo <= i < hi ensures Safe(has', oldb, newb, i) {
      if i < mid { assert Safe(has, oldb, newb, i); }
    }
  }

  lemma GrowsTwice(a: seq<bool>, b: seq<bool>, c: seq<bool>)
    requires Grows(a, b) && Grows(b, c)
    ensures Grows(a, c)
  {
  }

  /** The bytes that a backing file shows from `off` on. */
  predicate ShownBy(buf: seq<Byte>, b: seq<Byte>, off: nat) {
    forall k :: 0 <= k < |buf| ==> buf[k] == At(b, off + k)
  }

  /** Both backing files read the same from lo to hi. */
  predicate SameRange(oldb: seq<Byte>, newb: seq<Byte>, lo: nat, hi: nat) {
    forall i :: lo <= i < hi ==> At(oldb, i) == At(newb, i)
  }

  /** The backing files differ somewhere in the block of byte i. */
  ghost predicate BlockDiffers(oldb: seq<Byte>, newb: seq<Byte>, align: nat, i: nat)
    requires align > 0
  {
    exists j: nat :: AlignDown(j, align) == AlignDown(i, align) && At(oldb, j) != At(newb, j)
  }

  /** Only blocks in which the backing files differ have been allocated. */
  ghost predicate OnlyNeeded(has: seq<bool>, has': seq<bool>, oldb: seq<Byte>, newb: seq<Byte>, align: nat)
    requires align > 0
  {
    |has| == |has'| && forall i :: 0 <= i < |has| && has'[i] && !has[i] ==> BlockDiffers(oldb, newb, align, i)
  }

  lemma OnlyNeededTwice(a: seq<bool>, b: seq<bool>, c: seq<bool>, oldb: seq<Byte>, newb: seq<Byte>, align: nat)
    requires align > 0
    requires OnlyNeeded(a, b, oldb, newb, align) && OnlyNeeded(b, c, oldb, newb, align)
    ensures OnlyNeeded(a, c, oldb, newb, align)
  {
  }

  lemma {:induction false} StartsAt(starts: seq<nat>, bytes: nat, upto: nat, ch: nat, k: nat)
    requires ChunkStarts(starts, bytes, upto, ch) && k < |starts|
    ensures starts[k] == k * ch
  {
    if k > 0 {
      StartsAt(starts, bytes, upto, ch, k - 1);
      assert starts[k - 1 + 1] == starts[k - 1] + ch;
      assert k * ch == (k - 1) * ch + ch;
    }
  }

  /** The chunks end at a block boundary, or with the buffer. */
  lemma ChunksEndAligned(off: nat, starts: seq<nat>, bytes: nat, upto: nat, align: nat)
    requires align > 0 && AlignDown(off, align) == off && ChunkStarts(starts, bytes, upto, align)
    ensures upto < bytes ==> AlignDown(off + upto, align) == off + upto
    ensures AlignUp(off + upto, align) <= off + |starts| * align
  {
    var m := |starts|;
    StartsAt(starts, bytes, upto, align, m - 1);
    assert (m - 1) * align + align == m * align;
    BlocksLater(off, m, align);
    AlignUpBelow(off + upto, off + m * align, align);
    hide AlignDown, AlignUp;
  }

  lemma BlocksLater(off: nat, m: nat, align: nat)
    requires align > 0 && AlignDown(off, align) == off
    ensures AlignDown(off + m * align, align) == off + m * align
  {
    var q := off / align;
    assert q * align + m * align == (q + m) * align;
    AlignDownUnique(off + m * align, align, q + m);
  }

  lemma AlignUpBelow(x: nat, y: nat, align: nat)
    requires align > 0 && x <= y && AlignDown(y, align) == y
    ensures AlignUp(x, align) <= y
  {
    var a, b := (x + align - 1) / align, y / align;
    AlignDownBounds(x + align - 1, align);
    if a > b { MulStep(b, a, align); }
    if a < b { MulStep(a, b, align); }
  }

  lemma AlignDownTwice(n: nat, m: nat)
    requires m > 0
    ensures AlignDown(AlignDown(n, m), m) == AlignDown(n, m)
  {
    AlignDownUnique(AlignDown(n, m), m, n / m);
  }

  lemma BlockAt(off: nat, k: nat, s: nat, align: nat, y: nat)
    requires align > 0 && AlignDown(off, align) == off && s == k * align && off + s <= y < off + s + align
    ensures AlignDown(y, align) == off + s
  {
    var q := off / align;
    assert q * align + k * align == (q + k) * align;
    AlignDownUnique(y, align, q + k);
  }

  lemma IndexBelow(x: nat, m: nat, align: nat) returns (k: nat)
    requires align > 0 && x < m * align
    ensures k < m && k * align <= x < k * align + align
  {
    AlignDownBounds(x, align);
    k := x / align;
    if k >= m { if k > m { MulStep(m, k, align); } }
  }

  /** The chunk in which byte i of the write lies. */
  lemma ChunkOf(off: nat, starts: seq<nat>, bytes: nat, upto: nat, align: nat, i: nat) returns (k: nat)
    requires align > 0 && AlignDown(off, align) == off && ChunkStarts(starts, bytes, upto, align)
    requires off <= i < AlignUp(off + upto, align)
    ensures k < |starts| && off + starts[k] == AlignDown(i, align)
    ensures forall y :: off + starts[k] <= y < off + starts[k] + align ==> AlignDown(y, align) == off + starts[k]
  {
    hide AlignDown, AlignUp, ChunkStarts;
    ChunksEndAligned(off, starts, bytes, upto, align);
    k := IndexBelow(i - off, |starts|, align);
    StartsAt(starts, bytes, upto, align, k);
    var s := starts[k];
    BlockAt(off, k, s, align, i);
    forall y | off + s <= y < off + s + align ensures AlignDown(y, align) == off + s {
      BlockAt(off, k, s, align, y);
    }
  }

  /** A block of the write is one of the chunks that differ. */
  lemma BlockOfChunk(oldb: seq<Byte>, newb: seq<Byte>, off: nat, bufOld: seq<Byte>, bufNew: seq<Byte>,
                     starts: seq<nat>, pnum: nat, align: nat, i: nat)
    requires align > 0 && AlignDown(off, align) == off && |bufOld| == |bufNew|
    requires ShownBy(bufOld, oldb, off) && ShownBy(bufNew, newb, off)
    requires ChunkStarts(starts, |bufOld|, pnum, align) && AllLike(bufOld, bufNew, |bufOld|, starts, align, true)
    requires off <= i < AlignUp(off + pnum, align)
    ensures BlockDiffers(oldb, newb, align, i)
  {
    hide AlignDown, AlignUp;
    var k := ChunkOf(off, starts, |bufOld|, pnum, align, i);
    var s := starts[k];
    assert Differs(bufOld, bufNew, |bufOld|, s, align);
    DiffersNow(bufOld, bufNew, |bufOld|, s, align);
    hide Differs, ChunkStarts, AllLike;
    var len := Min(|bufOld| - s, align);
    var x := FirstDifference(bufOld[s..s + len], bufNew[s..s + len]);
    assert bufOld[s + x] != bufNew[s + x];
    assert At(oldb, off + (s + x)) != At(newb, off + (s + x));
    assert AlignDown(off + s + x, align) == AlignDown(i, align);
  }

  lemma FirstDifference(a: seq<Byte>, b: seq<Byte>) returns (x: nat)
    requires |a| == |b| && a != b
    ensures x < |a| && a[x] != b[x]
  {
    x :| x < |a| && a[x] != b[x];
  }

  lemma EqualDoNotDiffer(a: seq<Byte>, b: seq<Byte>, starts: seq<nat>, pnum: nat, align: nat, differs: bool)
    requires a == b && ChunkStarts(starts, |a|, pnum, align) && AllLike(a, b, |a|, starts, align, differs)
    ensures !differs
  {
    assert Differs(a, b, |a|, starts[0], align) == differs;
  }

  lemma EqualIsSafe(has: seq<bool>, oldb: seq<Byte>, newb: seq<Byte>, off: nat, bufOld: seq<Byte>, bufNew: seq<Byte>,
                    n: nat)
    requires n <= |bufOld| == |bufNew| && off + n <= |has| && bufOld[..n] == bufNew[..n]
    requires ShownBy(bufOld, oldb, off) && ShownBy(bufNew, newb, off)
    ensures SafeRange(has, oldb, newb, off, off + n)
  {
    forall i | off <= i < off + n ensures Safe(has, oldb, newb, i) {
      assert bufOld[..n][i - off] == bufNew[..n][i - off];
    }
  }

  /** One round of the inner loop: the next chunks that all differ, or that are all equal. */
  method CopyChunks(ov: Overlay, newb: seq<Byte>, off: nat, bufOld: seq<Byte>, bufNew: seq<Byte>, eof: bool,
                    ghost v: seq<Byte>)
    returns (ok: bool, pnum: nat)
    requires ov.Valid() && 0 < |bufOld| == |bufNew| && off + |bufOld| <= ov.size
    requires View(ov.has, ov.data, ov.backing) == v
    requires ShownBy(bufOld, ov.backing, off) && ShownBy(bufNew, newb, off) &&
      ShownBy(v[off..off + |bufOld|], ov.backing, off)
    requires eof ==> off >= |ov.backing|
    requires AlignDown(off, ov.align) == off
    modifies ov
    ensures ov.Valid() && Grows(old(ov.has), ov.has) && View(ov.has, ov.data, ov.backing) == v
    ensures OnlyNeeded(old(ov.has), ov.has, ov.backing, newb, ov.align)
    ensures ok && pnum < |bufOld| ==> AlignDown(off + pnum, ov.align) == off + pnum
    ensures ov.failed == (old(ov.failed) || !ok)
    ensures ov.views == old(ov.views) || ov.views == old(ov.views) + [v]
    ensures ok ==> 0 < pnum <= |bufOld| && SafeRange(ov.has, ov.backing, newb, off, off + pnum)
    ensures bufOld == bufNew ==> ok && ov.has == old(ov.has) && ov.data == old(ov.data)
  {
    var differs;
    differs, pnum := CompareBuffers(bufOld, bufNew, |bufOld|, ov.align);
    ghost var starts :| ChunkStarts(starts, |bufOld|, pnum, ov.align)
      && AllLike(bufOld, bufNew, |bufOld|, starts, ov.align, differs);
    hide AlignDown, AlignUp, ChunkStarts, AllLike, Differs, BlockDiffers;
    ChunksEndAligned(off, starts, |bufOld|, pnum, ov.align);
    if bufOld == bufNew { EqualDoNotDiffer(bufOld, bufNew, starts, pnum, ov.align, differs); }
    if differs {
      var buf: seq<Byte> := if eof then seq(pnum, _ => 0) else bufOld[..pnum];
      assert forall i :: off <= i < off + pnum ==> v[i] == v[off..off + |bufOld|][i - off];
      ok := WriteRegion(ov, off, buf, v);
      forall i | 0 <= i < ov.size && ov.has[i] && !old(ov.has)[i] ensures BlockDiffers(ov.backing, newb, ov.align, i) {
        BlockOfChunk(ov.backing, newb, off, bufOld, bufNew, starts, pnum, ov.align, i);
      }
    } else {
      EqualIsSafe(ov.has, ov.backing, newb, off, bufOld, bufNew, pnum);
      ok := true;
    }
  }

  /** The copy of one unallocated region. */
  method CopyRegion(ov: Overlay, newb: seq<Byte>, off: nat, n: nat) returns (ok: bool)
    requires ov.Valid() && n > 0 && off + n <= ov.size && AlignDown(off, ov.align) == off
    requires forall i :: off <= i < off + n ==> !ov.has[i]
    modifies ov
    ensures ov.Valid() && Grows(old(ov.has), ov.has) && ov.failed == (old(ov.failed) || !ok)
    ensures OnlyNeeded(old(ov.has), ov.has, ov.backing, newb, ov.align)
    ensures View(ov.has, ov.data, ov.backing) == old(View(ov.has, ov.data, ov.backing))
    ensures old(ov.views) <= ov.views
    ensures AllViews(ov.views[|old(ov.views)|..], old(View(ov.has, ov.data, ov.backing)))
    ensures ok ==> SafeRange(ov.has, ov.backing, newb, off, off + n)
    ensures SameRange(ov.backing, newb, off, off + n) ==> ov.has == old(ov.has) && ov.data == old(ov.data)
  {
    ghost var v := View(ov.has, ov.data, ov.backing);
    assert ShownBy(v[off..off + n], ov.backing, off);
    var bufOld, bufNew;
    var eof := off >= |ov.backing|;
    ok, bufOld := ov.ReadBacking(ov.backing, off, n);
    if !ok { return; }
    ok, bufNew := ov.ReadBacking(newb, off, n);
    if !ok { return; }
    var written := 0;
    while written < n
      invariant 0 <= written <= n && (written < n ==> AlignDown(off + written, ov.align) == off + written)
      invariant eof ==> off + written >= |ov.backing|
      invariant ov.Valid() && Grows(old(ov.has), ov.has) && ov.failed == old(ov.failed)
      invariant OnlyNeeded(old(ov.has), ov.has, ov.backing, newb, ov.align)
      invariant View(ov.has, ov.data, ov.backing) == v
      invariant old(ov.views) <= ov.views && AllViews(ov.views[|old(ov.views)|..], v)
      invariant SafeRange(ov.has, ov.backing, newb, off, off + written)
      invariant SameRange(ov.backing, newb, off, off + n) ==> ov.has == old(ov.has) && ov.data == old(ov.data)
    {
      ghost var has0 := ov.has;
      var pnum;
      assert ShownBy(bufOld[written..], ov.backing, off + written);
      assert ShownBy(bufNew[written..], newb, off + written);
      assert ShownBy(v[off + written..off + n], ov.backing, off + written) by {
        assert v[off + written..off + n] == v[off..off + n][written..];
      }
      assert SameRange(ov.backing, newb, off, off + n) ==> bufOld[written..] == bufNew[written..];
      ok, pnum := CopyChunks(ov, newb, off + written, bufOld[written..], bufNew[written..], eof, v);
      GrowsTwice(old(ov.has), has0, ov.has);
      OnlyNeededTwice(old(ov.has), has0, ov.has, ov.backing, newb, ov.align);
      if !ok { return; }
      SafeGrows(has0, ov.has, ov.backing, newb, off, off + written, off + written + pnum);
      written := written + pnum;
      if off + written >= |ov.backing| { eof := true; }
    }
    ok := true;
  }

  /** Writes what is visible anyway; only the allocation changes. */
  method WriteRegion(ov: Overlay, off: nat, buf: seq<Byte>, ghost v: seq<Byte>) returns (ok: bool)
    requires ov.Valid() && buf != [] && off + |buf| <= ov.size
    requires View(ov.has, ov.data, ov.backing) == v
    requires forall i :: off <= i < off + |buf| ==> buf[i - off] == v[i]
    modifies ov
    ensures ov.Valid() && Grows(old(ov.has), ov.has) && ov.failed == (old(ov.failed) || !ok)
    ensures View(ov.has, ov.data, ov.backing) == v && ov.views == old(ov.views) + [v]
    ensures ok ==> forall i :: off <= i < off + |buf| ==> ov.has[i]
    ensures forall i :: 0 <= i < ov.size && ov.has[i] && !old(ov.has)[i] ==>
      AlignDown(off, ov.align) <= i < AlignUp(off + |buf|, ov.align)
  {
    forall i | off <= i < off + |buf| ensures buf[i - off] == Visible(ov.has, ov.data, ov.backing, i) {
      ViewAt(ov.has, ov.data, ov.backing, v, i);
    }
    ok := ov.Pwrite(off, buf);
    RewriteKeepsView(old(ov.has), old(ov.data), ov.has, ov.data, ov.backing, ov.align, off, buf);
  }

  /** The region [off, off + n) stretched to block boundaries, then cut to the image and to the buffer. */
  function Stretched(off: nat, n: nat, align: nat, size: nat): (nat, int)
    requires align > 0
  {
    var off' := AlignDown(off, align);
    var n1 := n + (off - off');
    var n2 := n1 + (AlignUp(off' + n1, align) - (off' + n1));
    (off', Min(n2, Min(size - off', IO_BUF_SIZE)))
  }

  /**
   Although the offset moves back, the round ends behind where it began exactly
   when the block reaches back by less than the buffer size.
   */
  lemma StretchAdvances(off: nat, n: nat, align: nat, size: nat)
    requires align > 0 && n > 0 && off + n <= size
    ensures var (off', n') := Stretched(off, n, align, size);
      && off' == AlignDown(off, align) <= off && off' + n' <= size && n' > 0
      && (off < off' + n' <==> off - AlignDown(off, align) < IO_BUF_SIZE)
      && (n' == IO_BUF_SIZE || off' + n' == size || off' + n' == AlignUp(off + n, align))
  {
    AlignDownBounds(off, align);
    AlignUpBounds(off + n, align);
  }

  /** Blocks larger than the buffer: from the buffer's end on the region is stretched back to where it began. */
  lemma LargeBlocksDoNotAdvance(n: nat, align: nat, size: nat)
    requires align > IO_BUF_SIZE && n > 0 && IO_BUF_SIZE + n <= size
    ensures var (off', n') := Stretched(IO_BUF_SIZE, n, align, size); off' == 0 && n' == IO_BUF_SIZE
  {
    AlignDownUnique(IO_BUF_SIZE, align, 0);
    AlignUpBounds(IO_BUF_SIZE + n, align);
  }

  /** The stretched region is unallocated because blocks are allocated as a whole. */
  lemma StretchUnallocated(has: seq<bool>, off: nat, n: nat, align: nat)
    requires align > 0 && n > 0 && off + n <= |has| && Uniform(has, align)
    requires forall i :: off <= i < off + n ==> !has[i]
    ensures var (off', n') := Stretched(off, n, align, |has|);
      off' + n' <= |has| && forall i :: off' <= i < off' + n' ==> !has[i]
  {
    StretchAdvances(off, n, align, |has|);
    var (off', n') := Stretched(off, n, align, |has|);
    AlignDownBounds(off, align);
    forall i | off' <= i < off' + n' ensures !has[i] {
      if i < off {
        SameBlock(off, i, align);
        assert has[i] == has[off];
      } else if i >= off + n {
        LastBlock(off + n, i, align);
        assert has[i] == has[off + n - 1];
      }
    }
  }

  /** What the queries of a round say: how far the status at `off` goes, and what is between the two files. */
  datatype Answers = Answers(run: nat, above: bool, part: nat)

  /**
   Where a round ends.  What is allocated is skipped, and so is what no layer between
   the two backing files holds; the rest is copied in whole blocks.
   */
  function RoundEnd(held: bool, inChain: bool, q: Answers, off: nat, align: nat, size: nat): int
    requires align > 0
  {
    if held then off + q.run
    else if inChain && !q.above && q.part > 0 then off + q.part
    else
      var (start, n) := Stretched(off, if inChain && q.part > 0 then q.part else q.run, align, size);
      start + n
  }

  /** The answers are true, and the first one covers at least one byte. */
  ghost predicate TrueAnswers(has: seq<bool>, oldb: seq<Byte>, newb: seq<Byte>, inChain: bool, q: Answers, off: nat) {
    && 0 < q.run <= IO_BUF_SIZE && off + q.run <= |has|
    && (forall i :: off <= i < off + q.run ==> has[i] == has[off])
    && (inChain && !has[off] ==> q.part <= q.run && (!q.above ==> SameRange(oldb, newb, off, off + q.part)))
  }

  /** The start of a round: whether there is something to copy from `off` on, and how much. */
  method QueryRange(ov: Overlay, newb: seq<Byte>, inChain: bool, off: nat)
      returns (ok: bool, skip: bool, n: nat, ghost q: Answers)
    requires ov.Valid() && off < ov.size
    modifies ov`failed
    ensures ov.failed == (old(ov.failed) || !ok)
    ensures ok ==> TrueAnswers(ov.has, ov.backing, newb, inChain, q, off)
    ensures ok ==> 0 < n && off + n <= ov.size
    ensures ok ==> (skip <==> ov.has[off] || (inChain && !q.above && q.part > 0))
    ensures ok && skip ==>
      n == (if ov.has[off] then q.run else q.part) && SafeRange(ov.has, ov.backing, newb, off, off + n)
    ensures ok && !skip ==>
      n == (if inChain && q.part > 0 then q.part else q.run) && forall i :: off <= i < off + n ==> !ov.has[i]
  {
    n := Min(IO_BUF_SIZE, ov.size - off);
    ok, skip, n := ov.IsAllocated(off, n);
    q := Answers(n, true, 0);
    if !ok || skip { return; }
    if inChain {
      var bytes, above := n, false;
      ok, above, n := ov.IsAllocatedAbove(newb, off, n);
      q := Answers(bytes, above, n);
      if !ok { return; }
      if !above && n > 0 { return ok, true, n, q; }
      if n == 0 { n := bytes; }
    }
  }

  /**
   One round of the outer loop; returns the offset at which the next one starts.  The
   next offset is greater unless the block of this one reaches back too far.
   */
  method RebaseRound(ov: Overlay, newb: seq<Byte>, inChain: bool, off: nat)
      returns (ok: bool, next: nat, ghost q: Answers)
    requires ov.Valid() && off < ov.size
    requires SafeRange(ov.has, ov.backing, newb, 0, off)
    modifies ov
    ensures ov.Valid() && Grows(old(ov.has), ov.has) && ov.failed == (old(ov.failed) || !ok)
    ensures OnlyNeeded(old(ov.has), ov.has, ov.backing, newb, ov.align)
    ensures View(ov.has, ov.data, ov.backing) == old(View(ov.has, ov.data, ov.backing))
    ensures old(ov.views) <= ov.views
    ensures AllViews(ov.views[|old(ov.views)|..], old(View(ov.has, ov.data, ov.backing)))
    ensures next <= ov.size && (ok ==> 0 < next && SafeRange(ov.has, ov.backing, newb, 0, next))
    ensures ok ==> TrueAnswers(old(ov.has), ov.backing, newb, inChain, q, off)
    ensures ok ==> next == RoundEnd(old(ov.has)[off], inChain, q, off, ov.align, ov.size)
    ensures ok && off - AlignDown(off, ov.align) < IO_BUF_SIZE ==> off < next
    ensures ok && !inChain && !old(ov.has)[off] ==> next <= AlignDown(off, ov.align) + IO_BUF_SIZE
    ensures ok && !inChain && !old(ov.has)[off] && off - AlignDown(off, ov.align) >= IO_BUF_SIZE ==>
      next == AlignDown(off, ov.align) + IO_BUF_SIZE
    ensures SameRange(ov.backing, newb, 0, ov.size) ==> ov.has == old(ov.has) && ov.data == old(ov.data)
  {
    next := off;
    var skip, n;
    ok, skip, n, q := QueryRange(ov, newb, inChain, off);
    if !ok { return; }
    if skip {
      next := off + n;
      SafeGrows(ov.has, ov.has, ov.backing, newb, 0, off, next);
      return;
    }
    StretchAdvances(off, n, ov.align, ov.size);
    StretchCut(off, n, ov.align, ov.size);
    StretchUnallocated(ov.has, off, n, ov.align);
    AlignDownTwice(off, ov.align);
    hide AlignDown, AlignUp, TrueAnswers;
    var (off', n') := Stretched(off, n, ov.align, ov.size);
    hide Stretched;
    ghost var has0 := ov.has;
    ok := CopyRegion(ov, newb, off', n');
    next := off' + n';
    if ok {
      assert SafeRange(has0, ov.backing, newb, 0, off');
      SafeGrows(has0, ov.has, ov.backing, newb, 0, off', next);
    }
  }

  lemma StretchCut(off: nat, n: nat, align: nat, size: nat)
    requires align > 0 && n > 0 && off + n <= size
    ensures var (off', n') := Stretched(off, n, align, size);
      n' <= IO_BUF_SIZE && (off - AlignDown(off, align) >= IO_BUF_SIZE ==> n' == IO_BUF_SIZE)
  {
    AlignDownBounds(off, align);
    AlignUpBounds(off + n, align);
  }

  /**
   The first rounds of the copy loop, for blocks of any size.  At any moment, and also
   when a round fails, the overlay read through the old backing file shows the original
   image; once the end is reached it shows it through the new one as well.  The end is
   reached if the blocks or the image fit the buffer; otherwise it never is on an
   overlay in which nothing is allocated and nothing differs.
   */
  method RebaseRounds(ov: Overlay, newb: seq<Byte>, inChain: bool, rounds: nat) returns (ok: bool, off: nat)
    requires ov.Valid()
    modifies ov
    ensures ov.Valid() && off <= ov.size && ov.failed == (old(ov.failed) || !ok)
    ensures OnlyNeeded(old(ov.has), ov.has, ov.backing, newb, ov.align)
    ensures View(ov.has, ov.data, ov.backing) == old(View(ov.has, ov.data, ov.backing))
    ensures old(ov.views) <= ov.views
    ensures AllViews(ov.views[|old(ov.views)|..], old(View(ov.has, ov.data, ov.backing)))
    ensures ok && off == ov.size ==> View(ov.has, ov.data, newb) == old(View(ov.has, ov.data, ov.backing))
    ensures ok && rounds >= ov.size && Ends(ov.align, ov.size) ==> off == ov.size
    ensures ok && !inChain && !Ends(ov.align, ov.size) && NothingToCopy(old(ov.has), ov.backing, newb) ==>
      off <= IO_BUF_SIZE < ov.size && ov.has == old(ov.has)
  {
    ghost var v := View(ov.has, ov.data, ov.backing);
    off, ok := 0, true;
    for k := 0 to rounds
      invariant ok && off <= ov.size && ov.Valid() && ov.failed == old(ov.failed)
      invariant OnlyNeeded(old(ov.has), ov.has, ov.backing, newb, ov.align)
      invariant View(ov.has, ov.data, ov.backing) == v
      invariant old(ov.views) <= ov.views && AllViews(ov.views[|old(ov.views)|..], v)
      invariant SafeRange(ov.has, ov.backing, newb, 0, off)
      invariant Ends(ov.align, ov.size) ==> off >= k || off == ov.size
      invariant NothingToCopy(old(ov.has), ov.backing, newb) ==> ov.has == old(ov.has)
      invariant !inChain && !Ends(ov.align, ov.size) && NothingToCopy(old(ov.has), ov.backing, newb) ==>
        off <= IO_BUF_SIZE
    {
      if off == ov.size { break; }
      ghost var views0, has0 := ov.views, ov.has;
      EndsReach(off, ov.align, ov.size);
      ghost var q;
      ok, off, q := RebaseRound(ov, newb, inChain, off);
      AllViewsAppend(old(ov.views), views0, ov.views, v);
      OnlyNeededTwice(old(ov.has), has0, ov.has, ov.backing, newb, ov.align);
      if !ok { return; }
    }
    if off == ov.size { SameThroughBoth(ov.has, ov.data, ov.backing, newb); }
  }

  /** An empty overlay whose two backing files read the same. */
  predicate NothingToCopy(has: seq<bool>, oldb: seq<Byte>, newb: seq<Byte>) {
    (forall i :: 0 <= i < |has| ==> !has[i]) && SameRange(oldb, newb, 0, |has|)
  }

  /** The loop ends whatever the images hold: no block reaches back by the size of the buffer. */
  predicate Ends(align: nat, size: nat) {
    align <= IO_BUF_SIZE || size <= IO_BUF_SIZE
  }

  lemma EndsReach(off: nat, align: nat, size: nat)
    requires align > 0 && off < size
    ensures Ends(align, size) ==> off - AlignDown(off, align) < IO_BUF_SIZE
    ensures !Ends(align, size) && off <= IO_BUF_SIZE ==> AlignDown(off, align) == 0
  {
    AlignDownBounds(off, align);
    if !Ends(align, size) && off <= IO_BUF_SIZE { AlignDownUnique(off, align, 0); }
  }

  /**
   The whole copy loop.  At any moment, and also when it stops on an error, the
   overlay read through the old backing file shows the original image; when it
   succeeds the overlay shows it through the new backing file as well.
   */
  method SafeRebase(ov: Overlay, newb: seq<Byte>, inChain: bool) returns (ok: bool)
    requires ov.Valid() && Ends(ov.align, ov.size)
    modifies ov
    ensures ov.Valid() && ov.failed == (old(ov.failed) || !ok)
    ensures OnlyNeeded(old(ov.has), ov.has, ov.backing, newb, ov.align)
    ensures View(ov.has, ov.data, ov.backing) == old(View(ov.has, ov.data, ov.backing))
    ensures old(ov.views) <= ov.views
    ensures AllViews(ov.views[|old(ov.views)|..], old(View(ov.has, ov.data, ov.backing)))
    ensures ok ==> View(ov.has, ov.data, newb) == old(View(ov.has, ov.data, ov.backing))
  {
    ghost var v := View(ov.has, ov.data, ov.backing);
    var off := 0;
    while off < ov.size
      invariant off <= ov.size && ov.Valid() && ov.failed == old(ov.failed)
      invariant OnlyNeeded(old(ov.has), ov.has, ov.backing, newb, ov.align)
      invariant View(ov.has, ov.data, ov.backing) == v
      invariant old(ov.views) <= ov.views && AllViews(ov.views[|old(ov.views)|..], v)
      invariant SafeRange(ov.has, ov.backing, newb, 0, off)
      decreases ov.size - off
    {
      ghost var views0, has0 := ov.views, ov.has;
      EndsReach(off, ov.align, ov.size);
      ghost var q;
      ok, off, q := RebaseRound(ov, newb, inChain, off);
      AllViewsAppend(old(ov.views), views0, ov.views, v);
      OnlyNeededTwice(old(ov.has), has0, ov.has, ov.backing, newb, ov.align);
      if !ok { return; }
    }
    SameThroughBoth(ov.has, ov.data, ov.backing, newb);
    ok := true;
  }

  lemma AllViewsAppend(a: seq<seq<Byte>>, b: seq<seq<Byte>>, c: seq<seq<Byte>>, v: seq<Byte>)
    requires a <= b <= c && AllViews(b[|a|..], v) && AllViews(c[|b|..], v)
    ensures AllViews(c[|a|..], v)
  {
    assert c[|a|..] == b[|a|..] + c[|b|..];
  }

  lemma SameThroughBoth(has: seq<bool>, data: seq<Byte>, oldb: seq<Byte>, newb: seq<Byte>)
    requires |has| == |data| && SafeRange(has, oldb, newb, 0, |has|)
    ensures View(has, data, newb) == View(has, data, oldb)
  {
    forall i | 0 <= i < |data| ensures Visible(has, data, newb, i) == Visible(has, data, oldb, i) {
      assert Safe(has, oldb, newb, i);
    }
  }
}
