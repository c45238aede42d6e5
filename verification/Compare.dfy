/**
 The comparison loop of img_compare and check_empty_sectors in qemu-img.c.  The
 block-status and read calls are arbitrary functions that may fail and that, when
 they answer, answer truly and make progress.
 */
module Compare {
  import opened Common
  import opened Images
  import opened Buffers

  /** bdrv_block_status_above with no base: the flags and the length they hold for. */
  datatype StatusReply = StatusError | Status(alloc: bool, zero: bool, other: int, pnum: nat)

  datatype ReadReply = ReadError | Data(bytes: seq<Byte>)

  datatype Backend = Backend(data: seq<Byte>, status: (nat, nat) -> StatusReply, read: (nat, nat) -> ReadReply)

  /** A range that is marked zero, or allocated nowhere in the chain, reads as zeroes. */
  predicate TrueStatus(b: Backend, off: nat, n: nat)
    requires off + n <= |b.data|
  {
    match b.status(off, n)
    case StatusError => true
    case Status(alloc, zero, _, pnum) =>
      0 < pnum <= n && (zero || !alloc ==> Zero(b.data[off..off + pnum]))
  }

  predicate TrueRead(b: Backend, off: nat, n: nat)
    requires off + n <= |b.data|
  {
    match b.read(off, n)
    case ReadError => true
    case Data(bytes) => bytes == b.data[off..off + n]
  }

  ghost predicate Sound(b: Backend) {
    forall off: nat, n: nat :: n > 0 && off + n <= |b.data| ==> TrueStatus(b, off, n) && TrueRead(b, off, n)
  }

  predicate StatusErrorAt(b: Backend, off: nat) {
    off < |b.data| && b.status(off, |b.data| - off).StatusError?
  }

  predicate ReadErrorAt(b: Backend, off: nat, n: nat) {
    0 < n <= IO_BUF_SIZE && off + n <= |b.data| && b.read(off, n).ReadError?
  }

  /** A status call of the comparison, which asks for everything up to the end of the image, fails. */
  ghost predicate StatusFails(b: Backend) {
    exists off :: StatusErrorAt(b, off)
  }

  /** A read within the image, and no longer than the buffer, fails. */
  ghost predicate ReadFails(b: Backend) {
    exists off, n :: ReadErrorAt(b, off, n)
  }

  /** Equal after the shorter image is extended with zeroes. */
  predicate SameContent(a: seq<Byte>, b: seq<Byte>) {
    forall i :: 0 <= i < Max(|a|, |b|) ==> At(a, i) == At(b, i)
  }

  predicate SameUpTo(a: seq<Byte>, b: seq<Byte>, n: nat) {
    forall i :: 0 <= i < n ==> At(a, i) == At(b, i)
  }

  /** check_empty_sectors: 0 if the range reads as zeroes, 1 if not, 4 on a read error. */
  method CheckEmpty(b: Backend, off: nat, n: nat) returns (ret: nat)
    requires Sound(b) && 0 < n <= IO_BUF_SIZE && off + n <= |b.data|
    ensures ret == 0 || ret == 1 || ret == 4
    ensures ret == 4 ==> ReadErrorAt(b, off, n)
    ensures ret == 0 ==> Zero(b.data[off..off + n])
    ensures ret == 1 ==> !Zero(b.data[off..off + n])
  {
    assert TrueRead(b, off, n);
    match b.read(off, n)
    case ReadError =>
      assert ReadErrorAt(b, off, n);
      return 4;
    case Data(buffer) =>
      var idx := FindNonzero(buffer, n);
      assert buffer[..n] == buffer;
      ret := if idx >= 0 then 1 else 0;
  }

  /** Both status replies, on the range that both cover. */
  lemma ZeroChunk(a: seq<Byte>, b: seq<Byte>, off: nat, n: nat)
    requires off + n <= |a| && off + n <= |b| && SameUpTo(a, b, off)
    requires Zero(a[off..off + n]) && Zero(b[off..off + n])
    ensures SameUpTo(a, b, off + n)
  {
    forall i | 0 <= i < off + n ensures At(a, i) == At(b, i) {
      if i >= off { assert a[i] == a[off..off + n][i - off] && b[i] == b[off..off + n][i - off]; }
    }
  }

  lemma EqualChunk(a: seq<Byte>, b: seq<Byte>, off: nat, n: nat)
    requires off + n <= |a| && off + n <= |b| && SameUpTo(a, b, off) && a[off..off + n] == b[off..off + n]
    ensures SameUpTo(a, b, off + n)
  {
    forall i | 0 <= i < off + n ensures At(a, i) == At(b, i) {
      if i >= off { assert a[i] == a[off..off + n][i - off] && b[i] == b[off..off + n][i - off]; }
    }
  }

  lemma DifferentChunk(a: seq<Byte>, b: seq<Byte>, off: nat, n: nat)
    requires off + n <= |a| && off + n <= |b| && a[off..off + n] != b[off..off + n]
    ensures !SameContent(a, b)
  {
    var k :| 0 <= k < n && a[off..off + n][k] != b[off..off + n][k];
    assert At(a, off + k) != At(b, off + k);
  }

  lemma ZeroPart(a: seq<Byte>, off: nat, n: nat, m: nat)
    requires m <= n && off + n <= |a| && Zero(a[off..off + n])
    ensures Zero(a[off..off + m])
  {
    assert a[off..off + m] == a[off..off + n][..m];
  }

  /** How far the two replies take the comparison; what has to be read is limited by the buffer. */
  function ChunkLength(s1: StatusReply, s2: StatusReply): nat
    requires s1.Status? && s2.Status?
  {
    var n := Min(s1.pnum, s2.pnum);
    if (s1.zero && s2.zero) || (!s1.alloc && !s2.alloc) then n else Min(n, IO_BUF_SIZE)
  }

  /** A comparison that has come to `off` also asks for the status at t, unless it ends before. */
  ghost predicate Visits(b1: Backend, b2: Backend, off: nat, t: nat)
    decreases |b1.data| - off
  {
    || t == off
    || (off < |b1.data| && off < |b2.data| &&
        var s1, s2 := b1.status(off, |b1.data| - off), b2.status(off, |b2.data| - off);
        s1.Status? && s2.Status? && ChunkLength(s1, s2) > 0 && Visits(b1, b2, off + ChunkLength(s1, s2), t))
  }

  /** What lies ahead of `off` lies ahead of the next place, too. */
  lemma VisitsAhead(b1: Backend, b2: Backend, off: nat, t: nat)
    requires Visits(b1, b2, off, t) && t != off
    ensures off < |b1.data| && off < |b2.data|
    ensures b1.status(off, |b1.data| - off).Status? && b2.status(off, |b2.data| - off).Status?
    ensures Visits(b1, b2, off + ChunkLength(b1.status(off, |b1.data| - off), b2.status(off, |b2.data| - off)), t)
  {
  }

  lemma {:induction false} VisitsNext(b1: Backend, b2: Backend, off: nat, t: nat)
    requires Visits(b1, b2, off, t) && t < |b1.data| && t < |b2.data|
    requires b1.status(t, |b1.data| - t).Status? && b2.status(t, |b2.data| - t).Status?
    requires ChunkLength(b1.status(t, |b1.data| - t), b2.status(t, |b2.data| - t)) > 0
    ensures Visits(b1, b2, off, t + ChunkLength(b1.status(t, |b1.data| - t), b2.status(t, |b2.data| - t)))
    decreases |b1.data| - off
  {
    if t != off {
      VisitsNext(b1, b2, off + ChunkLength(b1.status(off, |b1.data| - off), b2.status(off, |b2.data| - off)), t);
    }
  }

  /** The first loop body once both replies are in: decides a chunk that starts at off. */
  method CompareChunk(b1: Backend, b2: Backend, off: nat, s1: StatusReply, s2: StatusReply)
      returns (ret: nat, chunk: nat)
    requires Sound(b1) && Sound(b2) && off < |b1.data| && off < |b2.data| && SameUpTo(b1.data, b2.data, off)
    requires s1.Status? && s1 == b1.status(off, |b1.data| - off)
    requires s2.Status? && s2 == b2.status(off, |b2.data| - off)
    ensures ret == 0 || ret == 1 || ret == 4
    ensures ret == 0 ==> chunk == ChunkLength(s1, s2) > 0
    ensures ret == 0 ==> off + chunk <= |b1.data| && off + chunk <= |b2.data|
    ensures ret == 0 ==> SameUpTo(b1.data, b2.data, off + chunk)
    ensures ret == 1 ==> !SameContent(b1.data, b2.data)
    ensures ret == 4 ==> ReadFails(b1) || ReadFails(b2)
  {
    ret := 0;
    assert TrueStatus(b1, off, |b1.data| - off) && TrueStatus(b2, off, |b2.data| - off);
    chunk := Min(s1.pnum, s2.pnum);
    if s1.zero && s2.zero {
      ZeroPart(b1.data, off, s1.pnum, chunk);
      ZeroPart(b2.data, off, s2.pnum, chunk);
      ZeroChunk(b1.data, b2.data, off, chunk);
    } else if s1.alloc == s2.alloc {
      if s1.alloc {
        chunk := Min(chunk, IO_BUF_SIZE);
        ret := CompareData(b1, b2, off, chunk);
      } else {
        ZeroPart(b1.data, off, s1.pnum, chunk);
        ZeroPart(b2.data, off, s2.pnum, chunk);
        ZeroChunk(b1.data, b2.data, off, chunk);
      }
    } else {
      chunk := Min(chunk, IO_BUF_SIZE);
      if s1.alloc {
        ZeroPart(b2.data, off, s2.pnum, chunk);
        ret := CheckEmpty(b1, off, chunk);
      } else {
        ZeroPart(b1.data, off, s1.pnum, chunk);
        ret := CheckEmpty(b2, off, chunk);
      }
      if ret == 0 {
        ZeroChunk(b1.data, b2.data, off, chunk);
      } else if ret == 1 {
        DifferentChunk(b1.data, b2.data, off, chunk);
      }
    }
  }

  /** Both ranges hold data: read and compare them. */
  method CompareData(b1: Backend, b2: Backend, off: nat, chunk: nat) returns (ret: nat)
    requires Sound(b1) && Sound(b2) && 0 < chunk <= IO_BUF_SIZE
    requires off + chunk <= |b1.data| && off + chunk <= |b2.data|
    requires SameUpTo(b1.data, b2.data, off)
    ensures ret == 0 || ret == 1 || ret == 4
    ensures ret == 0 ==> SameUpTo(b1.data, b2.data, off + chunk)
    ensures ret == 1 ==> !SameContent(b1.data, b2.data)
    ensures ret == 4 ==> ReadFails(b1) || ReadFails(b2)
  {
    assert TrueRead(b1, off, chunk) && TrueRead(b2, off, chunk);
    var r1 := b1.read(off, chunk);
    if r1.ReadError? {
      assert ReadErrorAt(b1, off, chunk);
      return 4;
    }
    var r2 := b2.read(off, chunk);
    if r2.ReadError? {
      assert ReadErrorAt(b2, off, chunk);
      return 4;
    }
    var res, pnum := CompareBuffers(r1.bytes, r2.bytes, chunk, 0);
    if res || pnum != chunk {
      assert r1.bytes != r2.bytes;
      DifferentChunk(b1.data, b2.data, off, chunk);
      return 1;
    }
    assert r1.bytes[..chunk] == r1.bytes && r2.bytes[..chunk] == r2.bytes;
    EqualChunk(b1.data, b2.data, off, chunk);
    return 0;
  }

  predicate FlagsDifferAt(b1: Backend, b2: Backend, off: nat) {
    && off < |b1.data| && off < |b2.data|
    && var s1, s2 := b1.status(off, |b1.data| - off), b2.status(off, |b2.data| - off);
       s1.Status? && s2.Status? && (s1.alloc != s2.alloc || s1.zero != s2.zero || s1.other != s2.other)
  }

  /** The comparison comes to a place where the flags differ. */
  ghost predicate FlagsDiffer(b1: Backend, b2: Backend) {
    exists off :: Visits(b1, b2, 0, off) && FlagsDifferAt(b1, b2, off)
  }

  /** A read behind `start` fails, of a range whose status says that it may hold data. */
  ghost predicate TailReadFails(b: Backend, start: nat) {
    exists off, n :: start <= off && ReadErrorAt(b, off, n) && MayHoldData(b, off)
  }

  predicate MayHoldData(b: Backend, off: nat) {
    && off < |b.data|
    && var s := b.status(off, |b.data| - off); s.Status? && s.alloc && !s.zero
  }

  /** The tail of the longer image has to read as zeroes. */
  method CompareTail(over: Backend, start: nat) returns (ret: nat)
    requires Sound(over) && start <= |over.data|
    ensures ret == 0 || ret == 1 || ret == 3 || ret == 4
    ensures ret == 0 ==> Zero(over.data[start..])
    ensures ret == 1 ==> !Zero(over.data[start..])
    ensures ret == 3 ==> StatusFails(over)
    ensures ret == 4 ==> TailReadFails(over, start)
  {
    var off := start;
    var total := |over.data|;
    while off < total
      invariant start <= off <= total
      invariant Zero(over.data[start..off])
    {
      assert TrueStatus(over, off, total - off);
      var s := over.status(off, total - off);
      if s.StatusError? {
        assert StatusErrorAt(over, off);
        return 3;
      }
      var chunk := s.pnum;
      if s.alloc && !s.zero {
        chunk := Min(chunk, IO_BUF_SIZE);
        ret := CheckEmpty(over, off, chunk);
        if ret != 0 {
          if ret == 1 {
            ghost var k :| 0 <= k < chunk && over.data[off..off + chunk][k] != 0;
            assert over.data[start..][off + k - start] != 0;
          }
          return;
        }
      }
      assert over.data[start..off + chunk] == over.data[start..off] + over.data[off..off + chunk];
      off := off + chunk;
    }
    assert over.data[start..off] == over.data[start..];
    ret := 0;
  }

  lemma TailDecides(a: seq<Byte>, b: seq<Byte>)
    requires |a| <= |b| && SameUpTo(a, b, |a|)
    ensures SameContent(a, b) <==> Zero(b[|a|..])
    ensures SameContent(b, a) <==> Zero(b[|a|..])
  {
    if Zero(b[|a|..]) {
      forall i | |a| <= i < |b| ensures At(a, i) == At(b, i) { assert b[i] == b[|a|..][i - |a|]; }
    } else {
      var k :| 0 <= k < |b| - |a| && b[|a|..][k] != 0;
      assert At(a, |a| + k) != At(b, |a| + k);
    }
  }

  /** The loop over the common length. */
  method CompareCommon(b1: Backend, b2: Backend, strict: bool) returns (ret: nat)
    requires Sound(b1) && Sound(b2)
    ensures ret == 0 || ret == 1 || ret == 3 || ret == 4
    ensures ret == 0 ==> SameUpTo(b1.data, b2.data, Min(|b1.data|, |b2.data|))
    ensures ret == 0 && strict ==> !FlagsDiffer(b1, b2)
    ensures ret == 1 ==> !SameContent(b1.data, b2.data) || (strict && FlagsDiffer(b1, b2))
    ensures ret == 3 ==> StatusFails(b1) || StatusFails(b2)
    ensures ret == 4 ==> ReadFails(b1) || ReadFails(b2)
  {
    var size1, size2 := |b1.data|, |b2.data|;
    var total := Min(size1, size2);
    var off := 0;
    assert SameUpTo(b1.data, b2.data, off) && Visits(b1, b2, 0, off) && total <= size1 && total <= size2;
    hide Sound, SameUpTo, SameContent, ReadFails, Min, ChunkLength, Visits;
    while off < total
      invariant 0 <= off <= total
      invariant SameUpTo(b1.data, b2.data, off) && Visits(b1, b2, 0, off)
      invariant strict ==> forall t :: Visits(b1, b2, 0, t) && FlagsDifferAt(b1, b2, t) ==> Visits(b1, b2, off, t)
    {
      var s1 := b1.status(off, size1 - off);
      if s1.StatusError? {
        assert StatusErrorAt(b1, off);
        return 3;
      }
      var s2 := b2.status(off, size2 - off);
      if s2.StatusError? {
        assert StatusErrorAt(b2, off);
        return 3;
      }
      if strict && (s1.alloc, s1.zero, s1.other) != (s2.alloc, s2.zero, s2.other) {
        assert FlagsDifferAt(b1, b2, off);
        return 1;
      }
      var chunk;
      ret, chunk := CompareChunk(b1, b2, off, s1, s2);
      if ret != 0 { return; }
      VisitsNext(b1, b2, 0, off);
      forall t | Visits(b1, b2, off, t) && t != off ensures Visits(b1, b2, off + chunk, t) {
        VisitsAhead(b1, b2, off, t);
      }
      off := off + chunk;
    }
    forall t | Visits(b1, b2, off, t) ensures !FlagsDifferAt(b1, b2, t) {
      if t != off { VisitsAhead(b1, b2, off, t); }
    }
    ret := 0;
  }

  /**
   img_compare.  Without strict mode and without an I/O error the result is 0 if
   and only if the images are equal after zero extension, whatever chunks the
   status calls cut them into.  In strict mode it is 0 if and only if they are equal
   and the flags agree wherever the comparison asks for them.
   */
  method Compare(b1: Backend, b2: Backend, strict: bool) returns (ret: nat)
    requires Sound(b1) && Sound(b2)
    ensures ret == 0 || ret == 1 || ret == 3 || ret == 4
    ensures ret == 0 ==> SameContent(b1.data, b2.data)
    ensures ret == 0 && strict ==> b1.data == b2.data && !FlagsDiffer(b1, b2)
    ensures ret == 1 ==> !SameContent(b1.data, b2.data) || (strict && (|b1.data| != |b2.data| || FlagsDiffer(b1, b2)))
    ensures ret == 3 ==> StatusFails(b1) || StatusFails(b2)
    ensures ret == 4 ==> ReadFails(b1) || ReadFails(b2)
    ensures !strict && !StatusFails(b1) && !StatusFails(b2) && !ReadFails(b1) && !ReadFails(b2) ==>
      (ret == 0 <==> SameContent(b1.data, b2.data))
    ensures strict && !StatusFails(b1) && !StatusFails(b2) && !ReadFails(b1) && !ReadFails(b2) ==>
      (ret == 0 <==> b1.data == b2.data && !FlagsDiffer(b1, b2))
  {
    var size1, size2 := |b1.data|, |b2.data|;
    if strict && size1 != size2 { return 1; }
    hide Sound, StatusFails, ReadFails, FlagsDiffer;
    ret := CompareCommon(b1, b2, strict);
    if ret != 0 { return; }
    if size1 > size2 {
      TailDecides(b2.data, b1.data);
      ret := CompareTail(b1, size2);
    } else if size1 < size2 {
      TailDecides(b1.data, b2.data);
      ret := CompareTail(b2, size1);
    } else {
      SameUpToEnd(b1.data, b2.data);
    }
  }

  lemma SameUpToEnd(a: seq<Byte>, b: seq<Byte>)
    requires |a| == |b| && SameUpTo(a, b, |a|)
    ensures a == b
  {
    forall i | 0 <= i < |a| ensures a[i] == b[i] { assert At(a, i) == At(b, i); }
  }
}
