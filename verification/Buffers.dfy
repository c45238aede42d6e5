/** The buffer scans of qemu-img.c: find_nonzero and compare_buffers. */
module Buffers {
  import opened Common
  import opened Images

  /** The chunk of length `ch` that starts at i; the last one may be shorter. */
  function Chunk(a: seq<Byte>, n: nat, i: nat, ch: nat): seq<Byte>
    requires i <= n <= |a|
  {
    a[i..Min(i + ch, n)]
  }

  /** Returns -1 if the first n bytes are zero, else the start of the first sector that is not. */
  method FindNonzero(buf: seq<Byte>, n: nat) returns (r: int)
    requires n <= |buf|
    ensures r == -1 || 0 <= r < n
    ensures r == -1 <==> Zero(buf[..n])
    ensures r >= 0 ==> r % SECTOR == 0 && Zero(buf[..r]) && !Zero(Chunk(buf, n, r, SECTOR))
  {
    var end := n / SECTOR * SECTOR;
    var i := 0;
    while i < end
      invariant 0 <= i <= end && i % SECTOR == 0
      invariant Zero(buf[..i])
    {
      if !Zero(buf[i..i + SECTOR]) {
        ghost var k :| 0 <= k < SECTOR && buf[i..i + SECTOR][k] != 0;
        assert buf[..n][i + k] != 0;
        return i;
      }
      assert buf[..i + SECTOR] == buf[..i] + buf[i..i + SECTOR];
      i := i + SECTOR;
    }
    if i < n && !Zero(buf[i..n]) {
      ghost var k :| 0 <= k < n - i && buf[i..n][k] != 0;
      assert buf[..n][i + k] != 0;
      return i;
    }
    assert buf[..n] == buf[..i] + buf[i..n];
    return -1;
  }

  predicate Differs(buf1: seq<Byte>, buf2: seq<Byte>, n: nat, i: nat, ch: nat)
    requires i <= n <= |buf1| && n <= |buf2|
  {
    Chunk(buf1, n, i, ch) != Chunk(buf2, n, i, ch)
  }

  /** The prefix [0, upto) is cut into chunks of length ch that start at these offsets. */
  ghost predicate ChunkStarts(starts: seq<nat>, bytes: nat, upto: nat, ch: nat) {
    && |starts| > 0 && starts[0] == 0
    && (forall k :: 0 <= k < |starts| ==> starts[k] < bytes)
    && (forall k :: 0 <= k < |starts| - 1 ==> starts[k + 1] == starts[k] + ch)
    && upto == Min(starts[|starts| - 1] + ch, bytes)
  }

  ghost predicate AllLike(buf1: seq<Byte>, buf2: seq<Byte>, bytes: nat, starts: seq<nat>, ch: nat, res: bool)
    requires bytes <= |buf1| && bytes <= |buf2|
  {
    forall k :: 0 <= k < |starts| ==> starts[k] < bytes && Differs(buf1, buf2, bytes, starts[k], ch) == res
  }

  /** One more chunk that compares like the others. */
  lemma MoreChunks(buf1: seq<Byte>, buf2: seq<Byte>, bytes: nat, starts: seq<nat>, i: nat, ch: nat, res: bool)
    requires bytes <= |buf1| && bytes <= |buf2| && i < bytes
    requires ChunkStarts(starts, bytes, i, ch) && AllLike(buf1, buf2, bytes, starts, ch, res)
    requires Differs(buf1, buf2, bytes, i, ch) == res
    ensures ChunkStarts(starts + [i], bytes, Min(i + ch, bytes), ch)
    ensures AllLike(buf1, buf2, bytes, starts + [i], ch, res)
  {
  }

  lemma EqualSoFar(buf1: seq<Byte>, buf2: seq<Byte>, bytes: nat, i: nat, ch: nat)
    requires i < bytes <= |buf1| && bytes <= |buf2|
    requires buf1[..i] == buf2[..i] && !Differs(buf1, buf2, bytes, i, ch)
    ensures buf1[..Min(i + ch, bytes)] == buf2[..Min(i + ch, bytes)]
  {
    var e := Min(i + ch, bytes);
    assert buf1[..e] == buf1[..i] + buf1[i..e];
    assert buf2[..e] == buf2[..i] + buf2[i..e];
  }

  /**
   Compares chunk by chunk: `res` says whether the first chunk differs, and pnum
   is the length of the longest prefix of chunks that all compare like the first.
   */
  method CompareBuffers(buf1: seq<Byte>, buf2: seq<Byte>, bytes: nat, chsize: nat) returns (res: bool, pnum: nat)
    requires 0 < bytes <= |buf1| && bytes <= |buf2|
    ensures 0 < pnum <= bytes
    ensures var ch := if chsize == 0 then SECTOR else chsize;
      && (exists starts :: ChunkStarts(starts, bytes, pnum, ch) && AllLike(buf1, buf2, bytes, starts, ch, res))
      && (pnum < bytes ==> Differs(buf1, buf2, bytes, pnum, ch) != res)
    ensures !res ==> buf1[..pnum] == buf2[..pnum]
  {
    var ch: nat := if chsize == 0 then SECTOR else chsize;
    var i: nat := Min(bytes, ch);
    res := buf1[..i] != buf2[..i];
    ghost var starts := [0];
    assert Differs(buf1, buf2, bytes, 0, ch) == res;
    hide Differs;
    while i < bytes
      invariant 0 < i <= bytes
      invariant ChunkStarts(starts, bytes, i, ch) && AllLike(buf1, buf2, bytes, starts, ch, res)
      invariant !res ==> buf1[..i] == buf2[..i]
    {
      var len := Min(bytes - i, ch);
      assert Differs(buf1, buf2, bytes, i, ch) == (buf1[i..i + len] != buf2[i..i + len]) by {
        DiffersNow(buf1, buf2, bytes, i, ch);
      }
      if (buf1[i..i + len] != buf2[i..i + len]) != res {
        break;
      }
      MoreChunks(buf1, buf2, bytes, starts, i, ch, res);
      if !res { EqualSoFar(buf1, buf2, bytes, i, ch); }
      starts := starts + [i];
      i := i + len;
    }
    pnum := i;
  }

  lemma DiffersNow(buf1: seq<Byte>, buf2: seq<Byte>, n: nat, i: nat, ch: nat)
    requires i < n <= |buf1| && n <= |buf2|
    ensures Differs(buf1, buf2, n, i, ch) == (buf1[i..i + Min(n - i, ch)] != buf2[i..i + Min(n - i, ch)])
  {
  }
}
