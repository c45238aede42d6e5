/** Image contents as byte sequences, and the alignment helpers of qemu-img.c. */
module Images {
  type Byte = x: int | 0 <= x < 256

  const SECTOR: int := 512
  const IO_BUF_SIZE: int := 2 * 1024 * 1024

  /** The byte that a read at i sees; past the end of the image it is zero. */
  function At(a: seq<Byte>, i: nat): Byte {
    if i < |a| then a[i] else 0
  }

  predicate Zero(a: seq<Byte>) {
    forall i :: 0 <= i < |a| ==> a[i] == 0
  }

  /** QEMU_ALIGN_DOWN */
  function AlignDown(n: nat, m: nat): (r: nat)
    requires m > 0
  {
    n / m * m
  }

  /** QEMU_ALIGN_UP */
  function AlignUp(n: nat, m: nat): (r: nat)
    requires m > 0
  {
    AlignDown(n + m - 1, m)
  }

  lemma AlignDownBounds(n: nat, m: nat)
    requires m > 0
    ensures AlignDown(n, m) <= n < AlignDown(n, m) + m
  {
    assert n == n / m * m + n % m;
  }

  lemma AlignUpBounds(n: nat, m: nat)
    requires m > 0
    ensures n <= AlignUp(n, m) < n + m
  {
    AlignDownBounds(n + m - 1, m);
  }

  lemma MulStep(a: nat, b: nat, m: nat)
    requires a < b
    ensures a * m + m <= b * m
  {
    assert b * m == a * m + (b - a) * m;
    assert (b - a) * m == m + (b - a - 1) * m;
  }

  lemma AlignDownUnique(n: nat, m: nat, k: nat)
    requires m > 0 && k * m <= n < k * m + m
    ensures AlignDown(n, m) == k * m
  {
    AlignDownBounds(n, m);
    var q := n / m;
    if q < k {
      MulStep(q, k, m);
    } else if q > k {
      MulStep(k, q, m);
    }
  }

  /** An aligned block that starts at or before n and ends after it is the block of n. */
  lemma SameBlock(n: nat, i: nat, m: nat)
    requires m > 0 && AlignDown(n, m) <= i < AlignDown(n, m) + m
    ensures AlignDown(i, m) == AlignDown(n, m)
  {
    AlignDownUnique(i, m, n / m);
  }

  /** Below the rounded-up end and not below the last block means: in the last block. */
  lemma LastBlock(n: nat, i: nat, m: nat)
    requires m > 0 && n > 0 && n <= i < AlignUp(n, m)
    ensures AlignDown(i, m) == AlignDown(n - 1, m)
  {
    AlignDownBounds(n - 1, m);
    AlignUpBounds(n, m);
    var k := (n - 1) / m;
    assert AlignUp(n, m) == k * m + m by {
      assert (n + m - 1) / m == k + 1 by {
        AlignDownUnique(n + m - 1, m, k + 1);
        DivFromAlign(n + m - 1, m, k + 1);
      }
    }
    SameBlock(n - 1, i, m);
  }

  lemma DivFromAlign(n: nat, m: nat, k: nat)
    requires m > 0 && AlignDown(n, m) == k * m
    ensures n / m == k
  {
    var q := n / m;
    if q < k {
      MulStep(q, k, m);
    } else if q > k {
      MulStep(k, q, m);
    }
  }
}
