/** The part arithmetic of transfer/s3backend: parts 1..count tile the file, and when
    the int32 part count of the code is that count. */
module Parts {
  import opened Transfer
  import opened Arithmetic

  const INT32_MAX := 0x7fff_ffff

  /** Go's int32(x) of a wider integer: the low 32 bits, as a signed number. */
  function Int32(x: int): int { (x + 0x8000_0000) % 0x1_0000_0000 - 0x8000_0000 }

  /** The int64 value that an exact result wraps to. */
  function Int64(x: int): int { (x + 0x8000_0000_0000_0000) % 0x1_0000_0000_0000_0000 - 0x8000_0000_0000_0000 }

  /** Go's division by a positive number truncates toward zero. */
  function GoDiv(a: int, b: int): int
    requires b > 0
  {
    if a >= 0 then a / b else -((-a) / b)
  }

  /** The exact number of parts. */
  function PartCount(size: nat, partSize: nat): nat
    requires partSize > 0
  { (size + partSize - 1) / partSize }

  /** totalParts as the code computes it: int64 arithmetic, cut down to an int32. */
  function TotalParts(size: nat, partSize: nat): int
    requires partSize > 0
  { Int32(GoDiv(Int64(size + partSize - 1), partSize)) }

  function PartStart(n: int, partSize: nat): int { (n - 1) * partSize }

  /** partBytes of the code. */
  function PartBytes(n: int, size: nat, partSize: nat): int {
    if PartStart(n, partSize) + partSize > size then size - PartStart(n, partSize) else partSize
  }

  /** The count is exact, and the int32 loop counter over it can still step past it. */
  predicate Fits(size: nat, partSize: nat) {
    partSize > 0 && size + partSize - 1 <= INT64_MAX && size <= partSize * (INT32_MAX - 1)
  }

  lemma CountBounds(size: nat, partSize: nat)
    requires partSize > 0
    ensures var c := PartCount(size, partSize); (c - 1) * partSize < size <= c * partSize
  {
    var c := PartCount(size, partSize);
    assert c * partSize <= size + partSize - 1 < c * partSize + partSize;
  }

  lemma CountUpTo(size: nat, partSize: nat, most: nat)
    requires partSize > 0
    ensures PartCount(size, partSize) <= most <==> size <= partSize * most
  {
    var c := PartCount(size, partSize);
    CountBounds(size, partSize);
    if c <= most {
      MulMono(c, most, partSize);
    } else {
      MulMono(most, c - 1, partSize);
    }
  }

  /** When the sum overflows, what comes out is negative or far below the count. */
  lemma OverflownCount(size: nat, partSize: nat)
    requires 0 < partSize <= INT64_MAX && size <= INT64_MAX && size + partSize - 1 > INT64_MAX
    ensures TotalParts(size, partSize) < PartCount(size, partSize)
  {
    var x := size + partSize - 1;
    var q := (0x1_0000_0000_0000_0000 - x) / partSize;
    assert GoDiv(Int64(x), partSize) == -q;
    DivMono(0x1_0000_0000_0000_0000 - x, x, partSize);
    DivMono(0, 0x1_0000_0000_0000_0000 - x, partSize);
    CountBounds(size, partSize);
  }

  /** For all int64 sizes the code's count is exact or too small; it is exact up to
      2^31 - 1 parts whose rounding sum fits an int64, and never beyond. */
  lemma TotalPartsExactIff(size: nat, partSize: nat)
    requires 0 < partSize <= INT64_MAX && size <= INT64_MAX
    ensures TotalParts(size, partSize) <= PartCount(size, partSize)
    ensures TotalParts(size, partSize) == PartCount(size, partSize) <==>
            size + partSize - 1 <= INT64_MAX && size <= partSize * INT32_MAX
  {
    CountUpTo(size, partSize, INT32_MAX);
    if size + partSize - 1 > INT64_MAX {
      OverflownCount(size, partSize);
    }
  }

  /** Fits is exactly what the loop over the parts needs: an exact count that an int32
      counter can step past. */
  lemma CounterFitsIff(size: nat, partSize: nat)
    requires 0 < partSize <= INT64_MAX && size <= INT64_MAX
    ensures Fits(size, partSize) <==>
            TotalParts(size, partSize) == PartCount(size, partSize)
            && Int32(TotalParts(size, partSize) + 1) == PartCount(size, partSize) + 1
  {
    TotalPartsExactIff(size, partSize);
    CountUpTo(size, partSize, INT32_MAX - 1);
    CountUpTo(size, partSize, INT32_MAX);
  }

  /** Beyond the bound the count can wrap to a small one: with 1 MiB parts a file of
      2^52 bytes plus one part would be taken for a single part. */
  lemma TotalPartsCanWrap()
    ensures TotalParts(0x10_0000_0000_0000 + 0x10_0000, 0x10_0000) == 1
    ensures 0x10_0000_0000_0000 + 0x10_0000 + 0x10_0000 - 1 <= INT64_MAX
  {}

  /** At exactly 2^31 - 1 parts the count is right but the counter wraps past it, to a part
      that would have no bytes or less. */
  lemma CounterCanOverrun(size: nat, partSize: nat)
    requires 0 < partSize && PartCount(size, partSize) == INT32_MAX
    ensures Int32(INT32_MAX + 1) < 0
    ensures var n := Int32(INT32_MAX + 1); size - Int32(n - 1) * partSize <= 0
  {
    CountBounds(size, partSize);
  }

  /** Such a file: 1 MiB parts, and one byte more than 2^31 - 2 of them. */
  lemma CounterOverrunExample()
    ensures var size, partSize := 0x7fff_fffe * 0x10_0000 + 1, 0x10_0000;
            && PartCount(size, partSize) == TotalParts(size, partSize) == INT32_MAX
            && size + partSize - 1 <= INT64_MAX && !Fits(size, partSize)
  {}

  /** No offset the code computes for a part it counts leaves int64, whatever the size. */
  lemma OffsetsFit(n: int, size: nat, partSize: nat)
    requires 0 < partSize <= INT64_MAX && size <= INT64_MAX && 1 <= n <= TotalParts(size, partSize)
    ensures 0 <= PartStart(n, partSize) < size
    ensures PartStart(n, partSize) + partSize <= INT64_MAX
  {
    var c := PartCount(size, partSize);
    TotalPartsExactIff(size, partSize);
    PartsTile(n, size, partSize);
    CountBounds(size, partSize);
    assert PartStart(n, partSize) + partSize == n * partSize;
    if n < c {
      MulMono(n, c - 1, partSize);
    } else {
      assert c * partSize <= size + partSize - 1;
    }
  }

  /** Every part is non-empty, no longer than partSize, starts where the previous one
      ended, and the last one ends the file. */
  lemma PartsTile(n: int, size: nat, partSize: nat)
    requires partSize > 0 && 1 <= n <= PartCount(size, partSize)
    ensures 0 < PartBytes(n, size, partSize) <= partSize
    ensures 0 <= PartStart(n, partSize) < size
    ensures n < PartCount(size, partSize) ==>
              PartStart(n, partSize) + PartBytes(n, size, partSize) == PartStart(n + 1, partSize)
    ensures n == PartCount(size, partSize) ==> PartStart(n, partSize) + PartBytes(n, size, partSize) == size
  {
    var c := PartCount(size, partSize);
    CountBounds(size, partSize);
    MulMono(n - 1, c - 1, partSize);
    if n < c {
      MulMono(n, c - 1, partSize);
    }
    assert n * partSize == (n - 1) * partSize + partSize;
  }

  /** The bytes of part n of the source. */
  function Slice(src: Bytes, n: int, partSize: nat): Bytes
    requires partSize > 0 && 1 <= n <= PartCount(|src|, partSize)
  {
    PartsTile(n, |src|, partSize);
    src[PartStart(n, partSize)..PartStart(n, partSize) + PartBytes(n, |src|, partSize)]
  }

  /** All the slices, part k + 1 at index k. */
  function Slices(src: Bytes, partSize: nat): (r: seq<Bytes>)
    requires partSize > 0
  {
    seq(PartCount(|src|, partSize), k requires 0 <= k < PartCount(|src|, partSize) => Slice(src, k + 1, partSize))
  }

  function JoinSlices(src: Bytes, k: nat, partSize: nat): Bytes
    requires partSize > 0 && k <= PartCount(|src|, partSize)
  {
    if k == 0 then [] else JoinSlices(src, k - 1, partSize) + Slice(src, k, partSize)
  }

  function SumPartBytes(size: nat, k: nat, partSize: nat): int {
    if k == 0 then 0 else SumPartBytes(size, k - 1, partSize) + PartBytes(k, size, partSize)
  }

  /** Where part n ends; 0 before the first part. */
  function PartEnd(n: nat, size: nat, partSize: nat): int {
    if n == 0 then 0 else PartStart(n, partSize) + PartBytes(n, size, partSize)
  }

  lemma PartEnds(n: nat, size: nat, partSize: nat)
    requires partSize > 0 && n <= PartCount(size, partSize)
    ensures 0 <= PartEnd(n, size, partSize) <= size
    ensures n > 0 ==> PartEnd(n - 1, size, partSize) == PartStart(n, partSize) < PartEnd(n, size, partSize)
    ensures n == PartCount(size, partSize) ==> PartEnd(n, size, partSize) == size
  {
    CountBounds(size, partSize);
    if n > 0 { PartsTile(n, size, partSize); }
    if n > 1 { PartsTile(n - 1, size, partSize); }
  }

  lemma {:induction false} JoinPrefix(src: Bytes, k: nat, partSize: nat)
    requires partSize > 0 && k <= PartCount(|src|, partSize)
    ensures 0 <= PartEnd(k, |src|, partSize) <= |src|
    ensures JoinSlices(src, k, partSize) == src[..PartEnd(k, |src|, partSize)]
    ensures SumPartBytes(|src|, k, partSize) == PartEnd(k, |src|, partSize)
  {
    PartEnds(k, |src|, partSize);
    if k != 0 {
      JoinPrefix(src, k - 1, partSize);
      var i, j := PartStart(k, partSize), PartEnd(k, |src|, partSize);
      assert src[..i] + src[i..j] == src[..j];
    }
  }

  /** The slices, joined in part order, are the file; their lengths add up to its size. */
  lemma SlicesRebuild(src: Bytes, partSize: nat)
    requires partSize > 0
    ensures JoinSlices(src, PartCount(|src|, partSize), partSize) == src
    ensures SumPartBytes(|src|, PartCount(|src|, partSize), partSize) == |src|
  {
    JoinPrefix(src, PartCount(|src|, partSize), partSize);
    PartEnds(PartCount(|src|, partSize), |src|, partSize);
  }

  /** The parts the code counts make up the file if and only if it counts exactly. */
  lemma CountedPartsRebuildIff(src: Bytes, partSize: nat)
    requires 0 < partSize <= INT64_MAX && |src| <= INT64_MAX && TotalParts(|src|, partSize) >= 0
    ensures TotalParts(|src|, partSize) <= PartCount(|src|, partSize)
    ensures JoinSlices(src, TotalParts(|src|, partSize), partSize) == src <==>
            TotalParts(|src|, partSize) == PartCount(|src|, partSize)
  {
    var total, c := TotalParts(|src|, partSize), PartCount(|src|, partSize);
    TotalPartsExactIff(|src|, partSize);
    if total == c {
      SlicesRebuild(src, partSize);
    } else {
      JoinPrefix(src, total, partSize);
      PartsTile(total + 1, |src|, partSize);
      if total > 0 { PartsTile(total, |src|, partSize); }
    }
  }
}
