/** The arithmetic of ui/view.go: the unit loop of formatBytes on int64 values, and the
    cell counts of renderBufferBar over exact division. */
module Format {
  import opened Arithmetic

  const UNIT := 1024

  function Pow1024(n: nat): (r: nat)
    ensures r >= 1
  {
    if n == 0 then 1 else UNIT * Pow1024(n - 1)
  }

  lemma PowersOf1024()
    ensures Pow1024(6) == 0x1000_0000_0000_0000 && Pow1024(7) > INT64_MAX
  {
    assert Pow1024(1) == 0x400 && Pow1024(2) == 0x10_0000 && Pow1024(3) == 0x4000_0000;
    assert Pow1024(4) == UNIT * Pow1024(3) && Pow1024(5) == UNIT * Pow1024(4) && Pow1024(6) == UNIT * Pow1024(5);
    assert Pow1024(7) == UNIT * Pow1024(6);
  }

  lemma {:induction false} PowMonotone(m: nat, n: nat)
    requires m <= n
    ensures Pow1024(m) <= Pow1024(n)
  {
    if m < n { PowMonotone(m, n - 1); }
  }

  /** One more unit: the value still lies between n and n + 1 times div. */
  lemma NextUnit(bytes: int, n: int, div: int)
    requires div > 0 && n * div <= bytes < (n + 1) * div
    ensures (n / UNIT) * (div * UNIT) <= bytes < (n / UNIT + 1) * (div * UNIT)
  {
    var q := n / UNIT;
    MulMono(q * UNIT, n, div);
    MulMono(n + 1, (q + 1) * UNIT, div);
    assert q * (div * UNIT) == (q * UNIT) * div && (q + 1) * (div * UNIT) == ((q + 1) * UNIT) * div;
  }

  /** What formatBytes prints: a plain count, or the value over div with a unit letter. */
  datatype Text = Plain(count: int) | Scaled(div: int, letter: char)

  const LETTERS := "KMGTPE"

  /** The letter stands for the power of 1024 just below the value. */
  predicate FitsUnit(bytes: int, text: Text, exp: nat) {
    && exp < |LETTERS|
    && text == Scaled(Pow1024(exp + 1), LETTERS[exp])
    && text.div <= bytes < UNIT * text.div
  }

  /** The letters are those of the powers of 1024. */
  lemma LettersStandForPowers(bytes: int, text: Text, exp: nat)
    requires FitsUnit(bytes, text, exp)
    ensures 1024 <= bytes < 1048576 ==> text == Scaled(1024, 'K')
    ensures 1048576 <= bytes < 1073741824 ==> text == Scaled(1048576, 'M')
    ensures 1073741824 <= bytes < 1099511627776 ==> text == Scaled(1073741824, 'G')
    ensures 1099511627776 <= bytes < 1125899906842624 ==> text == Scaled(1099511627776, 'T')
    ensures 1125899906842624 <= bytes < 1152921504606846976 ==> text == Scaled(1125899906842624, 'P')
    ensures 1152921504606846976 <= bytes ==> text == Scaled(1152921504606846976, 'E')
  {
    PowersOf1024();
    assert Pow1024(1) == 1024 && Pow1024(2) == 1048576 && Pow1024(3) == 1073741824 && Pow1024(4) == 1099511627776;
    assert Pow1024(5) == 1125899906842624 && Pow1024(6) == 1152921504606846976;
  }

  /** The unit loop: the index into the letters is in range for every int64, and no
      multiplication leaves int64. */
  method FormatBytes(bytes: int) returns (text: Text)
    requires bytes <= INT64_MAX
    ensures bytes < UNIT ==> text == Plain(bytes)
    ensures bytes >= UNIT ==> (exists exp :: FitsUnit(bytes, text, exp)) && text.div <= INT64_MAX
  {
    if bytes < UNIT { return Plain(bytes); }
    var div, exp := UNIT, 0;
    assert Pow1024(1) == UNIT * Pow1024(0);
    var n := bytes / UNIT;
    while n >= UNIT
      invariant div == Pow1024(exp + 1) && n >= 1 && n * div <= bytes < (n + 1) * div
      invariant div <= bytes
      decreases n
    {
      NextUnit(bytes, n, div);
      MulMono(1, n / UNIT, div * UNIT);
      div := div * UNIT;
      exp := exp + 1;
      n := n / UNIT;
    }
    MulMono(n + 1, UNIT, div);
    if exp > 5 {
      PowMonotone(7, exp + 1);
      PowersOf1024();
    }
    text := Scaled(div, LETTERS[exp]);
    assert FitsUnit(bytes, text, exp);
  }

  // ---- renderBufferBar ----

  function Clamp(v: int, total: int): int
    requires total > 0
  {
    if v < 0 then 0 else if v > total then total else v
  }

  /** Cells of the bar that v fills. */
  function Cells(v: int, total: int, width: int): int
    requires total > 0
  {
    v * width / total
  }

  lemma CellsMonotone(a: int, b: int, total: int, width: int)
    requires total > 0 && width >= 0 && 0 <= a <= b <= total
    ensures 0 <= Cells(a, total, width) <= Cells(b, total, width) <= width
  {
    MulMono(a, b, width);
    MulMono(b, total, width);
    DivMono(0, a * width, total);
    DivMono(a * width, b * width, total);
    DivMono(b * width, width * total, total);
    DivExact(width, total);
  }

  /** A bar's cells are the exact share, rounded down; all bytes fill it, and none leave it
      empty. */
  lemma CellsAreTheShare(v: int, total: int, width: int)
    requires total > 0 && width >= 0 && 0 <= v <= total
    ensures Cells(v, total, width) * total <= v * width < (Cells(v, total, width) + 1) * total
    ensures Cells(total, total, width) == width && Cells(0, total, width) == 0
  {
    var q := v * width / total;
    assert q * total <= v * width < q * total + total;
    assert (q + 1) * total == q * total + total;
    DivExact(width, total);
    assert total * width == width * total && 0 * width == 0;
  }

  /** Whatever the reported figures, the four segments are non-negative and fill the
      bar, so no Repeat count can be negative; the clamped figures keep their order. */
  method BufferBar(width: int, committed: int, uploaded: int, buffered: int, total: int)
    returns (w: int, cCells: int, uCells: int, bCells: int, eCells: int)
    ensures w == if width < 1 then 1 else width
    ensures 0 <= cCells && 0 <= uCells && 0 <= bCells && 0 <= eCells
    ensures cCells + uCells + bCells + eCells == w
    ensures total > 0 ==> cCells == Cells(Clamp(committed, total), total, w)
    ensures total > 0 && committed >= total ==> cCells == w
    ensures total > 0 && committed <= 0 && uploaded <= 0 && buffered <= 0 ==> eCells == w
    ensures total > 0 && 0 <= committed <= total ==> cCells * total <= committed * w < (cCells + 1) * total
    ensures total > 0 && committed <= uploaded <= buffered ==>
              cCells + uCells == Cells(Clamp(uploaded, total), total, w)
              && cCells + uCells + bCells == Cells(Clamp(buffered, total), total, w)
  {
    w := if width < 1 then 1 else width;
    if total <= 0 { return w, 0, 0, 0, w; }
    var c, u, b := Clamp(committed, total), Clamp(uploaded, total), Clamp(buffered, total);
    if u < c { u := c; }
    if b < u { b := u; }
    CellsAreTheShare(c, total, w);
    CellsMonotone(c, u, total, w);
    CellsMonotone(u, b, total, w);
    cCells := Cells(c, total, w);
    uCells := Cells(u, total, w) - cCells;
    bCells := Cells(b, total, w) - cCells - uCells;
    if cCells + uCells + bCells > w { bCells := w - cCells - uCells; }
    eCells := w - cCells - uCells - bCells;
  }
}
