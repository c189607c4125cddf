/** Facts about products and quotients that the solver needs one at a time. */
module Arithmetic {

  const INT64_MAX := 0x7fff_ffff_ffff_ffff

  function OneIf(b: bool): nat { if b then 1 else 0 }

  lemma MulMono(a: int, b: int, d: int)
    requires a <= b && d >= 0
    ensures a * d <= b * d
  {}

  lemma DivMono(x: int, y: int, d: int)
    requires d > 0 && x <= y
    ensures x / d <= y / d
  {
    var p, q := x / d, y / d;
    assert p * d <= x && y < q * d + d;
    if p > q {
      MulMono(q + 1, p, d);
    }
  }

  lemma DivExact(q: int, d: int)
    requires d > 0
    ensures (q * d) / d == q
  {
    var k := (q * d) / d;
    assert k * d <= q * d < k * d + d;
    if k < q {
      MulMono(k + 1, q, d);
    } else if k > q {
      MulMono(q + 1, k, d);
    }
  }
}
