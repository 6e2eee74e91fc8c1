/** Division with a variable divisor. */
module Arith {

  lemma MulMono(a: int, b: int, d: nat)
    requires a <= b
    ensures a * d <= b * d
  {
  }

  lemma Next(a: int, d: nat)
    ensures (a + 1) * d == a * d + d
  {
  }

  lemma DivMod(w: nat, d: nat)
    requires d >= 1
    ensures w / d * d <= w < w / d * d + d && w % d == w - w / d * d
  {
  }

  /** w / d is the only quotient. */
  lemma DivUnique(w: nat, d: nat, q: int)
    requires d >= 1 && q * d <= w < q * d + d
    ensures w / d == q
  {
    DivMod(w, d);
    var p := w / d;
    if p < q {
      MulMono(p + 1, q, d);
      Next(p, d);
    } else if q < p {
      MulMono(q + 1, p, d);
      Next(q, d);
    }
  }
}
