/** Division facts that the solver does not find on its own. */
module Arithmetic {

  lemma MultiplesGrow(a: int, step: int)
    requires step >= 1
    ensures a >= 1 ==> a * step >= step
    ensures a <= -1 ==> a * step <= -step
  {
  }

  lemma DivisionIsUnique(x: int, q: int, r: int, step: int)
    requires step >= 1 && 0 <= r < step && x == q * step + r
    ensures x / step == q && x % step == r
  {
    assert x == x / step * step + x % step;
    assert (x / step - q) * step == r - x % step;
    MultiplesGrow(x / step - q, step);
  }

  /** The next number's quotient is one more exactly if it is a multiple. */
  lemma NextDivision(x: int, step: int)
    requires step >= 1
    ensures (x + 1) / step == x / step + if (x + 1) % step == 0 then 1 else 0
  {
    if x % step == step - 1 {
      DivisionIsUnique(x + 1, x / step + 1, 0, step);
    } else {
      DivisionIsUnique(x + 1, x / step, x % step + 1, step);
    }
  }

  lemma ShiftedDivision(x: int, k: int, step: int)
    requires step >= 1
    ensures (x + k * step) / step == x / step + k && (x + k * step) % step == x % step
  {
    DivisionIsUnique(x + k * step, x / step + k, x % step, step);
  }
}
