/** `Math.floor(x / k)` and the matching remainder on reals, characterised without division. */
module RealDivision {

  predicate Within(x: real, q: int, k: real) {
    q as real * k <= x < (q as real + 1.0) * k
  }

  lemma MulMono(a: real, b: real, k: real)
    requires k > 0.0
    ensures a <= b ==> a * k <= b * k
    ensures a < b ==> a * k < b * k
  {
  }

  lemma Separated(a: real, x: real, b: real, k: real)
    requires k > 0.0 && a * k <= x < b * k
    ensures a < b
  {
    MulMono(b, a, k);
  }

  /** The floor of `x / k`. */
  function Quotient(x: real, k: real): (q: int)
    requires k > 0.0
    ensures Within(x, q, k)
  {
    var ratio := x / k;
    MulMono(ratio.Floor as real, ratio, k);
    MulMono(ratio, ratio.Floor as real + 1.0, k);
    ratio.Floor
  }

  /** What is left of `x` after its whole multiples of `k`. */
  function Remainder(x: real, k: real): (r: real)
    requires k > 0.0
    ensures 0.0 <= r < k
  {
    x - Quotient(x, k) as real * k
  }

  lemma NotAbove(x: real, k: real, p: int, q: int)
    requires k > 0.0 && Within(x, p, k) && Within(x, q, k)
    ensures p <= q
  {
    Separated(p as real, x, q as real + 1.0, k);
  }

  lemma QuotientUnique(x: real, k: real, q: int)
    requires k > 0.0 && Within(x, q, k)
    ensures Quotient(x, k) == q
  {
    NotAbove(x, k, Quotient(x, k), q);
    NotAbove(x, k, q, Quotient(x, k));
  }

  lemma ShiftWithin(x: real, k: real, q: int, n: int)
    requires Within(x, q, k)
    ensures Within(x - n as real * k, q - n, k)
  {
  }

  /** Removing `n` whole multiples lowers the quotient by `n` and keeps the remainder. */
  lemma QuotientShift(x: real, k: real, n: int)
    requires k > 0.0
    ensures Quotient(x - n as real * k, k) == Quotient(x, k) - n
    ensures Remainder(x - n as real * k, k) == Remainder(x, k)
  {
    var q := Quotient(x, k);
    ShiftWithin(x, k, q, n);
    QuotientUnique(x - n as real * k, k, q - n);
  }

  /** Dividing in two goes: first `x`, then what is left of it plus `more`. */
  lemma QuotientInTwoGoes(x: real, more: real, k: real)
    requires k > 0.0 && more >= 0.0
    ensures var left := Remainder(x, k) + more - k;
      && Quotient(x + more, k) >= Quotient(x, k)
      && (left >= 0.0 ==>
            && Quotient(x, k) + 1 + Quotient(left, k) == Quotient(x + more, k)
            && Remainder(left, k) == Remainder(x + more, k))
      && (left < 0.0 ==>
            && Quotient(x + more, k) == Quotient(x, k)
            && Remainder(x + more, k) == Remainder(x, k) + more)
  {
    var n := Quotient(x, k) + 1;
    var left := Remainder(x, k) + more - k;
    assert left == (x + more) - n as real * k by {
      assert n as real * k == Quotient(x, k) as real * k + k;
    }
    QuotientShift(x + more, k, n);
    if left < 0.0 {
      QuotientUnique(left, k, -1);
    } else {
      SignOfQuotient(left, k);
    }
  }

  lemma SignOfQuotient(x: real, k: real)
    requires k > 0.0 && x >= 0.0
    ensures Quotient(x, k) >= 0
  {
    Separated(0.0, x, Quotient(x, k) as real + 1.0, k);
  }

  lemma QuotientAtLeast(x: real, k: real, n: int)
    requires k > 0.0
    ensures Quotient(x, k) >= n <==> x >= n as real * k
  {
    var q := Quotient(x, k);
    if x >= n as real * k {
      Separated(n as real, x, q as real + 1.0, k);
    } else if q >= n {
      MulMono(n as real, q as real, k);
    }
  }
}
