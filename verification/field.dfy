/**
 * The prime field the circuit computes over.  The concrete field of the
 * example (the Pasta base field) is not modelled: the modulus is an
 * arbitrary prime `P`, and only the ring operations the gates use are given.
 */
module Field {

  predicate Divides(d: nat, p: nat) {
    d > 0 && p % d == 0
  }

  type Prime = p: nat | p > 1 && forall d :: 1 < d < p ==> !Divides(d, p) witness 2

  /** The field modulus; nothing about it is fixed beyond being prime. */
  const P: Prime

  /** A field element, in canonical form. */
  type Fp = x: int | 0 <= x < P

  const Zero: Fp := 0
  const One: Fp := 1

  function Add(x: Fp, y: Fp): Fp {
    (x + y) % P
  }

  function Mul(x: Fp, y: Fp): Fp {
    (x * y) % P
  }

  function Neg(x: Fp): Fp {
    if x == 0 then 0 else P - x
  }

  /** `-F::one()`, the scalar the gates use to move a term to the other side. */
  const MinusOne: Fp := Neg(One)

  /** Euclidean division by `P` has a unique quotient and remainder. */
  lemma ModUnique(x: int, q: int, r: int)
    requires x == q * P + r && 0 <= r < P
    ensures x % P == r
  {
    var q', r' := x / P, x % P;
    var d := q - q';
    assert d * P == r' - r by {
      assert q * P - q' * P == (q - q') * P;
    }
    if d >= 1 {
      MulAtLeast(d);
    } else if d <= -1 {
      MulAtLeast(-d);
    }
  }

  lemma MulAtLeast(d: int)
    requires d >= 1
    ensures d * P >= P
  {
    assert d * P == (d - 1) * P + P;
    assert (d - 1) * P >= 0;
  }

  lemma MulOneLeft(x: Fp)
    ensures Mul(One, x) == x
  {
    ModUnique(x, 0, x);
  }

  /** Scaling by `-1` negates. */
  lemma MulMinusOne(x: Fp)
    ensures Mul(x, MinusOne) == Neg(x)
  {
    if x == 0 {
      ModUnique(0, 0, 0);
    } else {
      assert x * (P - 1) == (x - 1) * P + (P - x);
      ModUnique(x * (P - 1), x - 1, P - x);
    }
  }

  /** `x + (-y)` vanishes exactly when `x` and `y` are the same element. */
  lemma AddNegZero(x: Fp, y: Fp)
    ensures Add(x, Neg(y)) == Zero <==> x == y
  {
    if y == 0 {
      ModUnique(x, 0, x);
    } else if x >= y {
      ModUnique(x + (P - y), 1, x - y);
    } else {
      ModUnique(x + (P - y), 0, x + P - y);
    }
  }

  /** A gate of the form `s * (t + v * -1)` with `s` on vanishes exactly when `v == t`. */
  lemma EnabledDifferenceZero(t: Fp, v: Fp)
    ensures Mul(One, Add(t, Mul(v, MinusOne))) == Zero <==> v == t
  {
    MulMinusOne(v);
    MulOneLeft(Add(t, Neg(v)));
    AddNegZero(t, v);
  }
}
