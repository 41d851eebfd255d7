/**
 * Rust's integer operators, written out over Dafny's unbounded `int`.
 *
 * Dafny's `/` and `%` are Euclidean; Rust's `/` truncates toward zero and
 * its `%` takes the sign of the dividend.  Every puzzle kernel that divides
 * a value that may be negative goes through `Div` and `Rem` below.
 */
module RustInt {

  function Abs(a: int): (r: nat)
    ensures r == a || r == -a
  {
    if a < 0 then -a else a
  }

  /** `i64::signum`. */
  function Signum(a: int): (r: int)
    ensures -1 <= r <= 1
    ensures r * Abs(a) == a
  {
    if a > 0 then 1 else if a < 0 then -1 else 0
  }

  /** Rust's `a / b` for a positive divisor: the quotient truncated toward zero. */
  function Div(a: int, b: int): (q: int)
    requires b > 0
    ensures a >= 0 ==> q == a / b
  {
    if a >= 0 then a / b else -((-a) / b)
  }

  /** Rust's `a % b` for a positive divisor: the remainder has the sign of the dividend. */
  function Rem(a: int, b: int): (r: int)
    requires b > 0
    ensures a == Div(a, b) * b + r
    ensures a >= 0 ==> 0 <= r < b
    ensures a < 0 ==> -b < r <= 0
  {
    if a >= 0 then a % b else -((-a) % b)
  }

  /** Rust's remainder is congruent to the dividend modulo the divisor. */
  lemma RemCongruent(a: int, b: int)
    requires b > 0
    ensures (Rem(a, b) - a) % b == 0
    ensures Rem(a, b) % b == a % b
  {
    DividesLinear(b, 0, -Div(a, b), b);
    ModOfSum(Rem(a, b) - a, a, b);
  }

  /** A non-zero multiple of a positive `b` is at least `b` away from zero. */
  lemma MulBound(t: int, b: int)
    requires b > 0
    ensures t >= 1 ==> t * b >= b
    ensures t <= -1 ==> t * b <= -b
  {
    if t >= 1 {
      assert t * b == (t - 1) * b + b;
    } else if t <= -1 {
      assert t * b == (t + 1) * b - b;
    }
  }

  /** Quotient and remainder are the only ones with `x == q * b + r` and `0 <= r < b`. */
  lemma DivModUnique(x: int, q: int, r: int, b: int)
    requires b > 0 && 0 <= r < b && x == q * b + r
    ensures x / b == q && x % b == r
  {
    var q', r' := x / b, x % b;
    assert (q - q') * b == r' - r;
    MulBound(q - q', b);
  }

  /** A multiple of `b` leaves no remainder. */
  lemma MultipleMod(k: int, b: int)
    requires b > 0
    ensures (k * b) % b == 0 && (k * b) / b == k
  {
    DivModUnique(k * b, k, 0, b);
  }

  /** Divisibility by `d` is closed under `k * x + y`. */
  lemma DividesLinear(x: int, y: int, k: int, d: int)
    requires d > 0 && x % d == 0 && y % d == 0
    ensures (k * x + y) % d == 0
  {
    var qx, qy := x / d, y / d;
    assert x == qx * d && y == qy * d;
    assert k * x == (k * qx) * d;
    assert k * x + y == (k * qx + qy) * d;
    MultipleMod(k * qx + qy, d);
  }

  /** Adding a multiple of `b` does not change the Euclidean remainder. */
  lemma ModOfSum(x: int, y: int, b: int)
    requires b > 0 && x % b == 0
    ensures (x + y) % b == y % b
  {
    var qx, qy := x / b, y / b;
    assert x == qx * b;
    assert x + y == (qx + qy) * b + y % b;
    DivModUnique(x + y, qx + qy, y % b, b);
  }

  /** `b` raised to `e`. */
  function Pow(b: int, e: nat): int
  {
    if e == 0 then 1 else b * Pow(b, e - 1)
  }

  lemma {:induction false} PowAdd(b: int, e1: nat, e2: nat)
    ensures Pow(b, e1 + e2) == Pow(b, e1) * Pow(b, e2)
  {
    if e1 > 0 {
      PowAdd(b, e1 - 1, e2);
      assert Pow(b, e1 + e2) == b * Pow(b, e1 - 1 + e2);
    }
  }

  lemma {:induction false} PowPositive(b: int, e: nat)
    requires b > 0
    ensures Pow(b, e) > 0
  {
    if e > 0 {
      PowPositive(b, e - 1);
    }
  }

  /** Greatest common divisor of two naturals, by Euclid's algorithm. */
  function GcdNat(a: nat, b: nat): nat
    decreases b
  {
    if b == 0 then a else GcdNat(b, a % b)
  }

  /** Euclid's algorithm yields a common divisor that every common divisor divides. */
  lemma {:induction false} GcdNatIsGreatest(a: nat, b: nat)
    ensures (a > 0 || b > 0) ==> GcdNat(a, b) > 0
    ensures GcdNat(a, b) > 0 ==> a % GcdNat(a, b) == 0 && b % GcdNat(a, b) == 0
    ensures forall d: int :: d > 0 && a % d == 0 && b % d == 0 ==> GcdNat(a, b) % d == 0
    decreases b
  {
    if b > 0 {
      GcdNatIsGreatest(b, a % b);
      var g := GcdNat(b, a % b);
      assert a == (a / b) * b + a % b;
      if g > 0 {
        DividesLinear(b, a % b, a / b, g);
      }
      forall d: int | d > 0 && a % d == 0 && b % d == 0
        ensures (a % b) % d == 0
      {
        DividesLinear(b, a, -(a / b), d);
        assert a % b == -(a / b) * b + a;
      }
    }
  }

  /** `num::integer::gcd` on signed integers: the non-negative gcd of the magnitudes. */
  function Gcd(a: int, b: int): (g: nat)
    ensures (a != 0 || b != 0) ==> g > 0 && a % g == 0 && b % g == 0
    ensures forall d: int :: d > 0 && a % d == 0 && b % d == 0 ==> g % d == 0
  {
    NegMod(a);
    NegMod(b);
    GcdNatIsGreatest(Abs(a), Abs(b));
    GcdNat(Abs(a), Abs(b))
  }

  /** A divisor of `a` divides `-a`. */
  lemma NegMod(a: int)
    ensures forall d: int :: d > 0 ==> ((-a) % d == 0 <==> a % d == 0)
  {
    forall d: int | d > 0
      ensures (-a) % d == 0 <==> a % d == 0
    {
      if a % d == 0 {
        DividesLinear(a, 0, -1, d);
      }
      if (-a) % d == 0 {
        DividesLinear(-a, 0, -1, d);
      }
    }
  }

  /** `x` and `y` leave the same remainder modulo `m`. */
  predicate Congruent(x: int, y: int, m: int)
    requires m > 0
  {
    (x - y) % m == 0
  }

  lemma CongruentTrans(x: int, y: int, z: int, m: int)
    requires m > 0 && Congruent(x, y, m) && Congruent(y, z, m)
    ensures Congruent(x, z, m)
  {
    DividesLinear(x - y, y - z, 1, m);
  }

  lemma CongruentSym(x: int, y: int, m: int)
    requires m > 0 && Congruent(x, y, m)
    ensures Congruent(y, x, m)
  {
    DividesLinear(x - y, 0, -1, m);
  }

  /** Congruence is kept by multiplication. */
  lemma CongruentMul(a: int, b: int, c: int, d: int, m: int)
    requires m > 0 && Congruent(a, b, m) && Congruent(c, d, m)
    ensures Congruent(a * c, b * d, m)
  {
    DividesLinear(a - b, 0, d, m);
    DividesLinear(c - d, d * (a - b), a, m);
    assert a * (c - d) + d * (a - b) == a * c - b * d;
  }

  /** Rust's remainder is congruent to its dividend. */
  lemma RemIsCongruent(a: int, m: int)
    requires m > 0
    ensures Congruent(Rem(a, m), a, m)
  {
    RemCongruent(a, m);
  }

  /** Congruence is kept by powers. */
  lemma {:induction false} PowCongruent(a: int, b: int, k: nat, m: int)
    requires m > 0 && Congruent(a, b, m)
    ensures Congruent(Pow(a, k), Pow(b, k), m)
  {
    if k > 0 {
      PowCongruent(a, b, k - 1, m);
      CongruentMul(a, b, Pow(a, k - 1), Pow(b, k - 1), m);
    }
  }

  /** Squaring the base halves the exponent. */
  lemma {:induction false} PowSquare(x: int, k: nat)
    ensures Pow(x * x, k) == Pow(x, 2 * k)
  {
    if k > 0 {
      PowSquare(x, k - 1);
      assert Pow(x, 2 * k) == x * (x * Pow(x, 2 * k - 2));
    }
  }

  /** The one remainder in `[0, m)` congruent to `x` is `x % m`. */
  lemma CongruentCanonical(r: int, x: int, m: int)
    requires m > 0 && 0 <= r < m && Congruent(r, x, m)
    ensures r == x % m
  {
    var q := (r - x) / m;
    assert r - x == q * m;
    DivModUnique(x, -q, r, m);
  }

  /** Congruence is kept by addition. */
  lemma CongruentAdd(a: int, b: int, c: int, d: int, m: int)
    requires m > 0 && Congruent(a, b, m) && Congruent(c, d, m)
    ensures Congruent(a + c, b + d, m)
  {
    DividesLinear(a - b, c - d, 1, m);
  }
}
