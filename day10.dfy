/**
 * Day 10, "Monitoring Station": asteroids on a grid, the slopes from one
 * asteroid to the others, the station that sees the most asteroids, and
 * the order in which a rotating laser vaporizes them.
 *
 * `Slope::angle` is floating point (`atan2`); the vaporize order takes the
 * resulting order of slopes as a parameter instead.
 */
module Day10 {
  import opened RustInt
  import opened Text

  datatype Point = Point(x: int, y: int)

  datatype Slope = Slope(x: int, y: int)

  const Origin := Point(0, 0)

  /** `b - a`. */
  function Sub(b: Point, a: Point): Point
  {
    Point(b.x - a.x, b.y - a.y)
  }

  /** The point `k` steps of slope `s` away from the origin. */
  function Scale(s: Slope, k: int): Point
  {
    Point(s.x * k, s.y * k)
  }

  function Cross(a: Point, b: Point): int
  {
    a.x * b.y - a.y * b.x
  }

  function Dot(a: Point, b: Point): int
  {
    a.x * b.x + a.y * b.y
  }

  /** `a` and `b` lie on the same ray from the origin. */
  predicate SameRay(a: Point, b: Point)
  {
    Cross(a, b) == 0 && Dot(a, b) > 0
  }

  /** A slope in lowest terms: a unit step along an axis, or coprime components. */
  predicate Reduced(s: Slope)
  {
    (s.y == 0 && (s.x == 1 || s.x == -1))
    || (s.x == 0 && (s.y == 1 || s.y == -1))
    || (s.x != 0 && s.y != 0 && Gcd(s.x, s.y) == 1)
  }

  // ---------------------------------------------------------------------
  // Number theory for slopes

  /** Rust's `/` by an exact divisor is exact. */
  lemma DivExact(a: int, d: int)
    requires d > 0 && a % d == 0
    ensures Div(a, d) * d == a
  {
    NegMod(a);
    if a < 0 {
      assert (-a) == ((-a) / d) * d + (-a) % d;
    }
  }

  lemma Factor(a: int, g: int)
    requires g > 0 && a % g == 0
    ensures a == (a / g) * g
  {
  }

  lemma MulAssoc(a: int, b: int, c: int)
    ensures (a * b) * c == a * (b * c)
  {
  }

  /** Multiplying by a positive number keeps a strict order. */
  lemma MulMono(a: int, b: int, d: int)
    requires d > 0 && a < b
    ensures a * d < b * d
  {
    MulBound(b - a, d);
    assert b * d - a * d == (b - a) * d;
  }

  /** Dividing both components by their gcd leaves coprime components. */
  lemma ReducedByGcd(c: Point, d: nat)
    requires c.x != 0 && c.y != 0 && d == Gcd(c.x, c.y)
    ensures d > 0 && Div(c.x, d) * d == c.x && Div(c.y, d) * d == c.y
    ensures Reduced(Slope(Div(c.x, d), Div(c.y, d)))
  {
    DivExact(c.x, d);
    DivExact(c.y, d);
    var sx, sy := Div(c.x, d), Div(c.y, d);
    assert sx != 0 && sy != 0;
    var g := Gcd(sx, sy);
    var gd := g * d;
    PositiveProduct(g, d);
    CommonFactor(c.x, sx, g, d);
    CommonFactor(c.y, sy, g, d);
    assert d % gd == 0;
    var m := d / gd;
    Factor(d, gd);
    MulBound(m, gd);
    assert m >= 1;
    assert g <= 1 by {
      if g >= 2 {
        MulMono(1, g, d);
      }
    }
  }

  /** If `g` divides `s` then `g * d` divides `s * d`. */
  lemma CommonFactor(c: int, s: int, g: int, d: int)
    requires g > 0 && d > 0 && s % g == 0 && c == s * d
    ensures c % (g * d) == 0
  {
    Factor(s, g);
    var q := s / g;
    MulAssoc(q, g, d);
    PositiveProduct(g, d);
    MultipleMod(q, g * d);
  }

  /** Scaling both arguments scales Euclid's gcd. */
  lemma {:induction false} GcdNatScale(a: nat, b: nat, c: nat)
    ensures GcdNat(a * c, b * c) == GcdNat(a, b) * c
    decreases b
  {
    if b > 0 && c > 0 {
      var q, r := a / b, a % b;
      assert a * c == q * (b * c) + r * c;
      assert 0 <= r * c < b * c by {
        assert (b - r) * c > 0 by {
          MulBound(b - r, c);
        }
      }
      DivModUnique(a * c, q, r * c, b * c);
      GcdNatScale(b, r, c);
    } else if b == 0 {
      assert b * c == 0;
    } else {
      assert a * c == 0 && b * c == 0;
      GcdNatZero(a, b);
    }
  }

  lemma {:induction false} GcdNatZero(a: nat, b: nat)
    ensures GcdNat(a, b) * 0 == GcdNat(0, 0)
  {
  }

  /** Euclid's lemma: a number coprime to `b` that divides `b * c` divides `c`. */
  lemma Euclid(a: nat, b: nat, c: nat)
    requires a > 0 && GcdNat(a, b) == 1 && (b * c) % a == 0
    ensures c % a == 0
  {
    GcdCoprimeScale(a, b, c);
    SelfMultiple(a, c);
    CommonDivisor(a * c, b * c, a);
  }

  lemma GcdCoprimeScale(a: nat, b: nat, c: nat)
    requires GcdNat(a, b) == 1
    ensures GcdNat(a * c, b * c) == c
  {
    GcdNatScale(a, b, c);
  }

  lemma SelfMultiple(a: nat, c: nat)
    requires a > 0
    ensures (a * c) % a == 0
  {
    MultipleMod(c, a);
    assert a * c == c * a;
  }

  lemma CommonDivisor(x: nat, y: nat, a: nat)
    requires a > 0 && x % a == 0 && y % a == 0
    ensures GcdNat(x, y) % a == 0
  {
    GcdNatIsGreatest(x, y);
  }

  /** Two positive numbers that divide each other are equal. */
  lemma MutualDivisors(a: nat, b: nat)
    requires a > 0 && b > 0 && b % a == 0 && a % b == 0
    ensures a == b
  {
    var p, q := b / a, a / b;
    assert b == p * a && a == q * b;
    MulBound(p, a);
    MulBound(q, b);
  }

  lemma AbsMul(a: int, b: int)
    ensures Abs(a * b) == Abs(a) * Abs(b)
  {
    if a < 0 && b < 0 {
      assert a * b == (-a) * (-b);
    } else if a < 0 {
      assert -(a * b) == (-a) * b;
    } else if b < 0 {
      assert -(a * b) == a * (-b);
    }
  }

  /** Two reduced slopes on the same ray are the same slope. */
  lemma ReducedUnique(s: Slope, t: Slope)
    requires Reduced(s) && Reduced(t)
    requires s.x * t.y == s.y * t.x && s.x * t.x + s.y * t.y > 0
    ensures s == t
  {
    if s.x != 0 && s.y != 0 && t.x != 0 && t.y != 0 {
      var a, b, a', b' := Abs(s.x), Abs(s.y), Abs(t.x), Abs(t.y);
      AbsMul(s.x, t.y);
      AbsMul(s.y, t.x);
      assert a * b' == b * a';
      MultipleMod(b', a);
      assert (b * a') % a == 0 by {
        assert a * b' == b' * a;
      }
      Euclid(a, b, a');
      MultipleMod(b, a');
      assert (b' * a) % a' == 0 by {
        assert b' * a == b * a';
        assert b * a' == b * a';
      }
      Euclid(a', b', a);
      MutualDivisors(a, a');
      SameAbsolute(s, t, a, b, b');
    }
  }

  lemma SameAbsolute(s: Slope, t: Slope, a: nat, b: nat, b': nat)
    requires a == Abs(s.x) == Abs(t.x) > 0 && b == Abs(s.y) > 0 && b' == Abs(t.y) > 0
    requires s.x * t.y == s.y * t.x && s.x * t.x + s.y * t.y > 0
    requires a * b' == b * a
    ensures s == t
  {
    assert b' == b;
    assert t.x == s.x;
    assert t.y == s.y;
  }

  // ---------------------------------------------------------------------
  // Slopes

  /** `slope_with_d`, as written: an axis-aligned offset keeps its sign in `d`. */
  function SlopeWithD(c: Point): (r: (Slope, int))
    ensures c == Origin ==> r == (Slope(0, 0), 0)
    ensures c != Origin ==> Reduced(r.0) && c == Scale(r.0, Abs(r.1)) && r.1 != 0
    ensures c.x != 0 && c.y != 0 ==> r.1 == Gcd(c.x, c.y) > 0
    ensures c.x == 0 || c.y == 0 ==> r.1 == c.x + c.y
  {
    if c.x == 0 && c.y == 0 then (Slope(0, 0), 0)
    else if c.y == 0 then (Slope(Signum(c.x), 0), c.x)
    else if c.x == 0 then (Slope(0, Signum(c.y)), c.y)
    else
      var d := Gcd(c.x, c.y);
      ReducedByGcd(c, d);
      (Slope(Div(c.x, d), Div(c.y, d)), d)
  }

  /** `Slope::from(Coord2D)`. */
  function Direction(c: Point): Slope
  {
    SlopeWithD(c).0
  }

  /** Two offsets share a slope exactly when they lie on the same ray. */
  lemma DirectionIsRay(c: Point, e: Point)
    requires c != Origin && e != Origin
    ensures Direction(c) == Direction(e) <==> SameRay(c, e)
  {
    var s, k := Direction(c), Abs(SlopeWithD(c).1);
    var t, m := Direction(e), Abs(SlopeWithD(e).1);
    assert c == Scale(s, k) && e == Scale(t, m) && k > 0 && m > 0;
    if s == t {
      SharedSlopeSameRay(s, k, m);
    }
    if SameRay(c, e) {
      SameRaySharedSlope(s, t, k, m);
    }
  }

  lemma SharedSlopeSameRay(s: Slope, k: int, m: int)
    requires k > 0 && m > 0 && (s.x != 0 || s.y != 0)
    ensures SameRay(Scale(s, k), Scale(s, m))
  {
    ScaleProducts(s, s, k, m);
    PositiveProduct(k, m);
    assert s.x * s.x + s.y * s.y > 0 by {
      if s.x != 0 {
        PositiveProduct(Abs(s.x), Abs(s.x));
        AbsMul(s.x, s.x);
      } else {
        PositiveProduct(Abs(s.y), Abs(s.y));
        AbsMul(s.y, s.y);
      }
    }
    PositiveProduct(k * m, s.x * s.x + s.y * s.y);
  }

  lemma SameRaySharedSlope(s: Slope, t: Slope, k: int, m: int)
    requires k > 0 && m > 0 && Reduced(s) && Reduced(t)
    requires SameRay(Scale(s, k), Scale(t, m))
    ensures s == t
  {
    ScaleProducts(s, t, k, m);
    PositiveProduct(k, m);
    SignOfProduct(k * m, s.x * t.y - s.y * t.x, s.x * t.x + s.y * t.y);
    ReducedUnique(s, t);
  }

  lemma ScaleProducts(s: Slope, t: Slope, k: int, m: int)
    ensures Cross(Scale(s, k), Scale(t, m)) == (k * m) * (s.x * t.y - s.y * t.x)
    ensures Dot(Scale(s, k), Scale(t, m)) == (k * m) * (s.x * t.x + s.y * t.y)
  {
    assert (s.x * k) * (t.y * m) == (k * m) * (s.x * t.y);
    assert (s.y * k) * (t.x * m) == (k * m) * (s.y * t.x);
    assert (s.x * k) * (t.x * m) == (k * m) * (s.x * t.x);
    assert (s.y * k) * (t.y * m) == (k * m) * (s.y * t.y);
  }

  lemma PositiveProduct(a: int, b: int)
    requires a > 0 && b > 0
    ensures a * b > 0
  {
    MulBound(b, a);
  }

  lemma SignOfProduct(k: int, x: int, y: int)
    requires k > 0 && k * x == 0 && k * y > 0
    ensures x == 0 && y > 0
  {
    MulBound(x, k);
    MulBound(y, k);
  }

  /**
   * The farther of two asteroids on the same negative axis gets the
   * smaller `d`, so it sorts first in its slope group: with the station at
   * the origin, (-2, 0) gets d = -2 and (-1, 0) gets d = -1.
   */
  lemma AxisKeyReversed(n: int, m: int)
    requires n < m < 0
    ensures Direction(Point(n, 0)) == Direction(Point(m, 0))
    ensures Abs(n) > Abs(m) && SlopeWithD(Point(n, 0)).1 < SlopeWithD(Point(m, 0)).1
    ensures Direction(Point(0, n)) == Direction(Point(0, m))
    ensures SlopeWithD(Point(0, n)).1 < SlopeWithD(Point(0, m)).1
  {
  }

  /** `slope_with_d` with the distance multiple `d` always positive. */
  function SlopeWithDist(c: Point): (r: (Slope, nat))
    ensures r.0 == Direction(c)
    ensures c == Scale(r.0, r.1)
    ensures r.1 == 0 <==> c == Origin
  {
    var (s, d) := SlopeWithD(c);
    (s, Abs(d))
  }

  /** The slopes of the three sample offsets. */
  lemma SlopeExamples()
    ensures Direction(Point(5, 5)) == Slope(1, 1)
    ensures Direction(Point(-5, 0)) == Slope(-1, 0)
    ensures Direction(Point(12, -10)) == Slope(6, -5)
  {
    assert GcdNat(5, 5) == 5 by {
      assert GcdNat(5, 0) == 5;
    }
    assert GcdNat(12, 10) == 2 by {
      assert GcdNat(2, 0) == 2;
      assert GcdNat(10, 2) == 2;
    }
  }

  /** Manhattan length. */
  function Norm(c: Point): nat
  {
    Abs(c.x) + Abs(c.y)
  }

  lemma ScaleNorm(s: Slope, k: nat)
    ensures Norm(Scale(s, k)) == k * (Abs(s.x) + Abs(s.y))
  {
    var p := Scale(s, k);
    AbsMul(s.x, k);
    AbsMul(s.y, k);
    Distrib(Abs(s.x), Abs(s.y), k);
  }

  lemma Distrib(a: int, b: int, k: int)
    ensures a * k + b * k == k * (a + b)
  {
  }

  /** On one slope, a smaller distance multiple means a nearer asteroid. */
  lemma NearerFirst(c: Point, e: Point)
    requires c != Origin && e != Origin && Direction(c) == Direction(e)
    ensures SlopeWithDist(c).1 < SlopeWithDist(e).1 <==> Norm(c) < Norm(e)
  {
    var s, k, m := Direction(c), SlopeWithDist(c).1, SlopeWithDist(e).1;
    ScaleNorm(s, k);
    ScaleNorm(s, m);
    var n := Abs(s.x) + Abs(s.y);
    assert n > 0;
    if k < m {
      MulMono(k, m, n);
    } else if m < k {
      MulMono(m, k, n);
    }
  }

  // ---------------------------------------------------------------------
  // The best station

  /** The slopes from `a` to every other asteroid. */
  function Seen(roids: set<Point>, a: Point): set<Slope>
  {
    set b | b in roids && b != a :: Direction(Sub(b, a))
  }

  lemma {:induction false} SeenBound(roids: set<Point>, a: Point)
    ensures |Seen(roids, a)| <= |roids - {a}|
    decreases |roids|
  {
    if b :| b in roids && b != a {
      var rest := roids - {b};
      SeenBound(rest, a);
      assert Seen(roids, a) == Seen(rest, a) + {Direction(Sub(b, a))};
      assert roids - {a} == (rest - {a}) + {b};
    } else {
      assert Seen(roids, a) == {};
    }
  }

  /** Asteroid `a` sees at most every other asteroid, one per slope. */
  lemma VisibleBound(roids: set<Point>, a: Point)
    requires a in roids
    ensures |Seen(roids, a)| <= |roids| - 1
  {
    SeenBound(roids, a);
  }

  /** Another asteroid `b` is hidden behind `c` exactly when both lie on one ray from `a`. */
  lemma SeenIsRays(a: Point, b: Point, c: Point)
    requires b != a && c != a
    ensures Direction(Sub(b, a)) == Direction(Sub(c, a)) <==> SameRay(Sub(b, a), Sub(c, a))
  {
    DirectionIsRay(Sub(b, a), Sub(c, a));
  }

  /** How many asteroids `a` sees, one per slope, with `roids` listing the set. */
  function Visible(roids: seq<Point>, a: Point): nat
  {
    |Seen((set b | b in roids), a)|
  }

  /**
   * `find_best` over the first `n` asteroids in the set's iteration order:
   * `max_by_key` keeps the last of several maxima.
   */
  function FindBest(roids: seq<Point>, n: nat): Option<(Point, nat)>
    requires n <= |roids|
  {
    MaxByKey(roids, Scores(roids), n)
  }

  /** Each asteroid's count of visible asteroids, in the set's order. */
  function Scores(roids: seq<Point>): (s: seq<nat>)
    ensures |s| == |roids| && forall i :: 0 <= i < |roids| ==> s[i] == Visible(roids, roids[i])
  {
    seq(|roids|, i requires 0 <= i < |roids| => Visible(roids, roids[i]))
  }

  /** `max_by_key` over the first `n` points with their scores: ties go to the later point. */
  function MaxByKey(pts: seq<Point>, scores: seq<nat>, n: nat): Option<(Point, nat)>
    requires n <= |pts| == |scores|
  {
    if n == 0 then None
    else
      var prev := MaxByKey(pts, scores, n - 1);
      if prev.None? || scores[n - 1] >= prev.value.1 then Some((pts[n - 1], scores[n - 1])) else prev
  }

  /**
   * Point `i` with its score is the answer among the first `n`: no point
   * scores more, and every later one scores less.
   */
  predicate BestAt(pts: seq<Point>, scores: seq<nat>, n: nat, i: nat, best: (Point, nat))
    requires i < n <= |pts| == |scores|
  {
    pts[i] == best.0
    && best.1 == scores[i]
    && (forall j | 0 <= j < n :: scores[j] <= best.1)
    && (forall j | i < j < n :: scores[j] < best.1)
  }

  lemma {:induction false} MaxByKeyMeaning(pts: seq<Point>, scores: seq<nat>, n: nat)
    requires n <= |pts| == |scores|
    ensures MaxByKey(pts, scores, n).None? <==> n == 0
    ensures MaxByKey(pts, scores, n).Some? ==> exists i | 0 <= i < n :: BestAt(pts, scores, n, i, MaxByKey(pts, scores, n).value)
  {
    if n > 0 {
      MaxByKeyMeaning(pts, scores, n - 1);
      var prev := MaxByKey(pts, scores, n - 1);
      if prev.Some? {
        var i :| 0 <= i < n - 1 && BestAt(pts, scores, n - 1, i, prev.value);
        if scores[n - 1] >= prev.value.1 {
          assert BestAt(pts, scores, n, n - 1, (pts[n - 1], scores[n - 1]));
        } else {
          assert BestAt(pts, scores, n, i, prev.value);
        }
      } else {
        assert BestAt(pts, scores, n, n - 1, (pts[n - 1], scores[n - 1]));
      }
    }
  }

  /** The search finds nothing only among no asteroids, and otherwise the last asteroid that sees the most. */
  lemma FindBestMeaning(roids: seq<Point>, n: nat)
    requires n <= |roids|
    ensures FindBest(roids, n).None? <==> n == 0
    ensures FindBest(roids, n).Some? ==> exists i | 0 <= i < n ::
      roids[i] == FindBest(roids, n).value.0
      && FindBest(roids, n).value.1 == Visible(roids, roids[i])
      && (forall j | 0 <= j < n :: Visible(roids, roids[j]) <= FindBest(roids, n).value.1)
      && (forall j | i < j < n :: Visible(roids, roids[j]) < FindBest(roids, n).value.1)
  {
    var scores := Scores(roids);
    MaxByKeyMeaning(roids, scores, n);
    if n > 0 {
      var i :| 0 <= i < n && BestAt(roids, scores, n, i, FindBest(roids, n).value);
    }
  }

  // ---------------------------------------------------------------------
  // The vaporize order

  /** The slope from the station `c` to `p`. */
  function Bearing(p: Point, c: Point): Slope
  {
    Direction(Sub(p, c))
  }

  /** How many steps of its slope `p` lies from the station `c`. */
  function Steps(p: Point, c: Point): nat
  {
    SlopeWithDist(Sub(p, c)).1
  }

  /** Bearing and steps together locate an asteroid. */
  lemma SameKey(p: Point, q: Point, c: Point)
    requires Bearing(p, c) == Bearing(q, c) && Steps(p, c) == Steps(q, c)
    ensures p == q
  {
    assert Sub(p, c) == Sub(q, c);
  }

  predicate Distinct<T(==)>(s: seq<T>)
  {
    forall i, j | 0 <= i < j < |s| :: s[i] != s[j]
  }

  /** The asteroids other than the station, in listing order. */
  function Others(roids: seq<Point>, c: Point): (r: seq<Point>)
    ensures forall p :: p in r <==> p in roids && p != c
  {
    if |roids| == 0 then []
    else
      var init := roids[..|roids| - 1];
      var last := roids[|roids| - 1];
      assert roids == init + [last];
      Others(init, c) + (if last != c then [last] else [])
  }

  /** The position of `s` in `order`: the key lookup of the grouping map. */
  function IndexOf(order: seq<Slope>, s: Slope): (r: nat)
    requires s in order
    ensures r < |order| && order[r] == s
  {
    if order[0] == s then 0 else 1 + IndexOf(order[1..], s)
  }

  /** All groups one after the other. */
  function Flatten(gs: seq<seq<Point>>): seq<Point>
  {
    if |gs| == 0 then [] else gs[0] + Flatten(gs[1..])
  }

  lemma Shift(x: multiset<Point>, a: multiset<Point>, b: multiset<Point>, c: multiset<Point>, d: multiset<Point>)
    requires a + b == c + d
    ensures (x + a) + b == (x + c) + d
  {
    forall q
      ensures ((x + a) + b)[q] == ((x + c) + d)[q]
    {
      assert (a + b)[q] == (c + d)[q];
    }
  }

  lemma {:induction false} FlattenUpdate(gs: seq<seq<Point>>, i: nat, g: seq<Point>)
    requires i < |gs|
    ensures multiset(Flatten(gs[i := g])) + multiset(gs[i]) == multiset(Flatten(gs)) + multiset(g)
  {
    var gs' := gs[i := g];
    if i > 0 {
      var tl, tl' := gs[1..], gs'[1..];
      FlattenUpdate(tl, i - 1, g);
      assert tl' == tl[i - 1 := g] && tl[i - 1] == gs[i];
      assert multiset(Flatten(gs')) == multiset(gs[0]) + multiset(Flatten(tl')) by {
        assert Flatten(gs') == gs[0] + Flatten(tl');
      }
      assert multiset(Flatten(gs)) == multiset(gs[0]) + multiset(Flatten(tl)) by {
        assert Flatten(gs) == gs[0] + Flatten(tl);
      }
      Shift(multiset(gs[0]), multiset(Flatten(tl')), multiset(gs[i]), multiset(Flatten(tl)), multiset(g));
    } else {
      assert gs'[1..] == gs[1..];
    }
  }

  lemma {:induction false} FlattenMember(gs: seq<seq<Point>>, i: nat, p: Point)
    requires i < |gs| && p in gs[i]
    ensures p in Flatten(gs)
  {
    if i > 0 {
      FlattenMember(gs[1..], i - 1, p);
    }
  }

  lemma {:induction false} FlattenEmpty(gs: seq<seq<Point>>)
    requires forall i | 0 <= i < |gs| :: |gs[i]| == 0
    ensures Flatten(gs) == []
  {
    if |gs| > 0 {
      FlattenEmpty(gs[1..]);
    }
  }

  lemma {:induction false} FlattenAppend(gs: seq<seq<Point>>, g: seq<Point>)
    ensures Flatten(gs + [g]) == Flatten(gs) + g
  {
    if |gs| > 0 {
      assert (gs + [g])[1..] == gs[1..] + [g];
      FlattenAppend(gs[1..], g);
    } else {
      assert Flatten([g]) == g + Flatten([]);
    }
  }

  /** A group of the map: nearer asteroids first. */
  predicate Ascending(g: seq<Point>, c: Point)
  {
    forall i, j | 0 <= i < j < |g| :: Steps(g[i], c) < Steps(g[j], c)
  }

  /** `BTreeSet::insert` keyed on the steps from the station. */
  function Place(p: Point, g: seq<Point>, c: Point): (r: seq<Point>)
    requires Ascending(g, c)
    requires forall q | q in g :: Steps(q, c) != Steps(p, c)
    ensures Ascending(r, c) && multiset(r) == multiset(g) + multiset{p}
  {
    if |g| == 0 || Steps(p, c) < Steps(g[0], c) then
      PlaceFirst(p, g, c);
      [p] + g
    else
      assert g[0] in g;
      assert forall q | q in g[1..] :: q in g;
      var rest := Place(p, g[1..], c);
      PlaceLater(p, g, rest, c);
      [g[0]] + rest
  }

  lemma PlaceFirst(p: Point, g: seq<Point>, c: Point)
    requires Ascending(g, c) && (|g| == 0 || Steps(p, c) < Steps(g[0], c))
    ensures Ascending([p] + g, c)
  {
  }

  lemma PlaceLater(p: Point, g: seq<Point>, rest: seq<Point>, c: Point)
    requires Ascending(g, c) && |g| > 0 && Steps(g[0], c) < Steps(p, c)
    requires Ascending(rest, c) && multiset(rest) == multiset(g[1..]) + multiset{p}
    ensures Ascending([g[0]] + rest, c) && multiset([g[0]] + rest) == multiset(g) + multiset{p}
  {
    assert g == [g[0]] + g[1..];
    forall i | 0 <= i < |rest|
      ensures Steps(g[0], c) < Steps(rest[i], c)
    {
      assert rest[i] in multiset(rest);
      if rest[i] != p {
        assert rest[i] in g[1..];
      }
    }
  }

  /**
   * Group `i` holds the asteroids of slope `order[i]`, nearest first. The
   * slope order is the caller's: `GroupedUnique` and `BothParts` take it as
   * a list of distinct slopes standing for the angle order, so the laser
   * order is fixed only relative to it.
   */
  predicate Grouped(gs: seq<seq<Point>>, order: seq<Slope>, c: Point)
  {
    |gs| == |order|
    && (forall i | 0 <= i < |gs| :: Ascending(gs[i], c))
    && (forall i, j | 0 <= i < |gs| && 0 <= j < |gs[i]| :: Bearing(gs[i][j], c) == order[i])
  }

  /** Placing an asteroid of slope `order[i]` into group `i` keeps the groups well formed. */
  lemma GroupedPlace(gs: seq<seq<Point>>, order: seq<Slope>, c: Point, i: nat, p: Point, g: seq<Point>)
    requires Grouped(gs, order, c) && i < |gs| && Bearing(p, c) == order[i]
    requires Ascending(g, c) && multiset(g) == multiset(gs[i]) + multiset{p}
    ensures Grouped(gs[i := g], order, c)
  {
    forall j | 0 <= j < |g|
      ensures Bearing(g[j], c) == order[i]
    {
      assert g[j] in multiset(g);
      if g[j] != p {
        assert g[j] in gs[i];
      }
    }
  }

  /** An asteroid not yet grouped differs in steps from every asteroid of its slope. */
  lemma NewSteps(gs: seq<seq<Point>>, order: seq<Slope>, c: Point, i: nat, p: Point)
    requires Grouped(gs, order, c) && i < |gs| && Bearing(p, c) == order[i]
    requires p !in Flatten(gs)
    ensures forall q | q in gs[i] :: Steps(q, c) != Steps(p, c)
  {
    forall q | q in gs[i]
      ensures Steps(q, c) != Steps(p, c)
    {
      FlattenMember(gs, i, q);
      if Steps(q, c) == Steps(p, c) {
        SameKey(p, q, c);
      }
    }
  }

  /** The grouping loop's state after the first `k` asteroids. */
  ghost predicate GroupedUpTo(roids: seq<Point>, c: Point, order: seq<Slope>, k: nat, gs: seq<seq<Point>>)
  {
    k <= |roids| && Grouped(gs, order, c) && multiset(Flatten(gs)) == multiset(Others(roids[..k], c))
  }

  lemma GroupSkip(roids: seq<Point>, c: Point, order: seq<Slope>, k: nat, gs: seq<seq<Point>>)
    requires GroupedUpTo(roids, c, order, k, gs) && k < |roids| && roids[k] == c
    ensures GroupedUpTo(roids, c, order, k + 1, gs)
  {
    assert roids[..k + 1] == roids[..k] + [c];
  }

  /** The next asteroid is new to its group. */
  lemma GroupFresh(roids: seq<Point>, c: Point, order: seq<Slope>, k: nat, gs: seq<seq<Point>>, i: nat)
    requires Distinct(roids) && GroupedUpTo(roids, c, order, k, gs) && k < |roids|
    requires i < |order| && order[i] == Bearing(roids[k], c)
    ensures forall q | q in gs[i] :: Steps(q, c) != Steps(roids[k], c)
  {
    var p := roids[k];
    assert p !in roids[..k];
    assert p !in multiset(Flatten(gs));
    NewSteps(gs, order, c, i, p);
  }

  lemma GroupAdd(roids: seq<Point>, c: Point, order: seq<Slope>, k: nat, gs: seq<seq<Point>>, i: nat, g: seq<Point>)
    requires GroupedUpTo(roids, c, order, k, gs) && k < |roids| && roids[k] != c
    requires i < |order| && order[i] == Bearing(roids[k], c)
    requires Ascending(g, c) && multiset(g) == multiset(gs[i]) + multiset{roids[k]}
    ensures GroupedUpTo(roids, c, order, k + 1, gs[i := g])
  {
    var p := roids[k];
    assert Others(roids[..k + 1], c) == Others(roids[..k], c) + [p] by {
      assert roids[..k + 1][..k] == roids[..k];
    }
    FlattenUpdate(gs, i, g);
    Cancel(multiset(Flatten(gs[i := g])), multiset(gs[i]), multiset(Flatten(gs)), p);
    GroupedPlace(gs, order, c, i, p, g);
  }

  lemma Cancel(a: multiset<Point>, b: multiset<Point>, f: multiset<Point>, p: Point)
    requires a + b == f + (b + multiset{p})
    ensures a == f + multiset{p}
  {
    forall q
      ensures a[q] == (f + multiset{p})[q]
    {
      assert (a + b)[q] == (f + (b + multiset{p}))[q];
    }
  }

  /**
   * The grouping loop of `vaporize`: every asteroid but the station goes
   * into the group of its slope.
   */
  method Group(roids: seq<Point>, c: Point, order: seq<Slope>) returns (gs: seq<seq<Point>>)
    requires Distinct(roids)
    requires forall p | p in roids && p != c :: Bearing(p, c) in order
    ensures Grouped(gs, order, c)
    ensures multiset(Flatten(gs)) == multiset(Others(roids, c))
  {
    gs := seq(|order|, _ => []);
    FlattenEmpty(gs);
    var k := 0;
    while k < |roids|
      invariant GroupedUpTo(roids, c, order, k, gs)
    {
      var p := roids[k];
      if p != c {
        var i := IndexOf(order, Bearing(p, c));
        GroupFresh(roids, c, order, k, gs, i);
        var g := Place(p, gs[i], c);
        GroupAdd(roids, c, order, k, gs, i, g);
        gs := gs[i := g];
      } else {
        GroupSkip(roids, c, order, k, gs);
      }
      k := k + 1;
    }
    assert roids[..k] == roids;
  }

  /** Every vaporized asteroid is nearer than anything left on its slope. */
  predicate Ahead(out: seq<Point>, gs: seq<seq<Point>>, order: seq<Slope>, c: Point)
    requires |gs| == |order|
  {
    forall a, i, j | 0 <= a < |out| && 0 <= i < |gs| && 0 <= j < |gs[i]| && Bearing(out[a], c) == order[i]
      :: Steps(out[a], c) < Steps(gs[i][j], c)
  }

  /** Along each slope, nearer asteroids come first. */
  predicate NearestFirst(out: seq<Point>, c: Point)
  {
    forall a, b | 0 <= a < b < |out| && Bearing(out[a], c) == Bearing(out[b], c)
      :: Steps(out[a], c) < Steps(out[b], c)
  }

  /** One turn of the laser meets the slopes in `order`, each at most once. */
  predicate Clockwise(turn: seq<Point>, order: seq<Slope>, c: Point)
  {
    forall a, b, i, k | 0 <= a < b < |turn| && 0 <= i < |order| && 0 <= k < |order|
      && order[i] == Bearing(turn[a], c) && order[k] == Bearing(turn[b], c) :: i < k
  }

  /** Pass `k` of the laser over the first `j` groups: the asteroid `k` places along each slope that has one, in slope order. */
  function LayerUpTo(gs: seq<seq<Point>>, k: nat, j: nat): seq<Point>
    requires j <= |gs|
  {
    if j == 0 then []
    else LayerUpTo(gs, k, j - 1) + (if k < |gs[j - 1]| then [gs[j - 1][k]] else [])
  }

  /** Pass `k` of the laser over all groups. */
  function Layer(gs: seq<seq<Point>>, k: nat): seq<Point>
  {
    LayerUpTo(gs, k, |gs|)
  }

  /** The length of the longest of the first `j` groups. */
  function MaxLenUpTo(gs: seq<seq<Point>>, j: nat): nat
    requires j <= |gs|
  {
    if j == 0 then 0
    else
      var n := MaxLenUpTo(gs, j - 1);
      if |gs[j - 1]| > n then |gs[j - 1]| else n
  }

  /** The length of the longest group. */
  function MaxLen(gs: seq<seq<Point>>): nat
  {
    MaxLenUpTo(gs, |gs|)
  }

  /** A pass finds something exactly while some group is long enough. */
  lemma {:induction false} LayerEmptyIff(gs: seq<seq<Point>>, k: nat, j: nat)
    requires j <= |gs|
    ensures LayerUpTo(gs, k, j) == [] <==> MaxLenUpTo(gs, j) <= k
  {
    if j > 0 {
      LayerEmptyIff(gs, k, j - 1);
    }
  }

  /** The laser's passes from pass `k` on, one after the other. */
  function LaserFrom(gs: seq<seq<Point>>, k: nat): seq<Point>
    decreases MaxLen(gs) - k
  {
    if MaxLen(gs) <= k then [] else Layer(gs, k) + LaserFrom(gs, k + 1)
  }

  /** A group after `k` passes: all but its first `k` elements. */
  function Skip(g: seq<Point>, k: nat): seq<Point>
  {
    if k <= |g| then g[k..] else []
  }

  /** The first pass over the groups left after `k` passes is pass `k` over the original groups. */
  lemma {:induction false} LayerSkip(gs0: seq<seq<Point>>, gs: seq<seq<Point>>, k: nat, j: nat)
    requires j <= |gs| == |gs0| && forall i | 0 <= i < |gs| :: gs[i] == Skip(gs0[i], k)
    ensures LayerUpTo(gs, 0, j) == LayerUpTo(gs0, k, j)
  {
    if j > 0 {
      LayerSkip(gs0, gs, k, j - 1);
    }
  }

  /** What a pass leaves of a group: all but its first element. */
  function Tail(g: seq<Point>): seq<Point>
  {
    if |g| == 0 then g else g[1..]
  }

  /** `turn` takes the first element of each non-empty group, in group order. */
  ghost predicate Heads(gs: seq<seq<Point>>, turn: seq<Point>, idx: seq<nat>)
  {
    |idx| == |turn|
    && (forall a | 0 <= a < |idx| :: idx[a] < |gs| && |gs[idx[a]]| > 0 && turn[a] == gs[idx[a]][0])
    && (forall a, b | 0 <= a < b < |idx| :: idx[a] < idx[b])
  }

  /** Moving one element out of a group and onto the vaporized list keeps the total. */
  lemma Transfer(out: multiset<Point>, f: multiset<Point>, f': multiset<Point>, g: multiset<Point>,
                 h: Point, t: multiset<Point>, total: multiset<Point>)
    requires out + f == total && f' + g == f + t && g == multiset{h} + t
    ensures (out + multiset{h}) + f' == total
  {
    forall q
      ensures ((out + multiset{h}) + f')[q] == total[q]
    {
      assert (out + f)[q] == total[q];
      assert (f' + g)[q] == (f + t)[q];
    }
  }

  /** The state of a pass that has visited the first `j` groups. */
  ghost predicate Swept(gs: seq<seq<Point>>, j: nat, rest: seq<seq<Point>>, turn: seq<Point>, idx: seq<nat>)
  {
    j <= |gs| && |rest| == |gs|
    && (forall i | 0 <= i < |gs| :: rest[i] == if i < j then Tail(gs[i]) else gs[i])
    && Heads(gs, turn, idx) && (forall a | 0 <= a < |idx| :: idx[a] < j)
    && (forall i | 0 <= i < j && |gs[i]| > 0 :: i in idx)
    && multiset(turn) + multiset(Flatten(rest)) == multiset(Flatten(gs))
  }

  lemma SweepEmpty(gs: seq<seq<Point>>, j: nat, rest: seq<seq<Point>>, turn: seq<Point>, idx: seq<nat>)
    requires Swept(gs, j, rest, turn, idx) && j < |gs| && |gs[j]| == 0
    ensures Swept(gs, j + 1, rest, turn, idx)
  {
  }

  lemma SweepPop(gs: seq<seq<Point>>, j: nat, rest: seq<seq<Point>>, turn: seq<Point>, idx: seq<nat>)
    requires Swept(gs, j, rest, turn, idx) && j < |gs| && |gs[j]| > 0
    ensures Swept(gs, j + 1, rest[j := gs[j][1..]], turn + [gs[j][0]], idx + [j])
  {
    SweepPopHeads(gs, j, turn, idx);
    SweepPopRest(gs, j, rest);
    SweepPopCount(gs, j, rest, turn);
  }

  /** Taking the head of group `j` extends the heads taken so far. */
  lemma SweepPopHeads(gs: seq<seq<Point>>, j: nat, turn: seq<Point>, idx: seq<nat>)
    requires j < |gs| && |gs[j]| > 0 && Heads(gs, turn, idx) && (forall a | 0 <= a < |idx| :: idx[a] < j)
    requires forall i | 0 <= i < j && |gs[i]| > 0 :: i in idx
    ensures Heads(gs, turn + [gs[j][0]], idx + [j])
    ensures forall a | 0 <= a < |idx + [j]| :: (idx + [j])[a] < j + 1
    ensures forall i | 0 <= i < j + 1 && |gs[i]| > 0 :: i in idx + [j]
  {
  }

  /** Moving the head of group `j` to the pass leaves the other groups as they were. */
  lemma SweepPopRest(gs: seq<seq<Point>>, j: nat, rest: seq<seq<Point>>)
    requires j < |gs| == |rest| && |gs[j]| > 0
    requires forall i | 0 <= i < |gs| :: rest[i] == if i < j then Tail(gs[i]) else gs[i]
    ensures forall i | 0 <= i < |gs| :: rest[j := gs[j][1..]][i] == if i < j + 1 then Tail(gs[i]) else gs[i]
  {
  }

  /** Moving the head of group `j` to the pass keeps every asteroid accounted for. */
  lemma SweepPopCount(gs: seq<seq<Point>>, j: nat, rest: seq<seq<Point>>, turn: seq<Point>)
    requires j < |gs| == |rest| && |gs[j]| > 0 && rest[j] == gs[j]
    requires multiset(turn) + multiset(Flatten(rest)) == multiset(Flatten(gs))
    ensures multiset(turn + [gs[j][0]]) + multiset(Flatten(rest[j := gs[j][1..]])) == multiset(Flatten(gs))
  {
    var h, t := gs[j][0], gs[j][1..];
    FlattenUpdate(rest, j, t);
    assert gs[j] == [h] + t;
    Transfer(multiset(turn), multiset(Flatten(rest)), multiset(Flatten(rest[j := t])), multiset(gs[j]),
      h, multiset(t), multiset(Flatten(gs)));
  }

  /** What one pass does: every group loses its first element, which `turn` collects in group order. */
  ghost predicate Popped(gs: seq<seq<Point>>, rest: seq<seq<Point>>, turn: seq<Point>, idx: seq<nat>)
  {
    |rest| == |gs| && (forall i | 0 <= i < |gs| :: rest[i] == Tail(gs[i]))
    && Heads(gs, turn, idx)
    && (forall i | 0 <= i < |gs| && |gs[i]| > 0 :: i in idx)
  }

  /**
   * One pass of the laser over the groups in key order: `pop_first` on
   * every group, collecting what was vaporized.
   */
  method Sweep(gs: seq<seq<Point>>) returns (rest: seq<seq<Point>>, turn: seq<Point>, ghost idx: seq<nat>)
    ensures Popped(gs, rest, turn, idx)
    ensures multiset(turn) + multiset(Flatten(rest)) == multiset(Flatten(gs))
  {
    rest, turn, idx := gs, [], [];
    var j := 0;
    while j < |gs|
      invariant Swept(gs, j, rest, turn, idx)
    {
      if |gs[j]| > 0 {
        SweepPop(gs, j, rest, turn, idx);
        turn, idx := turn + [gs[j][0]], idx + [j];
        rest := rest[j := gs[j][1..]];
      } else {
        SweepEmpty(gs, j, rest, turn, idx);
      }
      j := j + 1;
    }
  }

  /** A pass that vaporizes nothing found every group empty. */
  lemma PoppedNothing(gs: seq<seq<Point>>, rest: seq<seq<Point>>, turn: seq<Point>, idx: seq<nat>)
    requires Popped(gs, rest, turn, idx) && |turn| == 0
    ensures Flatten(gs) == []
  {
    FlattenEmpty(gs);
  }

  /** No group index lies below the first group. */
  lemma BelowNothing(idx: seq<nat>, j: nat)
    requires forall a | 0 <= a < |idx| :: idx[a] < j
    ensures j == 0 ==> idx == []
  {
    if |idx| > 0 {
      assert idx[0] < j;
    }
  }

  /** The heads of the first `j` groups, collected in group order, are the first pass over them. */
  lemma {:induction false} HeadsLayer(gs: seq<seq<Point>>, turn: seq<Point>, idx: seq<nat>, j: nat)
    requires j <= |gs| && Heads(gs, turn, idx)
    requires forall a | 0 <= a < |idx| :: idx[a] < j
    requires forall i | 0 <= i < j && |gs[i]| > 0 :: i in idx
    ensures turn == LayerUpTo(gs, 0, j)
    decreases j
  {
    if j == 0 {
      BelowNothing(idx, j);
    } else if |gs[j - 1]| > 0 {
      var n := |idx|;
      assert j - 1 in idx;
      var a :| 0 <= a < n && idx[a] == j - 1;
      assert idx[n - 1] < j && idx[a] <= idx[n - 1];
      assert idx[n - 1] == j - 1;
      assert turn[n - 1] == gs[j - 1][0];
      assert turn == turn[..n - 1] + [turn[n - 1]];
      HeadsDropLast(gs, turn, idx, j);
      HeadsLayer(gs, turn[..n - 1], idx[..n - 1], j - 1);
    } else {
      forall a | 0 <= a < |idx|
        ensures idx[a] < j - 1
      {
        assert |gs[idx[a]]| > 0;
      }
      HeadsLayer(gs, turn, idx, j - 1);
    }
  }

  /** Without the head of group `j - 1`, the last one taken, the rest are the heads of the first `j - 1` groups. */
  lemma HeadsDropLast(gs: seq<seq<Point>>, turn: seq<Point>, idx: seq<nat>, j: nat)
    requires 0 < j <= |gs| && Heads(gs, turn, idx) && |idx| > 0 && idx[|idx| - 1] == j - 1
    requires forall i | 0 <= i < j && |gs[i]| > 0 :: i in idx
    ensures Heads(gs, turn[..|idx| - 1], idx[..|idx| - 1])
    ensures forall a | 0 <= a < |idx| - 1 :: idx[a] < j - 1
    ensures forall i | 0 <= i < j - 1 && |gs[i]| > 0 :: i in idx[..|idx| - 1]
  {
    var n := |idx|;
    forall i | 0 <= i < j - 1 && |gs[i]| > 0
      ensures i in idx[..n - 1]
    {
      var a :| 0 <= a < n && idx[a] == i;
      assert a != n - 1;
      assert idx[..n - 1][a] == i;
    }
  }

  /** The asteroid taken from group `idx[a]` lies on that group's slope. */
  lemma TurnBearing(gs: seq<seq<Point>>, order: seq<Slope>, c: Point, rest: seq<seq<Point>>, turn: seq<Point>, idx: seq<nat>, a: nat)
    requires Grouped(gs, order, c) && Popped(gs, rest, turn, idx) && a < |turn|
    ensures idx[a] < |order| && Bearing(turn[a], c) == order[idx[a]]
  {
    assert turn[a] == gs[idx[a]][0];
  }

  lemma PoppedGrouped(gs: seq<seq<Point>>, order: seq<Slope>, c: Point, rest: seq<seq<Point>>, turn: seq<Point>, idx: seq<nat>)
    requires Grouped(gs, order, c) && Popped(gs, rest, turn, idx)
    ensures Grouped(rest, order, c)
  {
    forall i, j | 0 <= i < |rest| && 0 <= j < |rest[i]|
      ensures Bearing(rest[i][j], c) == order[i]
    {
      assert rest[i][j] == gs[i][j + 1];
    }
  }

  /** Each pass meets every slope at most once, in key order. */
  lemma PoppedClockwise(gs: seq<seq<Point>>, order: seq<Slope>, c: Point, rest: seq<seq<Point>>, turn: seq<Point>, idx: seq<nat>)
    requires Grouped(gs, order, c) && Distinct(order) && Popped(gs, rest, turn, idx)
    ensures Clockwise(turn, order, c)
  {
    forall a, b, i, k | 0 <= a < b < |turn| && 0 <= i < |order| && 0 <= k < |order|
      && order[i] == Bearing(turn[a], c) && order[k] == Bearing(turn[b], c)
      ensures i < k
    {
      TurnBearing(gs, order, c, rest, turn, idx, a);
      TurnBearing(gs, order, c, rest, turn, idx, b);
    }
  }

  lemma PoppedAhead(out: seq<Point>, gs: seq<seq<Point>>, order: seq<Slope>, c: Point, rest: seq<seq<Point>>, turn: seq<Point>, idx: seq<nat>)
    requires Grouped(gs, order, c) && Distinct(order) && Popped(gs, rest, turn, idx)
    requires Ahead(out, gs, order, c)
    ensures Ahead(out + turn, rest, order, c)
  {
    var all := out + turn;
    forall a, i, j | 0 <= a < |all| && 0 <= i < |rest| && 0 <= j < |rest[i]| && Bearing(all[a], c) == order[i]
      ensures Steps(all[a], c) < Steps(rest[i][j], c)
    {
      assert rest[i][j] == gs[i][j + 1];
      if a >= |out| {
        TurnBearing(gs, order, c, rest, turn, idx, a - |out|);
        assert all[a] == gs[i][0];
      }
    }
  }

  lemma PoppedNearest(out: seq<Point>, gs: seq<seq<Point>>, order: seq<Slope>, c: Point, rest: seq<seq<Point>>, turn: seq<Point>, idx: seq<nat>)
    requires Grouped(gs, order, c) && Distinct(order) && Popped(gs, rest, turn, idx)
    requires Ahead(out, gs, order, c) && NearestFirst(out, c)
    ensures NearestFirst(out + turn, c)
  {
    var all := out + turn;
    TurnBearingsDiffer(gs, order, c, rest, turn, idx);
    forall a, b | 0 <= a < b < |all| && Bearing(all[a], c) == Bearing(all[b], c)
      ensures Steps(all[a], c) < Steps(all[b], c)
    {
      if a < |out| <= b {
        TurnBearing(gs, order, c, rest, turn, idx, b - |out|);
      }
    }
  }

  /** No two asteroids of one pass share a slope. */
  lemma TurnBearingsDiffer(gs: seq<seq<Point>>, order: seq<Slope>, c: Point, rest: seq<seq<Point>>, turn: seq<Point>, idx: seq<nat>)
    requires Grouped(gs, order, c) && Distinct(order) && Popped(gs, rest, turn, idx)
    ensures forall a, b | 0 <= a < b < |turn| :: Bearing(turn[a], c) != Bearing(turn[b], c)
  {
    forall a, b | 0 <= a < b < |turn|
      ensures Bearing(turn[a], c) != Bearing(turn[b], c)
    {
      TurnBearing(gs, order, c, rest, turn, idx, a);
      TurnBearing(gs, order, c, rest, turn, idx, b);
    }
  }

  /** The loop state of `vaporize`. */
  ghost predicate Vaporizing(roids: seq<Point>, c: Point, order: seq<Slope>, gs: seq<seq<Point>>, out: seq<Point>, turns: seq<seq<Point>>)
  {
    Grouped(gs, order, c)
    && multiset(out) + multiset(Flatten(gs)) == multiset(Others(roids, c))
    && Ahead(out, gs, order, c) && NearestFirst(out, c)
    && out == Flatten(turns) && (forall t | t in turns :: Clockwise(t, order, c))
  }

  lemma VaporizeStep(roids: seq<Point>, c: Point, order: seq<Slope>, gs: seq<seq<Point>>, out: seq<Point>, turns: seq<seq<Point>>,
                     rest: seq<seq<Point>>, turn: seq<Point>, idx: seq<nat>)
    requires Distinct(order) && Vaporizing(roids, c, order, gs, out, turns)
    requires Popped(gs, rest, turn, idx) && multiset(turn) + multiset(Flatten(rest)) == multiset(Flatten(gs))
    ensures Vaporizing(roids, c, order, rest, out + turn, turns + [turn])
  {
    PoppedGrouped(gs, order, c, rest, turn, idx);
    PoppedClockwise(gs, order, c, rest, turn, idx);
    PoppedAhead(out, gs, order, c, rest, turn, idx);
    PoppedNearest(out, gs, order, c, rest, turn, idx);
    FlattenAppend(turns, turn);
  }

  /** A pass shortens what is left by what it vaporizes, and finds nothing only once all is gone. */
  lemma PassShrinks(gs: seq<seq<Point>>, rest: seq<seq<Point>>, turn: seq<Point>, idx: seq<nat>)
    requires Popped(gs, rest, turn, idx) && multiset(turn) + multiset(Flatten(rest)) == multiset(Flatten(gs))
    ensures |Flatten(rest)| + |turn| == |Flatten(gs)|
    ensures |turn| == 0 ==> Flatten(gs) == []
  {
    assert |multiset(turn) + multiset(Flatten(rest))| == |multiset(Flatten(gs))|;
    if |turn| == 0 {
      PoppedNothing(gs, rest, turn, idx);
    }
  }

  /**
   * The laser's progress after `k` passes: each group has lost its first
   * `k` asteroids, and `out` followed by the passes still to come (none once
   * a pass has found nothing) is the whole laser order.
   */
  ghost predicate Lasered(groups: seq<seq<Point>>, gs: seq<seq<Point>>, out: seq<Point>, k: nat, removed: bool)
  {
    && |gs| == |groups| && (forall i | 0 <= i < |gs| :: gs[i] == Skip(groups[i], k))
    && out + (if removed then LaserFrom(groups, k) else []) == LaserFrom(groups, 0)
  }

  /** A pass vaporizes pass `k` of the original groups; an empty one ends the laser order. */
  lemma LaserStep(groups: seq<seq<Point>>, gs: seq<seq<Point>>, out: seq<Point>, k: nat,
                  rest: seq<seq<Point>>, turn: seq<Point>, idx: seq<nat>)
    requires Lasered(groups, gs, out, k, true) && Popped(gs, rest, turn, idx)
    ensures turn == Layer(groups, k)
    ensures Lasered(groups, rest, out + turn, k + 1, |turn| > 0)
  {
    HeadsLayer(gs, turn, idx, |gs|);
    LayerSkip(groups, gs, k, |gs|);
    LayerEmptyIff(groups, k, |groups|);
    forall i | 0 <= i < |rest|
      ensures rest[i] == Skip(groups[i], k + 1)
    {
      assert rest[i] == Tail(gs[i]);
    }
    var later := LaserFrom(groups, k + 1);
    if |turn| > 0 {
      assert LaserFrom(groups, k) == turn + later;
      assert out + turn + later == out + (turn + later);
    } else {
      assert LaserFrom(groups, k) == [];
      assert out + turn == out;
    }
  }

  /** The loop state of `vaporize`, with the laser's order so far. */
  ghost predicate Lasering(roids: seq<Point>, c: Point, order: seq<Slope>, groups: seq<seq<Point>>,
                           gs: seq<seq<Point>>, out: seq<Point>, turns: seq<seq<Point>>, k: nat, removed: bool)
  {
    Vaporizing(roids, c, order, gs, out, turns) && Lasered(groups, gs, out, k, removed)
    && (!removed ==> Flatten(gs) == [])
  }

  /** Before the first pass nothing is vaporized and every group is whole. */
  lemma LaserStart(roids: seq<Point>, c: Point, order: seq<Slope>, groups: seq<seq<Point>>)
    requires Grouped(groups, order, c) && multiset(Flatten(groups)) == multiset(Others(roids, c))
    ensures Lasering(roids, c, order, groups, groups, [], [], 0, true)
  {
    assert forall i | 0 <= i < |groups| :: groups[i] == Skip(groups[i], 0);
  }

  /** When a pass vaporizes nothing, the laser's order is complete. */
  lemma LaserDone(roids: seq<Point>, c: Point, order: seq<Slope>, groups: seq<seq<Point>>,
                  gs: seq<seq<Point>>, out: seq<Point>, turns: seq<seq<Point>>, k: nat)
    requires Lasering(roids, c, order, groups, gs, out, turns, k, false)
    ensures out == LaserFrom(groups, 0)
    ensures multiset(out) == multiset(Others(roids, c))
    ensures NearestFirst(out, c)
    ensures out == Flatten(turns) && forall t | t in turns :: Clockwise(t, order, c)
  {
    assert out + [] == out;
  }

  /** One pass of the laser keeps the loop state of `Vaporize` and shrinks what is left. */
  lemma VaporizePass(roids: seq<Point>, c: Point, order: seq<Slope>, groups: seq<seq<Point>>,
                     gs: seq<seq<Point>>, out: seq<Point>, turns: seq<seq<Point>>, k: nat,
                     rest: seq<seq<Point>>, turn: seq<Point>, idx: seq<nat>)
    requires Distinct(order) && Lasering(roids, c, order, groups, gs, out, turns, k, true)
    requires Popped(gs, rest, turn, idx) && multiset(turn) + multiset(Flatten(rest)) == multiset(Flatten(gs))
    ensures Lasering(roids, c, order, groups, rest, out + turn, turns + [turn], k + 1, |turn| > 0)
    ensures |Flatten(rest)| + |turn| == |Flatten(gs)|
  {
    VaporizeStep(roids, c, order, gs, out, turns, rest, turn, idx);
    PassShrinks(gs, rest, turn, idx);
    LaserStep(groups, gs, out, k, rest, turn, idx);
  }

  /**
   * `vaporize`: the laser turns through the slopes in key order, each turn
   * vaporizing the nearest remaining asteroid on every slope, until none
   * is left. `order` lists the slopes by their angle; `groups` is the
   * grouping of the asteroids by slope, nearest first, and `turns` splits
   * the result into the laser's turns.
   */
  method Vaporize(roids: seq<Point>, c: Point, order: seq<Slope>)
    returns (out: seq<Point>, ghost turns: seq<seq<Point>>, ghost groups: seq<seq<Point>>)
    requires Distinct(roids) && Distinct(order)
    requires forall p | p in roids && p != c :: Bearing(p, c) in order
    ensures Grouped(groups, order, c) && multiset(Flatten(groups)) == multiset(Others(roids, c))
    ensures out == LaserFrom(groups, 0)
    ensures multiset(out) == multiset(Others(roids, c))
    ensures NearestFirst(out, c)
    ensures out == Flatten(turns) && forall t | t in turns :: Clockwise(t, order, c)
  {
    var gs := Group(roids, c, order);
    groups := gs;
    out, turns := [], [];
    ghost var k := 0;
    var removed := true;
    LaserStart(roids, c, order, groups);
    while removed
      invariant Lasering(roids, c, order, groups, gs, out, turns, k, removed)
      decreases |Flatten(gs)| + if removed then 1 else 0
    {
      var rest, turn, idx := Sweep(gs);
      VaporizePass(roids, c, order, groups, gs, out, turns, k, rest, turn, idx);
      out, turns, gs := out + turn, turns + [turn], rest;
      k := k + 1;
      removed := |turn| > 0;
    }
    LaserDone(roids, c, order, groups, gs, out, turns, k);
  }

  lemma {:induction false} OthersLength(roids: seq<Point>, c: Point)
    requires Distinct(roids) && c in roids
    ensures |Others(roids, c)| == |roids| - 1
  {
    var init, last := roids[..|roids| - 1], roids[|roids| - 1];
    assert roids == init + [last];
    if last == c {
      OthersAbsent(init, c);
    } else {
      assert c in init;
      OthersLength(init, c);
    }
  }

  lemma {:induction false} OthersAbsent(roids: seq<Point>, c: Point)
    requires c !in roids
    ensures Others(roids, c) == roids
  {
    if |roids| > 0 {
      var init, last := roids[..|roids| - 1], roids[|roids| - 1];
      assert roids == init + [last];
      OthersAbsent(init, c);
    }
  }

  /** An asteroid is in the concatenation exactly when it is in one of the groups. */
  lemma {:induction false} FlattenHas(gs: seq<seq<Point>>, p: Point)
    ensures p in Flatten(gs) <==> exists i :: 0 <= i < |gs| && p in gs[i]
  {
    if |gs| > 0 {
      FlattenHas(gs[1..], p);
      assert Flatten(gs) == gs[0] + Flatten(gs[1..]);
      if exists i :: 0 <= i < |gs| && p in gs[i] {
        var i :| 0 <= i < |gs| && p in gs[i];
        if i > 0 {
          assert gs[1..][i - 1] == gs[i];
        }
      }
    }
  }

  /** Two sequences strictly increasing in `key` and holding the same elements are equal. */
  lemma {:induction false} KeySortedUnique(g: seq<Point>, h: seq<Point>, key: Point -> nat)
    requires forall i, j | 0 <= i < j < |g| :: key(g[i]) < key(g[j])
    requires forall i, j | 0 <= i < j < |h| :: key(h[i]) < key(h[j])
    requires forall p :: p in g <==> p in h
    ensures g == h
    decreases |g|
  {
    assert |g| > 0 ==> g[0] in h;
    assert |h| > 0 ==> h[0] in g;
    if |g| > 0 && |h| > 0 {
      var k :| 0 <= k < |h| && h[k] == g[0];
      var l :| 0 <= l < |g| && g[l] == h[0];
      assert key(g[0]) <= key(g[l]) && key(h[0]) <= key(h[k]);
      assert k == 0;
      forall p
        ensures p in g[1..] <==> p in h[1..]
      {
        if p in g[1..] {
          var j :| 1 <= j < |g| && g[j] == p;
          assert key(g[0]) < key(g[j]);
          assert p in h;
          var m :| 0 <= m < |h| && h[m] == p;
          assert h[1..][m - 1] == p;
        }
        if p in h[1..] {
          var j :| 1 <= j < |h| && h[j] == p;
          assert key(h[0]) < key(h[j]);
          assert p in g;
          var m :| 0 <= m < |g| && g[m] == p;
          assert g[1..][m - 1] == p;
        }
      }
      KeySortedUnique(g[1..], h[1..], key);
      assert g == [g[0]] + g[1..] && h == [h[0]] + h[1..];
    }
  }

  /** Two groups, nearest first, holding the same asteroids are the same group. */
  lemma AscendingUnique(g: seq<Point>, h: seq<Point>, c: Point)
    requires Ascending(g, c) && Ascending(h, c)
    requires forall p :: p in g <==> p in h
    ensures g == h
  {
    KeySortedUnique(g, h, p => Steps(p, c));
  }

  /** The group an asteroid sits in is the one of its slope. */
  lemma GroupOf(gs: seq<seq<Point>>, order: seq<Slope>, c: Point, p: Point, i: nat)
    requires Grouped(gs, order, c) && Distinct(order) && i < |gs|
    ensures p in gs[i] <==> p in Flatten(gs) && Bearing(p, c) == order[i]
  {
    FlattenHas(gs, p);
    if p in gs[i] {
      var x :| 0 <= x < |gs[i]| && gs[i][x] == p;
    }
    if p in Flatten(gs) && Bearing(p, c) == order[i] {
      var j :| 0 <= j < |gs| && p in gs[j];
      var x :| 0 <= x < |gs[j]| && gs[j][x] == p;
      assert order[j] == order[i];
    }
  }

  /** The grouping is fixed by the asteroids it holds, so the laser order is too. */
  lemma GroupedUnique(gs: seq<seq<Point>>, hs: seq<seq<Point>>, order: seq<Slope>, c: Point)
    requires Distinct(order) && Grouped(gs, order, c) && Grouped(hs, order, c)
    requires multiset(Flatten(gs)) == multiset(Flatten(hs))
    ensures gs == hs
  {
    forall i | 0 <= i < |gs|
      ensures gs[i] == hs[i]
    {
      forall p
        ensures p in gs[i] <==> p in hs[i]
      {
        GroupOf(gs, order, c, p, i);
        GroupOf(hs, order, c, p, i);
        assert p in Flatten(gs) <==> p in multiset(Flatten(gs));
        assert p in Flatten(hs) <==> p in multiset(Flatten(hs));
      }
      AscendingUnique(gs[i], hs[i], c);
    }
  }

  /**
   * `bothparts` on the listed asteroids: the best station's count, then
   * `100 * x + y` of the 200th asteroid vaporized from it. `None` where the
   * original panics: no asteroid at all, or fewer than 200 to vaporize.
   */
  method BothParts(roids: seq<Point>, order: seq<Slope>)
    returns (r: Option<(nat, int)>, station: Point, out: seq<Point>, ghost groups: seq<seq<Point>>)
    requires Distinct(roids) && Distinct(order)
    requires forall p, q | p in roids && q in roids && p != q :: Bearing(p, q) in order
    ensures r.None? <==> |roids| <= 200
    ensures r.Some? ==> FindBest(roids, |roids|) == Some((station, r.value.0))
    ensures r.Some? ==> Grouped(groups, order, station) && multiset(Flatten(groups)) == multiset(Others(roids, station))
    ensures r.Some? ==> out == LaserFrom(groups, 0)
    ensures r.Some? ==> multiset(out) == multiset(Others(roids, station)) && NearestFirst(out, station)
    ensures r.Some? ==> |out| >= 200 && r.value.1 == out[199].x * 100 + out[199].y
  {
    station, out, groups := Origin, [], [];
    var best := FindBest(roids, |roids|);
    FindBestMeaning(roids, |roids|);
    if best.None? {
      return None, station, out, groups;
    }
    var count: nat;
    station, count := best.value.0, best.value.1;
    ghost var turns;
    out, turns, groups := Vaporize(roids, station, order);
    assert station in roids;
    OthersLength(roids, station);
    assert |out| == |multiset(out)| == |roids| - 1;
    if |out| < 200 {
      return None, station, out, groups;
    }
    r := Some((count, out[199].x * 100 + out[199].y));
  }
}
