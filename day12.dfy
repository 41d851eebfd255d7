/**
 * Day 12, "The N-Body Problem": moons pull on each other one unit per axis,
 * velocities change by the pull, positions by the new velocity.
 * Part 1 sums the energies after 1000 steps; part 2 finds, per axis, the
 * first step at which every moon is back at its starting coordinate with
 * zero velocity, and combines the three periods with lcm.
 */
module Day12 {
  import opened RustInt
  import opened Text

  datatype Vec3 = Vec3(x: int, y: int, z: int)

  datatype Axis = X | Y | Z

  function Coord(v: Vec3, k: Axis): int
  {
    match k
    case X => v.x
    case Y => v.y
    case Z => v.z
  }

  const Origin := Vec3(0, 0, 0)

  /** Component-wise sum (`Coord3D += Coord3D`). */
  function Plus(a: Vec3, b: Vec3): (r: Vec3)
    ensures forall k :: Coord(r, k) == Coord(a, k) + Coord(b, k)
  {
    Vec3(a.x + b.x, a.y + b.y, a.z + b.z)
  }

  /** Manhattan distance to the origin. */
  function Norm(v: Vec3): (r: nat)
    ensures r == 0 <==> v == Origin
    ensures forall k :: Abs(Coord(v, k)) <= r
  {
    Abs(v.x) + Abs(v.y) + Abs(v.z)
  }

  datatype Moon = Moon(pos: Vec3, initial: Vec3, vel: Vec3)

  /** A moon as the parser builds it: at rest at its initial position. */
  function AtRest(p: Vec3): (m: Moon)
    ensures m.pos == m.initial == p && m.vel == Origin
  {
    Moon(p, p, Origin)
  }

  /** Potential energy times kinetic energy. */
  function Energy(m: Moon): nat
  {
    var potential, kinetic := Norm(m.pos), Norm(m.vel);
    Product(potential, kinetic);
    potential * kinetic
  }

  /** A moon has no energy exactly when it sits at the origin or stands still. */
  lemma EnergyZero(m: Moon)
    ensures Energy(m) == 0 <==> m.pos == Origin || m.vel == Origin
    ensures m.vel != Origin ==> Energy(m) >= Norm(m.pos)
  {
    Product(Norm(m.pos), Norm(m.vel));
  }

  lemma Product(a: nat, b: nat)
    ensures a * b >= 0
    ensures a * b == 0 <==> a == 0 || b == 0
    ensures b >= 1 ==> a * b >= a
  {
    if b >= 1 {
      assert a * b == a * (b - 1) + a;
    }
  }

  function TotalEnergy(ms: seq<Moon>): (e: nat)
    ensures e == 0 <==> forall i | 0 <= i < |ms| :: Energy(ms[i]) == 0
  {
    if |ms| == 0 then 0
    else
      var init := ms[..|ms| - 1];
      assert forall i | 0 <= i < |init| :: init[i] == ms[i];
      TotalEnergy(init) + Energy(ms[|ms| - 1])
  }

  // ---------------------------------------------------------------------
  // Gravity, as a specification

  /** The pull moon j exerts on moon i along axis k: one unit towards j. */
  function Pull(ms: seq<Moon>, i: nat, j: nat, k: Axis): int
    requires i < |ms| && j < |ms|
  {
    Signum(Coord(ms[j].pos, k) - Coord(ms[i].pos, k))
  }

  lemma PullAntisymmetric(ms: seq<Moon>, i: nat, j: nat, k: Axis)
    requires i < |ms| && j < |ms|
    ensures Pull(ms, i, j, k) == -Pull(ms, j, i, k)
    ensures i == j ==> Pull(ms, i, j, k) == 0
  {
  }

  /** Pull on moon i from moons 0..n, along axis k. */
  function Inner(ms: seq<Moon>, i: nat, k: Axis, n: nat): int
    requires i < |ms| && n <= |ms|
  {
    if n == 0 then 0 else Inner(ms, i, k, n - 1) + Pull(ms, i, n - 1, k)
  }

  /** The velocity change of moon i in one step. */
  function Dv(ms: seq<Moon>, i: nat): Vec3
    requires i < |ms|
  {
    Vec3(Inner(ms, i, X, |ms|), Inner(ms, i, Y, |ms|), Inner(ms, i, Z, |ms|))
  }

  function Move(m: Moon, dv: Vec3): Moon
  {
    var vel := Plus(m.vel, dv);
    Moon(Plus(m.pos, vel), m.initial, vel)
  }

  /** One step: every velocity changes by its moon's pull, then every position by the new velocity. */
  function StepSpec(ms: seq<Moon>): (r: seq<Moon>)
    ensures |r| == |ms|
  {
    seq(|ms|, i requires 0 <= i < |ms| => Move(ms[i], Dv(ms, i)))
  }

  /** `n` steps. */
  function SimulateSpec(ms: seq<Moon>, n: nat): (r: seq<Moon>)
    ensures |r| == |ms|
    decreases n
  {
    if n == 0 then ms else SimulateSpec(StepSpec(ms), n - 1)
  }

  /** Simulation never changes a moon's starting position. */
  lemma {:induction false} InitialKept(ms: seq<Moon>, n: nat, i: nat)
    requires i < |ms|
    ensures SimulateSpec(ms, n)[i].initial == ms[i].initial
    decreases n
  {
    if n > 0 {
      InitialKept(StepSpec(ms), n - 1, i);
    }
  }

  lemma {:induction false} SimulateAdd(ms: seq<Moon>, a: nat, b: nat)
    ensures SimulateSpec(ms, a + b) == SimulateSpec(SimulateSpec(ms, a), b)
    decreases a
  {
    if a > 0 {
      SimulateAdd(StepSpec(ms), a - 1, b);
      assert a + b - 1 == (a - 1) + b;
    }
  }

  /** One step after `n` steps is `n + 1` steps. */
  lemma SimulateSucc(ms: seq<Moon>, n: nat)
    ensures SimulateSpec(ms, n + 1) == StepSpec(SimulateSpec(ms, n))
  {
    SimulateAdd(ms, n, 1);
  }

  // ---------------------------------------------------------------------
  // Bounds and conservation

  lemma {:induction false} InnerBound(ms: seq<Moon>, i: nat, k: Axis, n: nat)
    requires i < |ms| && n <= |ms|
    ensures Abs(Inner(ms, i, k, n)) <= if i < n then n - 1 else n
  {
    if n > 0 {
      InnerBound(ms, i, k, n - 1);
    }
  }

  /** Each velocity change is at most one unit per other moon, on every axis. */
  lemma DvBound(ms: seq<Moon>, i: nat, k: Axis)
    requires i < |ms|
    ensures Abs(Coord(Dv(ms, i), k)) <= |ms| - 1
  {
    InnerBound(ms, i, k, |ms|);
  }

  /** The pulls moons 0..m feel from moon n. */
  function Col(ms: seq<Moon>, k: Axis, m: nat, n: nat): int
    requires m <= |ms| && n < |ms|
  {
    if m == 0 then 0 else Col(ms, k, m - 1, n) + Pull(ms, m - 1, n, k)
  }

  /** The pulls moons 0..m feel from moons 0..n. */
  function Outer(ms: seq<Moon>, k: Axis, m: nat, n: nat): int
    requires m <= |ms| && n <= |ms|
  {
    if m == 0 then 0 else Outer(ms, k, m - 1, n) + Inner(ms, m - 1, k, n)
  }

  lemma {:induction false} OuterGrow(ms: seq<Moon>, k: Axis, m: nat, n: nat)
    requires m <= |ms| && n < |ms|
    ensures Outer(ms, k, m, n + 1) == Outer(ms, k, m, n) + Col(ms, k, m, n)
  {
    if m > 0 {
      OuterGrow(ms, k, m - 1, n);
    }
  }

  lemma {:induction false} InnerCol(ms: seq<Moon>, k: Axis, p: nat, j: nat)
    requires j <= p < |ms|
    ensures Inner(ms, p, k, j) == -Col(ms, k, j, p)
  {
    if j > 0 {
      InnerCol(ms, k, p, j - 1);
      PullAntisymmetric(ms, p, j - 1, k);
    }
  }

  lemma {:induction false} OuterDiagonal(ms: seq<Moon>, k: Axis, n: nat)
    requires n <= |ms|
    ensures Outer(ms, k, n, n) == 0
  {
    if n > 0 {
      var p := n - 1;
      OuterDiagonal(ms, k, p);
      OuterGrow(ms, k, p, p);
      InnerCol(ms, k, p, p);
      PullAntisymmetric(ms, p, p, k);
    }
  }

  /** The velocity changes of one step cancel out on every axis. */
  lemma GravityBalanced(ms: seq<Moon>, k: Axis)
    ensures Outer(ms, k, |ms|, |ms|) == 0
  {
    OuterDiagonal(ms, k, |ms|);
  }

  function TotalVel(ms: seq<Moon>, k: Axis, m: nat): int
    requires m <= |ms|
  {
    if m == 0 then 0 else TotalVel(ms, k, m - 1) + Coord(ms[m - 1].vel, k)
  }

  lemma {:induction false} StepVelocities(ms: seq<Moon>, k: Axis, m: nat)
    requires m <= |ms|
    ensures TotalVel(StepSpec(ms), k, m) == TotalVel(ms, k, m) + Outer(ms, k, m, |ms|)
  {
    if m > 0 {
      StepVelocities(ms, k, m - 1);
    }
  }

  /** A step leaves the total velocity unchanged on every axis. */
  lemma VelocityConserved(ms: seq<Moon>, k: Axis)
    ensures TotalVel(StepSpec(ms), k, |ms|) == TotalVel(ms, k, |ms|)
  {
    StepVelocities(ms, k, |ms|);
    GravityBalanced(ms, k);
  }

  lemma {:induction false} VelocityConservedForever(ms: seq<Moon>, k: Axis, n: nat)
    ensures TotalVel(SimulateSpec(ms, n), k, |ms|) == TotalVel(ms, k, |ms|)
    decreases n
  {
    if n > 0 {
      VelocityConserved(ms, k);
      VelocityConservedForever(StepSpec(ms), k, n - 1);
    }
  }

  // ---------------------------------------------------------------------
  // The simulation, in place

  /**
   * Pair (i, j) has been visited by the `tuple_combinations` walk that is
   * at pair (a, b): pairs come in order of their smaller index, then their larger.
   */
  predicate Visited(i: nat, j: nat, a: nat, b: nat)
  {
    (i < j && (i < a || (i == a && j < b))) || (j < i && (j < a || (j == a && i < b)))
  }

  /** The pull on moon i from the moons 0..n whose pair with i has been visited. */
  function Partial(ms: seq<Moon>, i: nat, k: Axis, a: nat, b: nat, n: nat): int
    requires i < |ms| && n <= |ms|
  {
    if n == 0 then 0
    else Partial(ms, i, k, a, b, n - 1) + (if Visited(i, n - 1, a, b) then Pull(ms, i, n - 1, k) else 0)
  }

  lemma {:induction false} PartialNext(ms: seq<Moon>, i: nat, k: Axis, a: nat, b: nat, n: nat)
    requires i < |ms| && n <= |ms| && a < b
    ensures Partial(ms, i, k, a, b + 1, n)
         == Partial(ms, i, k, a, b, n)
          + (if i == a && b < n then Pull(ms, a, b, k) else if i == b && a < n then Pull(ms, b, a, k) else 0)
  {
    if n > 0 {
      PartialNext(ms, i, k, a, b, n - 1);
    }
  }

  lemma {:induction false} PartialSame(ms: seq<Moon>, i: nat, k: Axis, a: nat, b: nat, a': nat, b': nat, n: nat)
    requires i < |ms| && n <= |ms|
    requires forall j: nat | j < n :: Visited(i, j, a, b) == Visited(i, j, a', b')
    ensures Partial(ms, i, k, a, b, n) == Partial(ms, i, k, a', b', n)
  {
    if n > 0 {
      PartialSame(ms, i, k, a, b, a', b', n - 1);
    }
  }

  lemma {:induction false} PartialNone(ms: seq<Moon>, i: nat, k: Axis, n: nat)
    requires i < |ms| && n <= |ms|
    ensures Partial(ms, i, k, 0, 1, n) == 0
  {
    if n > 0 {
      PartialNone(ms, i, k, n - 1);
    }
  }

  lemma {:induction false} PartialAll(ms: seq<Moon>, i: nat, k: Axis, n: nat)
    requires i < |ms| && n <= |ms|
    ensures Partial(ms, i, k, |ms|, |ms| + 1, n) == Inner(ms, i, k, n)
  {
    if n > 0 {
      PartialAll(ms, i, k, n - 1);
      PullAntisymmetric(ms, i, n - 1, k);
    }
  }

  function PullVec(ms: seq<Moon>, i: nat, j: nat): (r: Vec3)
    requires i < |ms| && j < |ms|
    ensures forall k :: Coord(r, k) == Pull(ms, i, j, k)
  {
    Vec3(Pull(ms, i, j, X), Pull(ms, i, j, Y), Pull(ms, i, j, Z))
  }

  /** The body of the `tuple_combinations` closure for the pair (a, b). */
  method PullPair(moons: array<Moon>, dv: array<Vec3>, a: nat, b: nat)
    requires moons != dv as object && a < b < moons.Length == dv.Length
    modifies dv
    ensures dv[..] == old(dv[..])[a := Plus(old(dv[a]), PullVec(moons[..], a, b))]
                                 [b := Plus(old(dv[b]), PullVec(moons[..], b, a))]
  {
    var p, q := moons[a].pos, moons[b].pos;
    var da, db := dv[a], dv[b];
    if p.x < q.x {
      da, db := da.(x := da.x + 1), db.(x := db.x - 1);
    } else if p.x > q.x {
      da, db := da.(x := da.x - 1), db.(x := db.x + 1);
    }
    if p.y < q.y {
      da, db := da.(y := da.y + 1), db.(y := db.y - 1);
    } else if p.y > q.y {
      da, db := da.(y := da.y - 1), db.(y := db.y + 1);
    }
    if p.z < q.z {
      da, db := da.(z := da.z + 1), db.(z := db.z - 1);
    } else if p.z > q.z {
      da, db := da.(z := da.z - 1), db.(z := db.z + 1);
    }
    dv[a] := da;
    dv[b] := db;
  }

  /** Moon i's entry of `dv` holds the pulls of the pairs visited before pair (a, b). */
  ghost predicate PulledUpTo(ms: seq<Moon>, dv: seq<Vec3>, a: nat, b: nat)
    requires |dv| == |ms|
  {
    forall i, k | 0 <= i < |ms| :: Coord(dv[i], k) == Partial(ms, i, k, a, b, |ms|)
  }

  /** The pairs (a, b) for every b after a. */
  method PullRow(moons: array<Moon>, dv: array<Vec3>, a: nat)
    requires moons != dv as object && a < moons.Length == dv.Length
    requires PulledUpTo(moons[..], dv[..], a, a + 1)
    modifies dv
    ensures PulledUpTo(moons[..], dv[..], a + 1, a + 2)
  {
    ghost var ms := moons[..];
    var n := moons.Length;
    for b := a + 1 to n
      invariant PulledUpTo(ms, dv[..], a, b)
    {
      ghost var before := dv[..];
      PullPair(moons, dv, a, b);
      forall i, k | 0 <= i < n
        ensures Coord(dv[i], k) == Partial(ms, i, k, a, b + 1, n)
      {
        PartialNext(ms, i, k, a, b, n);
        assert Coord(before[i], k) == Partial(ms, i, k, a, b, n);
      }
    }
    forall i, k | 0 <= i < n
      ensures Coord(dv[i], k) == Partial(ms, i, k, a + 1, a + 2, n)
    {
      PartialSame(ms, i, k, a, n, a + 1, a + 2, n);
      assert Coord(dv[..][i], k) == Partial(ms, i, k, a, n, n);
    }
  }

  /** All velocity changes of one step, pair by pair. */
  method Velocities(moons: array<Moon>) returns (dv: array<Vec3>)
    ensures fresh(dv) && dv.Length == moons.Length
    ensures forall i | 0 <= i < dv.Length :: dv[i] == Dv(moons[..], i)
  {
    ghost var ms := moons[..];
    var n := moons.Length;
    dv := new Vec3[n](_ => Origin);
    forall i, k | 0 <= i < n
      ensures Coord(dv[..][i], k) == Partial(ms, i, k, 0, 1, n)
    {
      PartialNone(ms, i, k, n);
    }
    for a := 0 to n
      invariant PulledUpTo(ms, dv[..], a, a + 1)
    {
      PullRow(moons, dv, a);
    }
    forall i, k | 0 <= i < n
      ensures Coord(dv[i], k) == Inner(ms, i, k, n)
    {
      PartialAll(ms, i, k, n);
      assert Coord(dv[..][i], k) == Partial(ms, i, k, n, n + 1, n);
    }
    forall i | 0 <= i < n
      ensures dv[i] == Dv(ms, i)
    {
      assert Coord(dv[i], X) == Inner(ms, i, X, n);
      assert Coord(dv[i], Y) == Inner(ms, i, Y, n);
      assert Coord(dv[i], Z) == Inner(ms, i, Z, n);
    }
  }

  /** One step, in place. */
  method Step(moons: array<Moon>)
    modifies moons
    ensures moons[..] == StepSpec(old(moons[..]))
  {
    ghost var ms := moons[..];
    var dv := Velocities(moons);
    for idx := 0 to moons.Length
      invariant forall i | 0 <= i < idx :: moons[i] == StepSpec(ms)[i]
      invariant forall i | idx <= i < moons.Length :: moons[i] == ms[i]
      invariant forall i | 0 <= i < dv.Length :: dv[i] == Dv(ms, i)
    {
      var m := moons[idx];
      var vel := Plus(m.vel, dv[idx]);
      moons[idx] := m.(vel := vel, pos := Plus(m.pos, vel));
      assert moons[idx] == Move(ms[idx], Dv(ms, idx)) == StepSpec(ms)[idx];
    }
  }

  /** `simulate(moons, steps)`. */
  method Simulate(moons: array<Moon>, steps: nat)
    modifies moons
    ensures moons[..] == SimulateSpec(old(moons[..]), steps)
  {
    ghost var ms := moons[..];
    for s := 0 to steps
      invariant moons[..] == SimulateSpec(ms, s)
    {
      Step(moons);
      SimulateSucc(ms, s);
    }
  }

  method Part1(input: seq<Moon>) returns (e: nat)
    ensures e == TotalEnergy(SimulateSpec(input, 1000))
  {
    var moons := new Moon[|input|](i requires 0 <= i < |input| => input[i]);
    assert moons[..] == input;
    Simulate(moons, 1000);
    e := TotalEnergy(moons[..]);
  }

  // ---------------------------------------------------------------------
  // Part 2: per-axis periods

  /** Every moon is at its starting coordinate with zero velocity on axis k. */
  predicate Home(ms: seq<Moon>, k: Axis)
  {
    forall i | 0 <= i < |ms| :: Coord(ms[i].pos, k) == Coord(ms[i].initial, k) && Coord(ms[i].vel, k) == 0
  }

  /** Moons as parsed are home on every axis before the first step. */
  lemma ParsedAreHome(ps: seq<Vec3>, k: Axis)
    ensures Home(seq(|ps|, i requires 0 <= i < |ps| => AtRest(ps[i])), k)
  {
  }

  /** `s` is the first step after which axis k is home again. */
  predicate FirstHome(input: seq<Moon>, k: Axis, s: nat)
  {
    s >= 1 && Home(SimulateSpec(input, s), k)
    && forall t | 1 <= t < s :: !Home(SimulateSpec(input, t), k)
  }

  /** An axis comes home for the first time after only one number of steps. */
  lemma FirstHomeUnique(input: seq<Moon>, k: Axis, s: nat, s': nat)
    requires FirstHome(input, k, s) && FirstHome(input, k, s')
    ensures s == s'
  {
  }

  /** The number of moons among the first m that are home on axis k. */
  function CountHome(ms: seq<Moon>, k: Axis, m: nat): (c: nat)
    requires m <= |ms|
    ensures c <= m
    ensures c == m <==> forall i | 0 <= i < m :: Coord(ms[i].pos, k) == Coord(ms[i].initial, k) && Coord(ms[i].vel, k) == 0
  {
    if m == 0 then 0
    else
      var home := Coord(ms[m - 1].pos, k) == Coord(ms[m - 1].initial, k) && Coord(ms[m - 1].vel, k) == 0;
      CountHome(ms, k, m - 1) + (if home then 1 else 0)
  }

  /** The `fold` over the moons: how many are home on each axis. */
  method CountAll(moons: array<Moon>) returns (xr: nat, yr: nat, zr: nat)
    ensures xr == CountHome(moons[..], X, moons.Length)
    ensures yr == CountHome(moons[..], Y, moons.Length)
    ensures zr == CountHome(moons[..], Z, moons.Length)
  {
    xr, yr, zr := 0, 0, 0;
    for i := 0 to moons.Length
      invariant xr == CountHome(moons[..], X, i)
      invariant yr == CountHome(moons[..], Y, i)
      invariant zr == CountHome(moons[..], Z, i)
    {
      var m := moons[i];
      if m.pos.x == m.initial.x && m.vel.x == 0 { xr := xr + 1; }
      if m.pos.y == m.initial.y && m.vel.y == 0 { yr := yr + 1; }
      if m.pos.z == m.initial.z && m.vel.z == 0 { zr := zr + 1; }
    }
  }

  /** `num::integer::lcm` on unsigned integers. */
  function Lcm(a: nat, b: nat): (r: nat)
    ensures a > 0 && b > 0 ==> r > 0 && r % a == 0 && r % b == 0 && r <= a * b
    ensures a == 0 || b == 0 ==> r == 0
  {
    if a == 0 && b == 0 then 0
    else
      var g := Gcd(a, b);
      LcmCommonMultiple(a, b, g);
      a * (b / g)
  }

  lemma LcmCommonMultiple(a: nat, b: nat, g: nat)
    requires a > 0 || b > 0
    requires g > 0 && a % g == 0 && b % g == 0
    ensures a > 0 && b > 0 ==> 0 < a * (b / g) <= a * b && a * (b / g) % b == 0 && a * (b / g) % a == 0
    ensures a == 0 || b == 0 ==> a * (b / g) == 0
  {
    var a', b' := a / g, b / g;
    assert a == a' * g && b == b' * g;
    if a > 0 && b > 0 {
      assert a * b' == a' * b by {
        calc {
          a * b';
          (a' * g) * b';
          a' * (b' * g);
        }
      }
      DivModUnique(a * b', a', 0, b);
      DivModUnique(a * b', b', 0, a);
      Product(b', g);
      assert 1 <= b' <= b;
      assert a * b' <= a * b;
    } else if a == 0 {
      assert a * b' == 0;
    } else {
      assert b' == 0;
    }
  }

  /** Axis k's search state at step `step`: `rep` is 0 while not found yet. */
  predicate Searching(input: seq<Moon>, k: Axis, rep: nat, step: nat)
  {
    (rep == 0 ==> forall t | 1 <= t < step :: !Home(SimulateSpec(input, t), k))
    && (rep > 0 ==> rep < step && FirstHome(input, k, rep))
  }

  /** The search state of all three axes at step `step`; at least one axis is still open. */
  ghost predicate Search(input: seq<Moon>, xr: nat, yr: nat, zr: nat, step: nat)
  {
    Searching(input, X, xr, step) && Searching(input, Y, yr, step) && Searching(input, Z, zr, step)
    && (xr == 0 || yr == 0 || zr == 0)
  }

  lemma SearchingNext(input: seq<Moon>, k: Axis, rep: nat, step: nat, home: bool, rep': nat)
    requires step >= 1 && Searching(input, k, rep, step)
    requires home == Home(SimulateSpec(input, step), k)
    requires rep' == if rep == 0 && home then step else rep
    ensures Searching(input, k, rep', step + 1)
  {
  }

  /**
   * After the step-th simulation step the search state advances, and if
   * no axis is open any more the three periods are found.
   */
  lemma SearchNext(input: seq<Moon>, ms: seq<Moon>, step: nat, xr: nat, yr: nat, zr: nat,
                   xc: nat, yc: nat, zc: nat, xr': nat, yr': nat, zr': nat)
    requires step >= 1 && Search(input, xr, yr, zr, step)
    requires ms == SimulateSpec(input, step)
    requires xc == CountHome(ms, X, |ms|) && yc == CountHome(ms, Y, |ms|) && zc == CountHome(ms, Z, |ms|)
    requires xr' == if xr == 0 && xc == |ms| then step else xr
    requires yr' == if yr == 0 && yc == |ms| then step else yr
    requires zr' == if zr == 0 && zc == |ms| then step else zr
    ensures xr' > 0 && yr' > 0 && zr' > 0 ==>
      FirstHome(input, X, xr') && FirstHome(input, Y, yr') && FirstHome(input, Z, zr')
    ensures xr' == 0 || yr' == 0 || zr' == 0 ==> Search(input, xr', yr', zr', step + 1)
  {
    SearchingNext(input, X, xr, step, xc == |ms|, xr');
    SearchingNext(input, Y, yr, step, yc == |ms|, yr');
    SearchingNext(input, Z, zr, step, zc == |ms|, zr');
  }

  /** Axis k is not home after any of the steps 1..fuel. */
  predicate Absent(input: seq<Moon>, k: Axis, fuel: nat)
  {
    forall t | 1 <= t <= fuel :: !Home(SimulateSpec(input, t), k)
  }

  lemma SearchExhausted(input: seq<Moon>, xr: nat, yr: nat, zr: nat, fuel: nat)
    requires Search(input, xr, yr, zr, fuel + 1)
    ensures Absent(input, X, fuel) || Absent(input, Y, fuel) || Absent(input, Z, fuel)
  {
  }

  /** `simulate(&mut moons, 1)` as the search loop uses it. */
  method Tick(moons: array<Moon>, ghost input: seq<Moon>, ghost done: nat)
    requires moons[..] == SimulateSpec(input, done)
    modifies moons
    ensures moons[..] == SimulateSpec(input, done + 1)
  {
    Simulate(moons, 1);
    SimulateSucc(input, done);
  }

  /**
   * `find_repeat`, run for at most `fuel` steps. With enough fuel the
   * result is the lcm of the three per-axis periods.
   */
  method FindRepeat(input: seq<Moon>, fuel: nat) returns (r: Option<nat>)
    ensures r.Some? ==> exists xs, ys, zs ::
      FirstHome(input, X, xs) && FirstHome(input, Y, ys) && FirstHome(input, Z, zs) && r.value == Lcm(Lcm(xs, ys), zs)
    ensures r.None? ==> Absent(input, X, fuel) || Absent(input, Y, fuel) || Absent(input, Z, fuel)
  {
    var moons := new Moon[|input|](i requires 0 <= i < |input| => input[i]);
    assert moons[..] == input;
    var xrepeat, yrepeat, zrepeat := 0, 0, 0;
    var step := 0;
    while step < fuel
      invariant step <= fuel
      invariant moons[..] == SimulateSpec(input, step)
      invariant Search(input, xrepeat, yrepeat, zrepeat, step + 1)
    {
      Tick(moons, input, step);
      step := step + 1;
      var xr, yr, zr := CountAll(moons);
      var x', y', z' := xrepeat, yrepeat, zrepeat;
      if xrepeat == 0 && xr == moons.Length { x' := step; }
      if yrepeat == 0 && yr == moons.Length { y' := step; }
      if zrepeat == 0 && zr == moons.Length { z' := step; }
      SearchNext(input, moons[..], step, xrepeat, yrepeat, zrepeat, xr, yr, zr, x', y', z');
      xrepeat, yrepeat, zrepeat := x', y', z';
      if xrepeat > 0 && yrepeat > 0 && zrepeat > 0 {
        return Some(Lcm(Lcm(xrepeat, yrepeat), zrepeat));
      }
    }
    SearchExhausted(input, xrepeat, yrepeat, zrepeat, fuel);
    r := None;
  }

  // ---------------------------------------------------------------------
  // The first sample of the tests: energy 179 after ten steps

  /** A step of four moons is known once every moon's velocity change and move are. */
  lemma StepOfFour(ms: seq<Moon>, d0: Vec3, d1: Vec3, d2: Vec3, d3: Vec3, next: seq<Moon>)
    requires |ms| == |next| == 4
    requires Dv(ms, 0) == d0 && Move(ms[0], d0) == next[0]
    requires Dv(ms, 1) == d1 && Move(ms[1], d1) == next[1]
    requires Dv(ms, 2) == d2 && Move(ms[2], d2) == next[2]
    requires Dv(ms, 3) == d3 && Move(ms[3], d3) == next[3]
    ensures StepSpec(ms) == next
  {
  }

  /** The first sample's four moons, at rest where they start. */
  const Sample: seq<Moon> := [AtRest(Vec3(-1, 0, 2)), AtRest(Vec3(2, -10, -7)), AtRest(Vec3(4, -8, 8)), AtRest(Vec3(3, 5, -1))]

  /** The first sample after 1 step. */
  const Sample1: seq<Moon> := [
    Moon(Vec3(2, -1, 1), Vec3(-1, 0, 2), Vec3(3, -1, -1)),
    Moon(Vec3(3, -7, -4), Vec3(2, -10, -7), Vec3(1, 3, 3)),
    Moon(Vec3(1, -7, 5), Vec3(4, -8, 8), Vec3(-3, 1, -3)),
    Moon(Vec3(2, 2, 0), Vec3(3, 5, -1), Vec3(-1, -3, 1))]

  /** The first sample after 2 steps. */
  const Sample2: seq<Moon> := [
    Moon(Vec3(5, -3, -1), Vec3(-1, 0, 2), Vec3(3, -2, -2)),
    Moon(Vec3(1, -2, 2), Vec3(2, -10, -7), Vec3(-2, 5, 6)),
    Moon(Vec3(1, -4, -1), Vec3(4, -8, 8), Vec3(0, 3, -6)),
    Moon(Vec3(1, -4, 2), Vec3(3, 5, -1), Vec3(-1, -6, 2))]

  /** The first sample after 3 steps. */
  const Sample3: seq<Moon> := [
    Moon(Vec3(5, -6, -1), Vec3(-1, 0, 2), Vec3(0, -3, 0)),
    Moon(Vec3(0, 0, 6), Vec3(2, -10, -7), Vec3(-1, 2, 4)),
    Moon(Vec3(2, 1, -5), Vec3(4, -8, 8), Vec3(1, 5, -4)),
    Moon(Vec3(1, -8, 2), Vec3(3, 5, -1), Vec3(0, -4, 0))]

  /** The first sample after 4 steps. */
  const Sample4: seq<Moon> := [
    Moon(Vec3(2, -8, 0), Vec3(-1, 0, 2), Vec3(-3, -2, 1)),
    Moon(Vec3(2, 1, 7), Vec3(2, -10, -7), Vec3(2, 1, 1)),
    Moon(Vec3(2, 3, -6), Vec3(4, -8, 8), Vec3(0, 2, -1)),
    Moon(Vec3(2, -9, 1), Vec3(3, 5, -1), Vec3(1, -1, -1))]

  /** The first sample after 5 steps. */
  const Sample5: seq<Moon> := [
    Moon(Vec3(-1, -9, 2), Vec3(-1, 0, 2), Vec3(-3, -1, 2)),
    Moon(Vec3(4, 1, 5), Vec3(2, -10, -7), Vec3(2, 0, -2)),
    Moon(Vec3(2, 2, -4), Vec3(4, -8, 8), Vec3(0, -1, 2)),
    Moon(Vec3(3, -7, -1), Vec3(3, 5, -1), Vec3(1, 2, -2))]

  /** The first sample after 6 steps. */
  const Sample6: seq<Moon> := [
    Moon(Vec3(-1, -7, 3), Vec3(-1, 0, 2), Vec3(0, 2, 1)),
    Moon(Vec3(3, 0, 0), Vec3(2, -10, -7), Vec3(-1, -1, -5)),
    Moon(Vec3(3, -2, 1), Vec3(4, -8, 8), Vec3(1, -4, 5)),
    Moon(Vec3(3, -4, -2), Vec3(3, 5, -1), Vec3(0, 3, -1))]

  /** The first sample after 7 steps. */
  const Sample7: seq<Moon> := [
    Moon(Vec3(2, -2, 1), Vec3(-1, 0, 2), Vec3(3, 5, -2)),
    Moon(Vec3(1, -4, -4), Vec3(2, -10, -7), Vec3(-2, -4, -4)),
    Moon(Vec3(3, -7, 5), Vec3(4, -8, 8), Vec3(0, -5, 4)),
    Moon(Vec3(2, 0, 0), Vec3(3, 5, -1), Vec3(-1, 4, 2))]

  /** The first sample after 8 steps. */
  const Sample8: seq<Moon> := [
    Moon(Vec3(5, 2, -2), Vec3(-1, 0, 2), Vec3(3, 4, -3)),
    Moon(Vec3(2, -7, -5), Vec3(2, -10, -7), Vec3(1, -3, -1)),
    Moon(Vec3(0, -9, 6), Vec3(4, -8, 8), Vec3(-3, -2, 1)),
    Moon(Vec3(1, 1, 3), Vec3(3, 5, -1), Vec3(-1, 1, 3))]

  /** The first sample after 9 steps. */
  const Sample9: seq<Moon> := [
    Moon(Vec3(5, 3, -4), Vec3(-1, 0, 2), Vec3(0, 1, -2)),
    Moon(Vec3(2, -9, -3), Vec3(2, -10, -7), Vec3(0, -2, 2)),
    Moon(Vec3(0, -8, 4), Vec3(4, -8, 8), Vec3(0, 1, -2)),
    Moon(Vec3(1, 1, 5), Vec3(3, 5, -1), Vec3(0, 0, 2))]

  /** The first sample after 10 steps. */
  const Sample10: seq<Moon> := [
    Moon(Vec3(2, 1, -3), Vec3(-1, 0, 2), Vec3(-3, -2, 1)),
    Moon(Vec3(1, -8, 0), Vec3(2, -10, -7), Vec3(-1, 1, 3)),
    Moon(Vec3(3, -6, 1), Vec3(4, -8, 8), Vec3(3, 2, -3)),
    Moon(Vec3(2, 0, 4), Vec3(3, 5, -1), Vec3(1, -1, -1))]

  /** The first sample after 11 steps. */
  const Sample11: seq<Moon> := [
    Moon(Vec3(-1, -4, 1), Vec3(-1, 0, 2), Vec3(-3, -5, 4)),
    Moon(Vec3(3, -4, 4), Vec3(2, -10, -7), Vec3(2, 4, 4)),
    Moon(Vec3(3, -3, -3), Vec3(4, -8, 8), Vec3(0, 3, -4)),
    Moon(Vec3(3, -2, 0), Vec3(3, 5, -1), Vec3(1, -2, -4))]

  /** The first sample after 12 steps. */
  const Sample12: seq<Moon> := [
    Moon(Vec3(-1, -7, 4), Vec3(-1, 0, 2), Vec3(0, -3, 3)),
    Moon(Vec3(4, 2, 5), Vec3(2, -10, -7), Vec3(1, 6, 1)),
    Moon(Vec3(2, -1, -4), Vec3(4, -8, 8), Vec3(-1, 2, -1)),
    Moon(Vec3(3, -7, -3), Vec3(3, 5, -1), Vec3(0, -5, -3))]

  /** The first sample after 13 steps. */
  const Sample13: seq<Moon> := [
    Moon(Vec3(2, -8, 6), Vec3(-1, 0, 2), Vec3(3, -1, 2)),
    Moon(Vec3(2, 5, 3), Vec3(2, -10, -7), Vec3(-2, 3, -2)),
    Moon(Vec3(2, 0, -2), Vec3(4, -8, 8), Vec3(0, 1, 2)),
    Moon(Vec3(2, -10, -5), Vec3(3, 5, -1), Vec3(-1, -3, -2))]

  /** The first sample after 14 steps. */
  const Sample14: seq<Moon> := [
    Moon(Vec3(5, -8, 5), Vec3(-1, 0, 2), Vec3(3, 0, -1)),
    Moon(Vec3(0, 5, 0), Vec3(2, -10, -7), Vec3(-2, 0, -3)),
    Moon(Vec3(2, 0, 1), Vec3(4, -8, 8), Vec3(0, 0, 3)),
    Moon(Vec3(1, -10, -4), Vec3(3, 5, -1), Vec3(-1, 0, 1))]

  /** The first sample after 15 steps. */
  const Sample15: seq<Moon> := [
    Moon(Vec3(5, -7, 1), Vec3(-1, 0, 2), Vec3(0, 1, -4)),
    Moon(Vec3(1, 2, -2), Vec3(2, -10, -7), Vec3(1, -3, -2)),
    Moon(Vec3(1, -1, 3), Vec3(4, -8, 8), Vec3(-1, -1, 2)),
    Moon(Vec3(1, -7, 0), Vec3(3, 5, -1), Vec3(0, 3, 4))]

  /** The first sample after 16 steps. */
  const Sample16: seq<Moon> := [
    Moon(Vec3(2, -4, -4), Vec3(-1, 0, 2), Vec3(-3, 3, -5)),
    Moon(Vec3(3, -4, -1), Vec3(2, -10, -7), Vec3(2, -6, 1)),
    Moon(Vec3(1, -3, 2), Vec3(4, -8, 8), Vec3(0, -2, -1)),
    Moon(Vec3(2, -2, 5), Vec3(3, 5, -1), Vec3(1, 5, 5))]

  /** The first sample after 17 steps. */
  const Sample17: seq<Moon> := [
    Moon(Vec3(-1, 1, -6), Vec3(-1, 0, 2), Vec3(-3, 5, -2)),
    Moon(Vec3(2, -8, 1), Vec3(2, -10, -7), Vec3(-1, -4, 2)),
    Moon(Vec3(4, -6, 0), Vec3(4, -8, 8), Vec3(3, -3, -2)),
    Moon(Vec3(3, 0, 7), Vec3(3, 5, -1), Vec3(1, 2, 2))]

  /** The first sample after 18 steps. */
  const Sample18: seq<Moon> := [
    Moon(Vec3(-1, 3, -5), Vec3(-1, 0, 2), Vec3(0, 2, 1)),
    Moon(Vec3(2, -9, 2), Vec3(2, -10, -7), Vec3(0, -1, 1)),
    Moon(Vec3(4, -8, -1), Vec3(4, -8, 8), Vec3(0, -2, -1)),
    Moon(Vec3(3, 1, 6), Vec3(3, 5, -1), Vec3(0, 1, -1))]

  /** The first sample after 19 steps. */
  const Sample19: seq<Moon> := [
    Moon(Vec3(2, 2, -1), Vec3(-1, 0, 2), Vec3(3, -1, 4)),
    Moon(Vec3(3, -7, 2), Vec3(2, -10, -7), Vec3(1, 2, 0)),
    Moon(Vec3(1, -9, -1), Vec3(4, -8, 8), Vec3(-3, -1, 0)),
    Moon(Vec3(2, 1, 2), Vec3(3, 5, -1), Vec3(-1, 0, -4))]

  /** The first sample after 20 steps. */
  const Sample20: seq<Moon> := [
    Moon(Vec3(5, -2, 5), Vec3(-1, 0, 2), Vec3(3, -4, 6)),
    Moon(Vec3(1, -4, 0), Vec3(2, -10, -7), Vec3(-2, 3, -2)),
    Moon(Vec3(1, -7, 1), Vec3(4, -8, 8), Vec3(0, 2, 2)),
    Moon(Vec3(1, 0, -4), Vec3(3, 5, -1), Vec3(-1, -1, -6))]

  /** The first sample after 21 steps. */
  const Sample21: seq<Moon> := [
    Moon(Vec3(5, -7, 8), Vec3(-1, 0, 2), Vec3(0, -5, 3)),
    Moon(Vec3(0, 0, -1), Vec3(2, -10, -7), Vec3(-1, 4, -1)),
    Moon(Vec3(2, -2, 2), Vec3(4, -8, 8), Vec3(1, 5, 1)),
    Moon(Vec3(1, -4, -7), Vec3(3, 5, -1), Vec3(0, -4, -3))]

  /** The first sample after 22 steps. */
  const Sample22: seq<Moon> := [
    Moon(Vec3(2, -9, 8), Vec3(-1, 0, 2), Vec3(-3, -2, 0)),
    Moon(Vec3(2, 1, -1), Vec3(2, -10, -7), Vec3(2, 1, 0)),
    Moon(Vec3(2, 2, 2), Vec3(4, -8, 8), Vec3(0, 4, 0)),
    Moon(Vec3(2, -7, -7), Vec3(3, 5, -1), Vec3(1, -3, 0))]

  /** The first sample after 23 steps. */
  const Sample23: seq<Moon> := [
    Moon(Vec3(-1, -8, 5), Vec3(-1, 0, 2), Vec3(-3, 1, -3)),
    Moon(Vec3(4, 1, 0), Vec3(2, -10, -7), Vec3(2, 0, 1)),
    Moon(Vec3(2, 3, 1), Vec3(4, -8, 8), Vec3(0, 1, -1)),
    Moon(Vec3(3, -9, -4), Vec3(3, 5, -1), Vec3(1, -2, 3))]

  /** The first sample after 24 steps. */
  const Sample24: seq<Moon> := [
    Moon(Vec3(-1, -6, -1), Vec3(-1, 0, 2), Vec3(0, 2, -6)),
    Moon(Vec3(3, 0, 2), Vec3(2, -10, -7), Vec3(-1, -1, 2)),
    Moon(Vec3(3, 1, -1), Vec3(4, -8, 8), Vec3(1, -2, -2)),
    Moon(Vec3(3, -8, 2), Vec3(3, 5, -1), Vec3(0, 1, 6))]

  /** The first sample after 25 steps. */
  const Sample25: seq<Moon> := [
    Moon(Vec3(2, -3, -5), Vec3(-1, 0, 2), Vec3(3, 3, -4)),
    Moon(Vec3(1, -2, 2), Vec3(2, -10, -7), Vec3(-2, -2, 0)),
    Moon(Vec3(3, -4, -1), Vec3(4, -8, 8), Vec3(0, -5, 0)),
    Moon(Vec3(2, -4, 6), Vec3(3, 5, -1), Vec3(-1, 4, 4))]

  /** The first sample after 26 steps. */
  const Sample26: seq<Moon> := [
    Moon(Vec3(5, -1, -6), Vec3(-1, 0, 2), Vec3(3, 2, -1)),
    Moon(Vec3(2, -7, 1), Vec3(2, -10, -7), Vec3(1, -5, -1)),
    Moon(Vec3(0, -7, 0), Vec3(4, -8, 8), Vec3(-3, -3, 1)),
    Moon(Vec3(1, 2, 7), Vec3(3, 5, -1), Vec3(-1, 6, 1))]

  /** The first sample after 27 steps. */
  const Sample27: seq<Moon> := [
    Moon(Vec3(5, 0, -4), Vec3(-1, 0, 2), Vec3(0, 1, 2)),
    Moon(Vec3(2, -10, -1), Vec3(2, -10, -7), Vec3(0, -3, -2)),
    Moon(Vec3(0, -8, 2), Vec3(4, -8, 8), Vec3(0, -1, 2)),
    Moon(Vec3(1, 5, 5), Vec3(3, 5, -1), Vec3(0, 3, -2))]

  /** The first sample after 28 steps. */
  const Sample28: seq<Moon> := [
    Moon(Vec3(2, 0, 1), Vec3(-1, 0, 2), Vec3(-3, 0, 5)),
    Moon(Vec3(1, -10, -2), Vec3(2, -10, -7), Vec3(-1, 0, -1)),
    Moon(Vec3(3, -8, 3), Vec3(4, -8, 8), Vec3(3, 0, 1)),
    Moon(Vec3(2, 5, 0), Vec3(3, 5, -1), Vec3(1, 0, -5))]

  /** The first sample after 29 steps. */
  const Sample29: seq<Moon> := [
    Moon(Vec3(-1, -1, 5), Vec3(-1, 0, 2), Vec3(-3, -1, 4)),
    Moon(Vec3(3, -7, 0), Vec3(2, -10, -7), Vec3(2, 3, 2)),
    Moon(Vec3(3, -7, 1), Vec3(4, -8, 8), Vec3(0, 1, -2)),
    Moon(Vec3(3, 2, -4), Vec3(3, 5, -1), Vec3(1, -3, -4))]

  /** The first sample after 30 steps. */
  const Sample30: seq<Moon> := [
    Moon(Vec3(-1, -3, 6), Vec3(-1, 0, 2), Vec3(0, -2, 1)),
    Moon(Vec3(4, -2, 3), Vec3(2, -10, -7), Vec3(1, 5, 3)),
    Moon(Vec3(2, -4, -2), Vec3(4, -8, 8), Vec3(-1, 3, -3)),
    Moon(Vec3(3, -4, -5), Vec3(3, 5, -1), Vec3(0, -6, -1))]

  /** The first sample after 31 steps. */
  const Sample31: seq<Moon> := [
    Moon(Vec3(2, -6, 4), Vec3(-1, 0, 2), Vec3(3, -3, -2)),
    Moon(Vec3(2, 0, 5), Vec3(2, -10, -7), Vec3(-2, 2, 2)),
    Moon(Vec3(2, 1, -4), Vec3(4, -8, 8), Vec3(0, 5, -2)),
    Moon(Vec3(2, -8, -3), Vec3(3, 5, -1), Vec3(-1, -4, 2))]

  /** The first sample after 32 steps. */
  const Sample32: seq<Moon> := [
    Moon(Vec3(5, -8, 1), Vec3(-1, 0, 2), Vec3(3, -2, -3)),
    Moon(Vec3(0, 1, 4), Vec3(2, -10, -7), Vec3(-2, 1, -1)),
    Moon(Vec3(2, 3, -3), Vec3(4, -8, 8), Vec3(0, 2, 1)),
    Moon(Vec3(1, -9, 0), Vec3(3, 5, -1), Vec3(-1, -1, 3))]

  /** The first sample after 33 steps. */
  const Sample33: seq<Moon> := [
    Moon(Vec3(5, -9, -3), Vec3(-1, 0, 2), Vec3(0, -1, -4)),
    Moon(Vec3(1, 1, 0), Vec3(2, -10, -7), Vec3(1, 0, -4)),
    Moon(Vec3(1, 2, 1), Vec3(4, -8, 8), Vec3(-1, -1, 4)),
    Moon(Vec3(1, -7, 4), Vec3(3, 5, -1), Vec3(0, 2, 4))]

  /** The first sample after 34 steps. */
  const Sample34: seq<Moon> := [
    Moon(Vec3(2, -7, -4), Vec3(-1, 0, 2), Vec3(-3, 2, -1)),
    Moon(Vec3(3, 0, -3), Vec3(2, -10, -7), Vec3(2, -1, -3)),
    Moon(Vec3(1, -2, 4), Vec3(4, -8, 8), Vec3(0, -4, 3)),
    Moon(Vec3(2, -4, 5), Vec3(3, 5, -1), Vec3(1, 3, 1))]

  /** The first sample after 35 steps. */
  const Sample35: seq<Moon> := [
    Moon(Vec3(-1, -2, -2), Vec3(-1, 0, 2), Vec3(-3, 5, 2)),
    Moon(Vec3(2, -4, -5), Vec3(2, -10, -7), Vec3(-1, -4, -2)),
    Moon(Vec3(4, -7, 6), Vec3(4, -8, 8), Vec3(3, -5, 2)),
    Moon(Vec3(3, 0, 3), Vec3(3, 5, -1), Vec3(1, 4, -2))]

  /** The first sample after 36 steps. */
  const Sample36: seq<Moon> := [
    Moon(Vec3(-1, 2, 1), Vec3(-1, 0, 2), Vec3(0, 4, 3)),
    Moon(Vec3(2, -7, -4), Vec3(2, -10, -7), Vec3(0, -3, 1)),
    Moon(Vec3(4, -9, 5), Vec3(4, -8, 8), Vec3(0, -2, -1)),
    Moon(Vec3(3, 1, 0), Vec3(3, 5, -1), Vec3(0, 1, -3))]

  /** The first sample after 37 steps. */
  const Sample37: seq<Moon> := [
    Moon(Vec3(2, 3, 3), Vec3(-1, 0, 2), Vec3(3, 1, 2)),
    Moon(Vec3(3, -9, 0), Vec3(2, -10, -7), Vec3(1, -2, 4)),
    Moon(Vec3(1, -8, 1), Vec3(4, -8, 8), Vec3(-3, 1, -4)),
    Moon(Vec3(2, 1, -2), Vec3(3, 5, -1), Vec3(-1, 0, -2))]

  /** The first sample after 38 steps. */
  const Sample38: seq<Moon> := [
    Moon(Vec3(5, 1, 2), Vec3(-1, 0, 2), Vec3(3, -2, -1)),
    Moon(Vec3(1, -8, 5), Vec3(2, -10, -7), Vec3(-2, 1, 5)),
    Moon(Vec3(1, -6, -4), Vec3(4, -8, 8), Vec3(0, 2, -5)),
    Moon(Vec3(1, 0, -1), Vec3(3, 5, -1), Vec3(-1, -1, 1))]

  /** The first sample after 39 steps. */
  const Sample39: seq<Moon> := [
    Moon(Vec3(5, -4, 0), Vec3(-1, 0, 2), Vec3(0, -5, -2)),
    Moon(Vec3(0, -4, 7), Vec3(2, -10, -7), Vec3(-1, 4, 2)),
    Moon(Vec3(2, -3, -6), Vec3(4, -8, 8), Vec3(1, 3, -2)),
    Moon(Vec3(1, -2, 1), Vec3(3, 5, -1), Vec3(0, -2, 2))]

  /** The first sample after 40 steps. */
  const Sample40: seq<Moon> := [
    Moon(Vec3(2, -7, -1), Vec3(-1, 0, 2), Vec3(-3, -3, -1)),
    Moon(Vec3(2, 2, 6), Vec3(2, -10, -7), Vec3(2, 6, -1)),
    Moon(Vec3(2, -1, -5), Vec3(4, -8, 8), Vec3(0, 2, 1)),
    Moon(Vec3(2, -7, 2), Vec3(3, 5, -1), Vec3(1, -5, 1))]

  /** The first sample after 41 steps. */
  const Sample41: seq<Moon> := [
    Moon(Vec3(-1, -8, -1), Vec3(-1, 0, 2), Vec3(-3, -1, 0)),
    Moon(Vec3(4, 5, 2), Vec3(2, -10, -7), Vec3(2, 3, -4)),
    Moon(Vec3(2, 0, -1), Vec3(4, -8, 8), Vec3(0, 1, 4)),
    Moon(Vec3(3, -10, 2), Vec3(3, 5, -1), Vec3(1, -3, 0))]

  /** The first sample after 42 steps. */
  const Sample42: seq<Moon> := [
    Moon(Vec3(-1, -8, 1), Vec3(-1, 0, 2), Vec3(0, 0, 2)),
    Moon(Vec3(3, 5, -4), Vec3(2, -10, -7), Vec3(-1, 0, -6)),
    Moon(Vec3(3, 0, 5), Vec3(4, -8, 8), Vec3(1, 0, 6)),
    Moon(Vec3(3, -10, 0), Vec3(3, 5, -1), Vec3(0, 0, -2))]

  /** The first sample after 43 steps. */
  const Sample43: seq<Moon> := [
    Moon(Vec3(2, -7, 2), Vec3(-1, 0, 2), Vec3(3, 1, 1)),
    Moon(Vec3(1, 2, -7), Vec3(2, -10, -7), Vec3(-2, -3, -3)),
    Moon(Vec3(3, -1, 8), Vec3(4, -8, 8), Vec3(0, -1, 3)),
    Moon(Vec3(2, -7, -1), Vec3(3, 5, -1), Vec3(-1, 3, -1))]

  /** The first sample after 44 steps. */
  const Sample44: seq<Moon> := [
    Moon(Vec3(5, -4, 2), Vec3(-1, 0, 2), Vec3(3, 3, 0)),
    Moon(Vec3(2, -4, -7), Vec3(2, -10, -7), Vec3(1, -6, 0)),
    Moon(Vec3(0, -3, 8), Vec3(4, -8, 8), Vec3(-3, -2, 0)),
    Moon(Vec3(1, -2, -1), Vec3(3, 5, -1), Vec3(-1, 5, 0))]

  /** The velocity changes in step 1 of the first sample. */
  lemma SamplePulls0()
    ensures Dv(Sample, 0) == Vec3(3, -1, -1) && Dv(Sample, 1) == Vec3(1, 3, 3)
    ensures Dv(Sample, 2) == Vec3(-3, 1, -3) && Dv(Sample, 3) == Vec3(-1, -3, 1)
  {
  }

  /** The moves in step 1 of the first sample. */
  lemma SampleMoves0()
    ensures Move(Sample[0], Vec3(3, -1, -1)) == Sample1[0] && Move(Sample[1], Vec3(1, 3, 3)) == Sample1[1]
    ensures Move(Sample[2], Vec3(-3, 1, -3)) == Sample1[2] && Move(Sample[3], Vec3(-1, -3, 1)) == Sample1[3]
  {
  }

  /** Step 1 of the first sample. */
  lemma SampleStep0()
    ensures StepSpec(Sample) == Sample1
  {
    SamplePulls0();
    SampleMoves0();
    StepOfFour(Sample, Vec3(3, -1, -1), Vec3(1, 3, 3), Vec3(-3, 1, -3), Vec3(-1, -3, 1), Sample1);
  }

  /** The velocity changes in step 2 of the first sample. */
  lemma SamplePulls1()
    ensures Dv(Sample1, 0) == Vec3(0, -1, -1) && Dv(Sample1, 1) == Vec3(-3, 2, 3)
    ensures Dv(Sample1, 2) == Vec3(3, 2, -3) && Dv(Sample1, 3) == Vec3(0, -3, 1)
  {
  }

  /** The moves in step 2 of the first sample. */
  lemma SampleMoves1()
    ensures Move(Sample1[0], Vec3(0, -1, -1)) == Sample2[0] && Move(Sample1[1], Vec3(-3, 2, 3)) == Sample2[1]
    ensures Move(Sample1[2], Vec3(3, 2, -3)) == Sample2[2] && Move(Sample1[3], Vec3(0, -3, 1)) == Sample2[3]
  {
  }

  /** Step 2 of the first sample. */
  lemma SampleStep1()
    ensures StepSpec(Sample1) == Sample2
  {
    SamplePulls1();
    SampleMoves1();
    StepOfFour(Sample1, Vec3(0, -1, -1), Vec3(-3, 2, 3), Vec3(3, 2, -3), Vec3(0, -3, 1), Sample2);
  }

  /** The velocity changes in step 3 of the first sample. */
  lemma SamplePulls2()
    ensures Dv(Sample2, 0) == Vec3(-3, -1, 2) && Dv(Sample2, 1) == Vec3(1, -3, -2)
    ensures Dv(Sample2, 2) == Vec3(1, 2, 2) && Dv(Sample2, 3) == Vec3(1, 2, -2)
  {
  }

  /** The moves in step 3 of the first sample. */
  lemma SampleMoves2()
    ensures Move(Sample2[0], Vec3(-3, -1, 2)) == Sample3[0] && Move(Sample2[1], Vec3(1, -3, -2)) == Sample3[1]
    ensures Move(Sample2[2], Vec3(1, 2, 2)) == Sample3[2] && Move(Sample2[3], Vec3(1, 2, -2)) == Sample3[3]
  {
  }

  /** Step 3 of the first sample. */
  lemma SampleStep2()
    ensures StepSpec(Sample2) == Sample3
  {
    SamplePulls2();
    SampleMoves2();
    StepOfFour(Sample2, Vec3(-3, -1, 2), Vec3(1, -3, -2), Vec3(1, 2, 2), Vec3(1, 2, -2), Sample3);
  }

  /** The velocity changes in step 4 of the first sample. */
  lemma SamplePulls3()
    ensures Dv(Sample3, 0) == Vec3(-3, 1, 1) && Dv(Sample3, 1) == Vec3(3, -1, -3)
    ensures Dv(Sample3, 2) == Vec3(-1, -3, 3) && Dv(Sample3, 3) == Vec3(1, 3, -1)
  {
  }

  /** The moves in step 4 of the first sample. */
  lemma SampleMoves3()
    ensures Move(Sample3[0], Vec3(-3, 1, 1)) == Sample4[0] && Move(Sample3[1], Vec3(3, -1, -3)) == Sample4[1]
    ensures Move(Sample3[2], Vec3(-1, -3, 3)) == Sample4[2] && Move(Sample3[3], Vec3(1, 3, -1)) == Sample4[3]
  {
  }

  /** Step 4 of the first sample. */
  lemma SampleStep3()
    ensures StepSpec(Sample3) == Sample4
  {
    SamplePulls3();
    SampleMoves3();
    StepOfFour(Sample3, Vec3(-3, 1, 1), Vec3(3, -1, -3), Vec3(-1, -3, 3), Vec3(1, 3, -1), Sample4);
  }

  /** The velocity changes in step 5 of the first sample. */
  lemma SamplePulls4()
    ensures Dv(Sample4, 0) == Vec3(0, 1, 1) && Dv(Sample4, 1) == Vec3(0, -1, -3)
    ensures Dv(Sample4, 2) == Vec3(0, -3, 3) && Dv(Sample4, 3) == Vec3(0, 3, -1)
  {
  }

  /** The moves in step 5 of the first sample. */
  lemma SampleMoves4()
    ensures Move(Sample4[0], Vec3(0, 1, 1)) == Sample5[0] && Move(Sample4[1], Vec3(0, -1, -3)) == Sample5[1]
    ensures Move(Sample4[2], Vec3(0, -3, 3)) == Sample5[2] && Move(Sample4[3], Vec3(0, 3, -1)) == Sample5[3]
  {
  }

  /** Step 5 of the first sample. */
  lemma SampleStep4()
    ensures StepSpec(Sample4) == Sample5
  {
    SamplePulls4();
    SampleMoves4();
    StepOfFour(Sample4, Vec3(0, 1, 1), Vec3(0, -1, -3), Vec3(0, -3, 3), Vec3(0, 3, -1), Sample5);
  }

  /** The velocity changes in step 6 of the first sample. */
  lemma SamplePulls5()
    ensures Dv(Sample5, 0) == Vec3(3, 3, -1) && Dv(Sample5, 1) == Vec3(-3, -1, -3)
    ensures Dv(Sample5, 2) == Vec3(1, -3, 3) && Dv(Sample5, 3) == Vec3(-1, 1, 1)
  {
  }

  /** The moves in step 6 of the first sample. */
  lemma SampleMoves5()
    ensures Move(Sample5[0], Vec3(3, 3, -1)) == Sample6[0] && Move(Sample5[1], Vec3(-3, -1, -3)) == Sample6[1]
    ensures Move(Sample5[2], Vec3(1, -3, 3)) == Sample6[2] && Move(Sample5[3], Vec3(-1, 1, 1)) == Sample6[3]
  {
  }

  /** Step 6 of the first sample. */
  lemma SampleStep5()
    ensures StepSpec(Sample5) == Sample6
  {
    SamplePulls5();
    SampleMoves5();
    StepOfFour(Sample5, Vec3(3, 3, -1), Vec3(-3, -1, -3), Vec3(1, -3, 3), Vec3(-1, 1, 1), Sample6);
  }

  /** The velocity changes in step 7 of the first sample. */
  lemma SamplePulls6()
    ensures Dv(Sample6, 0) == Vec3(3, 3, -3) && Dv(Sample6, 1) == Vec3(-1, -3, 1)
    ensures Dv(Sample6, 2) == Vec3(-1, -1, -1) && Dv(Sample6, 3) == Vec3(-1, 1, 3)
  {
  }

  /** The moves in step 7 of the first sample. */
  lemma SampleMoves6()
    ensures Move(Sample6[0], Vec3(3, 3, -3)) == Sample7[0] && Move(Sample6[1], Vec3(-1, -3, 1)) == Sample7[1]
    ensures Move(Sample6[2], Vec3(-1, -1, -1)) == Sample7[2] && Move(Sample6[3], Vec3(-1, 1, 3)) == Sample7[3]
  {
  }

  /** Step 7 of the first sample. */
  lemma SampleStep6()
    ensures StepSpec(Sample6) == Sample7
  {
    SamplePulls6();
    SampleMoves6();
    StepOfFour(Sample6, Vec3(3, 3, -3), Vec3(-1, -3, 1), Vec3(-1, -1, -1), Vec3(-1, 1, 3), Sample7);
  }

  /** The velocity changes in step 8 of the first sample. */
  lemma SamplePulls7()
    ensures Dv(Sample7, 0) == Vec3(0, -1, -1) && Dv(Sample7, 1) == Vec3(3, 1, 3)
    ensures Dv(Sample7, 2) == Vec3(-3, 3, -3) && Dv(Sample7, 3) == Vec3(0, -3, 1)
  {
  }

  /** The moves in step 8 of the first sample. */
  lemma SampleMoves7()
    ensures Move(Sample7[0], Vec3(0, -1, -1)) == Sample8[0] && Move(Sample7[1], Vec3(3, 1, 3)) == Sample8[1]
    ensures Move(Sample7[2], Vec3(-3, 3, -3)) == Sample8[2] && Move(Sample7[3], Vec3(0, -3, 1)) == Sample8[3]
  {
  }

  /** Step 8 of the first sample. */
  lemma SampleStep7()
    ensures StepSpec(Sample7) == Sample8
  {
    SamplePulls7();
    SampleMoves7();
    StepOfFour(Sample7, Vec3(0, -1, -1), Vec3(3, 1, 3), Vec3(-3, 3, -3), Vec3(0, -3, 1), Sample8);
  }

  /** The velocity changes in step 9 of the first sample. */
  lemma SamplePulls8()
    ensures Dv(Sample8, 0) == Vec3(-3, -3, 1) && Dv(Sample8, 1) == Vec3(-1, 1, 3)
    ensures Dv(Sample8, 2) == Vec3(3, 3, -3) && Dv(Sample8, 3) == Vec3(1, -1, -1)
  {
  }

  /** The moves in step 9 of the first sample. */
  lemma SampleMoves8()
    ensures Move(Sample8[0], Vec3(-3, -3, 1)) == Sample9[0] && Move(Sample8[1], Vec3(-1, 1, 3)) == Sample9[1]
    ensures Move(Sample8[2], Vec3(3, 3, -3)) == Sample9[2] && Move(Sample8[3], Vec3(1, -1, -1)) == Sample9[3]
  {
  }

  /** Step 9 of the first sample. */
  lemma SampleStep8()
    ensures StepSpec(Sample8) == Sample9
  {
    SamplePulls8();
    SampleMoves8();
    StepOfFour(Sample8, Vec3(-3, -3, 1), Vec3(-1, 1, 3), Vec3(3, 3, -3), Vec3(1, -1, -1), Sample9);
  }

  /** The velocity changes in step 10 of the first sample. */
  lemma SamplePulls9()
    ensures Dv(Sample9, 0) == Vec3(-3, -3, 3) && Dv(Sample9, 1) == Vec3(-1, 3, 1)
    ensures Dv(Sample9, 2) == Vec3(3, 1, -1) && Dv(Sample9, 3) == Vec3(1, -1, -3)
  {
  }

  /** The moves in step 10 of the first sample. */
  lemma SampleMoves9()
    ensures Move(Sample9[0], Vec3(-3, -3, 3)) == Sample10[0] && Move(Sample9[1], Vec3(-1, 3, 1)) == Sample10[1]
    ensures Move(Sample9[2], Vec3(3, 1, -1)) == Sample10[2] && Move(Sample9[3], Vec3(1, -1, -3)) == Sample10[3]
  {
  }

  /** Step 10 of the first sample. */
  lemma SampleStep9()
    ensures StepSpec(Sample9) == Sample10
  {
    SamplePulls9();
    SampleMoves9();
    StepOfFour(Sample9, Vec3(-3, -3, 3), Vec3(-1, 3, 1), Vec3(3, 1, -1), Vec3(1, -1, -3), Sample10);
  }

  /** The velocity changes in step 11 of the first sample. */
  lemma SamplePulls10()
    ensures Dv(Sample10, 0) == Vec3(0, -3, 3) && Dv(Sample10, 1) == Vec3(3, 3, 1)
    ensures Dv(Sample10, 2) == Vec3(-3, 1, -1) && Dv(Sample10, 3) == Vec3(0, -1, -3)
  {
  }

  /** The moves in step 11 of the first sample. */
  lemma SampleMoves10()
    ensures Move(Sample10[0], Vec3(0, -3, 3)) == Sample11[0] && Move(Sample10[1], Vec3(3, 3, 1)) == Sample11[1]
    ensures Move(Sample10[2], Vec3(-3, 1, -1)) == Sample11[2] && Move(Sample10[3], Vec3(0, -1, -3)) == Sample11[3]
  {
  }

  /** Step 11 of the first sample. */
  lemma SampleStep10()
    ensures StepSpec(Sample10) == Sample11
  {
    SamplePulls10();
    SampleMoves10();
    StepOfFour(Sample10, Vec3(0, -3, 3), Vec3(3, 3, 1), Vec3(-3, 1, -1), Vec3(0, -1, -3), Sample11);
  }

  /** The velocity changes in step 12 of the first sample. */
  lemma SamplePulls11()
    ensures Dv(Sample11, 0) == Vec3(3, 2, -1) && Dv(Sample11, 1) == Vec3(-1, 2, -3)
    ensures Dv(Sample11, 2) == Vec3(-1, -1, 3) && Dv(Sample11, 3) == Vec3(-1, -3, 1)
  {
  }

  /** The moves in step 12 of the first sample. */
  lemma SampleMoves11()
    ensures Move(Sample11[0], Vec3(3, 2, -1)) == Sample12[0] && Move(Sample11[1], Vec3(-1, 2, -3)) == Sample12[1]
    ensures Move(Sample11[2], Vec3(-1, -1, 3)) == Sample12[2] && Move(Sample11[3], Vec3(-1, -3, 1)) == Sample12[3]
  {
  }

  /** Step 12 of the first sample. */
  lemma SampleStep11()
    ensures StepSpec(Sample11) == Sample12
  {
    SamplePulls11();
    SampleMoves11();
    StepOfFour(Sample11, Vec3(3, 2, -1), Vec3(-1, 2, -3), Vec3(-1, -1, 3), Vec3(-1, -3, 1), Sample12);
  }

  /** The velocity changes in step 13 of the first sample. */
  lemma SamplePulls12()
    ensures Dv(Sample12, 0) == Vec3(3, 2, -1) && Dv(Sample12, 1) == Vec3(-3, -3, -3)
    ensures Dv(Sample12, 2) == Vec3(1, -1, 3) && Dv(Sample12, 3) == Vec3(-1, 2, 1)
  {
  }

  /** The moves in step 13 of the first sample. */
  lemma SampleMoves12()
    ensures Move(Sample12[0], Vec3(3, 2, -1)) == Sample13[0] && Move(Sample12[1], Vec3(-3, -3, -3)) == Sample13[1]
    ensures Move(Sample12[2], Vec3(1, -1, 3)) == Sample13[2] && Move(Sample12[3], Vec3(-1, 2, 1)) == Sample13[3]
  {
  }

  /** Step 13 of the first sample. */
  lemma SampleStep12()
    ensures StepSpec(Sample12) == Sample13
  {
    SamplePulls12();
    SampleMoves12();
    StepOfFour(Sample12, Vec3(3, 2, -1), Vec3(-3, -3, -3), Vec3(1, -1, 3), Vec3(-1, 2, 1), Sample13);
  }

  /** The velocity changes in step 14 of the first sample. */
  lemma SamplePulls13()
    ensures Dv(Sample13, 0) == Vec3(0, 1, -3) && Dv(Sample13, 1) == Vec3(0, -3, -1)
    ensures Dv(Sample13, 2) == Vec3(0, -1, 1) && Dv(Sample13, 3) == Vec3(0, 3, 3)
  {
  }

  /** The moves in step 14 of the first sample. */
  lemma SampleMoves13()
    ensures Move(Sample13[0], Vec3(0, 1, -3)) == Sample14[0] && Move(Sample13[1], Vec3(0, -3, -1)) == Sample14[1]
    ensures Move(Sample13[2], Vec3(0, -1, 1)) == Sample14[2] && Move(Sample13[3], Vec3(0, 3, 3)) == Sample14[3]
  {
  }

  /** Step 14 of the first sample. */
  lemma SampleStep13()
    ensures StepSpec(Sample13) == Sample14
  {
    SamplePulls13();
    SampleMoves13();
    StepOfFour(Sample13, Vec3(0, 1, -3), Vec3(0, -3, -1), Vec3(0, -1, 1), Vec3(0, 3, 3), Sample14);
  }

  /** The velocity changes in step 15 of the first sample. */
  lemma SamplePulls14()
    ensures Dv(Sample14, 0) == Vec3(-3, 1, -3) && Dv(Sample14, 1) == Vec3(3, -3, 1)
    ensures Dv(Sample14, 2) == Vec3(-1, -1, -1) && Dv(Sample14, 3) == Vec3(1, 3, 3)
  {
  }

  /** The moves in step 15 of the first sample. */
  lemma SampleMoves14()
    ensures Move(Sample14[0], Vec3(-3, 1, -3)) == Sample15[0] && Move(Sample14[1], Vec3(3, -3, 1)) == Sample15[1]
    ensures Move(Sample14[2], Vec3(-1, -1, -1)) == Sample15[2] && Move(Sample14[3], Vec3(1, 3, 3)) == Sample15[3]
  {
  }

  /** Step 15 of the first sample. */
  lemma SampleStep14()
    ensures StepSpec(Sample14) == Sample15
  {
    SamplePulls14();
    SampleMoves14();
    StepOfFour(Sample14, Vec3(-3, 1, -3), Vec3(3, -3, 1), Vec3(-1, -1, -1), Vec3(1, 3, 3), Sample15);
  }

  /** The velocity changes in step 16 of the first sample. */
  lemma SamplePulls15()
    ensures Dv(Sample15, 0) == Vec3(-3, 2, -1) && Dv(Sample15, 1) == Vec3(1, -3, 3)
    ensures Dv(Sample15, 2) == Vec3(1, -1, -3) && Dv(Sample15, 3) == Vec3(1, 2, 1)
  {
  }

  /** The moves in step 16 of the first sample. */
  lemma SampleMoves15()
    ensures Move(Sample15[0], Vec3(-3, 2, -1)) == Sample16[0] && Move(Sample15[1], Vec3(1, -3, 3)) == Sample16[1]
    ensures Move(Sample15[2], Vec3(1, -1, -3)) == Sample16[2] && Move(Sample15[3], Vec3(1, 2, 1)) == Sample16[3]
  {
  }

  /** Step 16 of the first sample. */
  lemma SampleStep15()
    ensures StepSpec(Sample15) == Sample16
  {
    SamplePulls15();
    SampleMoves15();
    StepOfFour(Sample15, Vec3(-3, 2, -1), Vec3(1, -3, 3), Vec3(1, -1, -3), Vec3(1, 2, 1), Sample16);
  }

  /** The velocity changes in step 17 of the first sample. */
  lemma SamplePulls16()
    ensures Dv(Sample16, 0) == Vec3(0, 2, 3) && Dv(Sample16, 1) == Vec3(-3, 2, 1)
    ensures Dv(Sample16, 2) == Vec3(3, -1, -1) && Dv(Sample16, 3) == Vec3(0, -3, -3)
  {
  }

  /** The moves in step 17 of the first sample. */
  lemma SampleMoves16()
    ensures Move(Sample16[0], Vec3(0, 2, 3)) == Sample17[0] && Move(Sample16[1], Vec3(-3, 2, 1)) == Sample17[1]
    ensures Move(Sample16[2], Vec3(3, -1, -1)) == Sample17[2] && Move(Sample16[3], Vec3(0, -3, -3)) == Sample17[3]
  {
  }

  /** Step 17 of the first sample. */
  lemma SampleStep16()
    ensures StepSpec(Sample16) == Sample17
  {
    SamplePulls16();
    SampleMoves16();
    StepOfFour(Sample16, Vec3(0, 2, 3), Vec3(-3, 2, 1), Vec3(3, -1, -1), Vec3(0, -3, -3), Sample17);
  }

  /** The velocity changes in step 18 of the first sample. */
  lemma SamplePulls17()
    ensures Dv(Sample17, 0) == Vec3(3, -3, 3) && Dv(Sample17, 1) == Vec3(1, 3, -1)
    ensures Dv(Sample17, 2) == Vec3(-3, 1, 1) && Dv(Sample17, 3) == Vec3(-1, -1, -3)
  {
  }

  /** The moves in step 18 of the first sample. */
  lemma SampleMoves17()
    ensures Move(Sample17[0], Vec3(3, -3, 3)) == Sample18[0] && Move(Sample17[1], Vec3(1, 3, -1)) == Sample18[1]
    ensures Move(Sample17[2], Vec3(-3, 1, 1)) == Sample18[2] && Move(Sample17[3], Vec3(-1, -1, -3)) == Sample18[3]
  {
  }

  /** Step 18 of the first sample. */
  lemma SampleStep17()
    ensures StepSpec(Sample17) == Sample18
  {
    SamplePulls17();
    SampleMoves17();
    StepOfFour(Sample17, Vec3(3, -3, 3), Vec3(1, 3, -1), Vec3(-3, 1, 1), Vec3(-1, -1, -3), Sample18);
  }

  /** The velocity changes in step 19 of the first sample. */
  lemma SamplePulls18()
    ensures Dv(Sample18, 0) == Vec3(3, -3, 3) && Dv(Sample18, 1) == Vec3(1, 3, -1)
    ensures Dv(Sample18, 2) == Vec3(-3, 1, 1) && Dv(Sample18, 3) == Vec3(-1, -1, -3)
  {
  }

  /** The moves in step 19 of the first sample. */
  lemma SampleMoves18()
    ensures Move(Sample18[0], Vec3(3, -3, 3)) == Sample19[0] && Move(Sample18[1], Vec3(1, 3, -1)) == Sample19[1]
    ensures Move(Sample18[2], Vec3(-3, 1, 1)) == Sample19[2] && Move(Sample18[3], Vec3(-1, -1, -3)) == Sample19[3]
  {
  }

  /** Step 19 of the first sample. */
  lemma SampleStep18()
    ensures StepSpec(Sample18) == Sample19
  {
    SamplePulls18();
    SampleMoves18();
    StepOfFour(Sample18, Vec3(3, -3, 3), Vec3(1, 3, -1), Vec3(-3, 1, 1), Vec3(-1, -1, -3), Sample19);
  }

  /** The velocity changes in step 20 of the first sample. */
  lemma SamplePulls19()
    ensures Dv(Sample19, 0) == Vec3(0, -3, 2) && Dv(Sample19, 1) == Vec3(-3, 1, -2)
    ensures Dv(Sample19, 2) == Vec3(3, 3, 2) && Dv(Sample19, 3) == Vec3(0, -1, -2)
  {
  }

  /** The moves in step 20 of the first sample. */
  lemma SampleMoves19()
    ensures Move(Sample19[0], Vec3(0, -3, 2)) == Sample20[0] && Move(Sample19[1], Vec3(-3, 1, -2)) == Sample20[1]
    ensures Move(Sample19[2], Vec3(3, 3, 2)) == Sample20[2] && Move(Sample19[3], Vec3(0, -1, -2)) == Sample20[3]
  {
  }

  /** Step 20 of the first sample. */
  lemma SampleStep19()
    ensures StepSpec(Sample19) == Sample20
  {
    SamplePulls19();
    SampleMoves19();
    StepOfFour(Sample19, Vec3(0, -3, 2), Vec3(-3, 1, -2), Vec3(3, 3, 2), Vec3(0, -1, -2), Sample20);
  }

  /** The velocity changes in step 21 of the first sample. */
  lemma SamplePulls20()
    ensures Dv(Sample20, 0) == Vec3(-3, -1, -3) && Dv(Sample20, 1) == Vec3(1, 1, 1)
    ensures Dv(Sample20, 2) == Vec3(1, 3, -1) && Dv(Sample20, 3) == Vec3(1, -3, 3)
  {
  }

  /** The moves in step 21 of the first sample. */
  lemma SampleMoves20()
    ensures Move(Sample20[0], Vec3(-3, -1, -3)) == Sample21[0] && Move(Sample20[1], Vec3(1, 1, 1)) == Sample21[1]
    ensures Move(Sample20[2], Vec3(1, 3, -1)) == Sample21[2] && Move(Sample20[3], Vec3(1, -3, 3)) == Sample21[3]
  {
  }

  /** Step 21 of the first sample. */
  lemma SampleStep20()
    ensures StepSpec(Sample20) == Sample21
  {
    SamplePulls20();
    SampleMoves20();
    StepOfFour(Sample20, Vec3(-3, -1, -3), Vec3(1, 1, 1), Vec3(1, 3, -1), Vec3(1, -3, 3), Sample21);
  }

  /** The velocity changes in step 22 of the first sample. */
  lemma SamplePulls21()
    ensures Dv(Sample21, 0) == Vec3(-3, 3, -3) && Dv(Sample21, 1) == Vec3(3, -3, 1)
    ensures Dv(Sample21, 2) == Vec3(-1, -1, -1) && Dv(Sample21, 3) == Vec3(1, 1, 3)
  {
  }

  /** The moves in step 22 of the first sample. */
  lemma SampleMoves21()
    ensures Move(Sample21[0], Vec3(-3, 3, -3)) == Sample22[0] && Move(Sample21[1], Vec3(3, -3, 1)) == Sample22[1]
    ensures Move(Sample21[2], Vec3(-1, -1, -1)) == Sample22[2] && Move(Sample21[3], Vec3(1, 1, 3)) == Sample22[3]
  {
  }

  /** Step 22 of the first sample. */
  lemma SampleStep21()
    ensures StepSpec(Sample21) == Sample22
  {
    SamplePulls21();
    SampleMoves21();
    StepOfFour(Sample21, Vec3(-3, 3, -3), Vec3(3, -3, 1), Vec3(-1, -1, -1), Vec3(1, 1, 3), Sample22);
  }

  /** The velocity changes in step 23 of the first sample. */
  lemma SamplePulls22()
    ensures Dv(Sample22, 0) == Vec3(0, 3, -3) && Dv(Sample22, 1) == Vec3(0, -1, 1)
    ensures Dv(Sample22, 2) == Vec3(0, -3, -1) && Dv(Sample22, 3) == Vec3(0, 1, 3)
  {
  }

  /** The moves in step 23 of the first sample. */
  lemma SampleMoves22()
    ensures Move(Sample22[0], Vec3(0, 3, -3)) == Sample23[0] && Move(Sample22[1], Vec3(0, -1, 1)) == Sample23[1]
    ensures Move(Sample22[2], Vec3(0, -3, -1)) == Sample23[2] && Move(Sample22[3], Vec3(0, 1, 3)) == Sample23[3]
  {
  }

  /** Step 23 of the first sample. */
  lemma SampleStep22()
    ensures StepSpec(Sample22) == Sample23
  {
    SamplePulls22();
    SampleMoves22();
    StepOfFour(Sample22, Vec3(0, 3, -3), Vec3(0, -1, 1), Vec3(0, -3, -1), Vec3(0, 1, 3), Sample23);
  }

  /** The velocity changes in step 24 of the first sample. */
  lemma SamplePulls23()
    ensures Dv(Sample23, 0) == Vec3(3, 1, -3) && Dv(Sample23, 1) == Vec3(-3, -1, 1)
    ensures Dv(Sample23, 2) == Vec3(1, -3, -1) && Dv(Sample23, 3) == Vec3(-1, 3, 3)
  {
  }

  /** The moves in step 24 of the first sample. */
  lemma SampleMoves23()
    ensures Move(Sample23[0], Vec3(3, 1, -3)) == Sample24[0] && Move(Sample23[1], Vec3(-3, -1, 1)) == Sample24[1]
    ensures Move(Sample23[2], Vec3(1, -3, -1)) == Sample24[2] && Move(Sample23[3], Vec3(-1, 3, 3)) == Sample24[3]
  {
  }

  /** Step 24 of the first sample. */
  lemma SampleStep23()
    ensures StepSpec(Sample23) == Sample24
  {
    SamplePulls23();
    SampleMoves23();
    StepOfFour(Sample23, Vec3(3, 1, -3), Vec3(-3, -1, 1), Vec3(1, -3, -1), Vec3(-1, 3, 3), Sample24);
  }

  /** The velocity changes in step 25 of the first sample. */
  lemma SamplePulls24()
    ensures Dv(Sample24, 0) == Vec3(3, 1, 2) && Dv(Sample24, 1) == Vec3(-1, -1, -2)
    ensures Dv(Sample24, 2) == Vec3(-1, -3, 2) && Dv(Sample24, 3) == Vec3(-1, 3, -2)
  {
  }

  /** The moves in step 25 of the first sample. */
  lemma SampleMoves24()
    ensures Move(Sample24[0], Vec3(3, 1, 2)) == Sample25[0] && Move(Sample24[1], Vec3(-1, -1, -2)) == Sample25[1]
    ensures Move(Sample24[2], Vec3(-1, -3, 2)) == Sample25[2] && Move(Sample24[3], Vec3(-1, 3, -2)) == Sample25[3]
  {
  }

  /** Step 25 of the first sample. */
  lemma SampleStep24()
    ensures StepSpec(Sample24) == Sample25
  {
    SamplePulls24();
    SampleMoves24();
    StepOfFour(Sample24, Vec3(3, 1, 2), Vec3(-1, -1, -2), Vec3(-1, -3, 2), Vec3(-1, 3, -2), Sample25);
  }

  /** The velocity changes in step 26 of the first sample. */
  lemma SamplePulls25()
    ensures Dv(Sample25, 0) == Vec3(0, -1, 3) && Dv(Sample25, 1) == Vec3(3, -3, -1)
    ensures Dv(Sample25, 2) == Vec3(-3, 2, 1) && Dv(Sample25, 3) == Vec3(0, 2, -3)
  {
  }

  /** The moves in step 26 of the first sample. */
  lemma SampleMoves25()
    ensures Move(Sample25[0], Vec3(0, -1, 3)) == Sample26[0] && Move(Sample25[1], Vec3(3, -3, -1)) == Sample26[1]
    ensures Move(Sample25[2], Vec3(-3, 2, 1)) == Sample26[2] && Move(Sample25[3], Vec3(0, 2, -3)) == Sample26[3]
  {
  }

  /** Step 26 of the first sample. */
  lemma SampleStep25()
    ensures StepSpec(Sample25) == Sample26
  {
    SamplePulls25();
    SampleMoves25();
    StepOfFour(Sample25, Vec3(0, -1, 3), Vec3(3, -3, -1), Vec3(-3, 2, 1), Vec3(0, 2, -3), Sample26);
  }

  /** The velocity changes in step 27 of the first sample. */
  lemma SamplePulls26()
    ensures Dv(Sample26, 0) == Vec3(-3, -1, 3) && Dv(Sample26, 1) == Vec3(-1, 2, -1)
    ensures Dv(Sample26, 2) == Vec3(3, 2, 1) && Dv(Sample26, 3) == Vec3(1, -3, -3)
  {
  }

  /** The moves in step 27 of the first sample. */
  lemma SampleMoves26()
    ensures Move(Sample26[0], Vec3(-3, -1, 3)) == Sample27[0] && Move(Sample26[1], Vec3(-1, 2, -1)) == Sample27[1]
    ensures Move(Sample26[2], Vec3(3, 2, 1)) == Sample27[2] && Move(Sample26[3], Vec3(1, -3, -3)) == Sample27[3]
  {
  }

  /** Step 27 of the first sample. */
  lemma SampleStep26()
    ensures StepSpec(Sample26) == Sample27
  {
    SamplePulls26();
    SampleMoves26();
    StepOfFour(Sample26, Vec3(-3, -1, 3), Vec3(-1, 2, -1), Vec3(3, 2, 1), Vec3(1, -3, -3), Sample27);
  }

  /** The velocity changes in step 28 of the first sample. */
  lemma SamplePulls27()
    ensures Dv(Sample27, 0) == Vec3(-3, -1, 3) && Dv(Sample27, 1) == Vec3(-1, 3, 1)
    ensures Dv(Sample27, 2) == Vec3(3, 1, -1) && Dv(Sample27, 3) == Vec3(1, -3, -3)
  {
  }

  /** The moves in step 28 of the first sample. */
  lemma SampleMoves27()
    ensures Move(Sample27[0], Vec3(-3, -1, 3)) == Sample28[0] && Move(Sample27[1], Vec3(-1, 3, 1)) == Sample28[1]
    ensures Move(Sample27[2], Vec3(3, 1, -1)) == Sample28[2] && Move(Sample27[3], Vec3(1, -3, -3)) == Sample28[3]
  {
  }

  /** Step 28 of the first sample. */
  lemma SampleStep27()
    ensures StepSpec(Sample27) == Sample28
  {
    SamplePulls27();
    SampleMoves27();
    StepOfFour(Sample27, Vec3(-3, -1, 3), Vec3(-1, 3, 1), Vec3(3, 1, -1), Vec3(1, -3, -3), Sample28);
  }

  /** The velocity changes in step 29 of the first sample. */
  lemma SamplePulls28()
    ensures Dv(Sample28, 0) == Vec3(0, -1, -1) && Dv(Sample28, 1) == Vec3(3, 3, 3)
    ensures Dv(Sample28, 2) == Vec3(-3, 1, -3) && Dv(Sample28, 3) == Vec3(0, -3, 1)
  {
  }

  /** The moves in step 29 of the first sample. */
  lemma SampleMoves28()
    ensures Move(Sample28[0], Vec3(0, -1, -1)) == Sample29[0] && Move(Sample28[1], Vec3(3, 3, 3)) == Sample29[1]
    ensures Move(Sample28[2], Vec3(-3, 1, -3)) == Sample29[2] && Move(Sample28[3], Vec3(0, -3, 1)) == Sample29[3]
  {
  }

  /** Step 29 of the first sample. */
  lemma SampleStep28()
    ensures StepSpec(Sample28) == Sample29
  {
    SamplePulls28();
    SampleMoves28();
    StepOfFour(Sample28, Vec3(0, -1, -1), Vec3(3, 3, 3), Vec3(-3, 1, -3), Vec3(0, -3, 1), Sample29);
  }

  /** The velocity changes in step 30 of the first sample. */
  lemma SamplePulls29()
    ensures Dv(Sample29, 0) == Vec3(3, -1, -3) && Dv(Sample29, 1) == Vec3(-1, 2, 1)
    ensures Dv(Sample29, 2) == Vec3(-1, 2, -1) && Dv(Sample29, 3) == Vec3(-1, -3, 3)
  {
  }

  /** The moves in step 30 of the first sample. */
  lemma SampleMoves29()
    ensures Move(Sample29[0], Vec3(3, -1, -3)) == Sample30[0] && Move(Sample29[1], Vec3(-1, 2, 1)) == Sample30[1]
    ensures Move(Sample29[2], Vec3(-1, 2, -1)) == Sample30[2] && Move(Sample29[3], Vec3(-1, -3, 3)) == Sample30[3]
  {
  }

  /** Step 30 of the first sample. */
  lemma SampleStep29()
    ensures StepSpec(Sample29) == Sample30
  {
    SamplePulls29();
    SampleMoves29();
    StepOfFour(Sample29, Vec3(3, -1, -3), Vec3(-1, 2, 1), Vec3(-1, 2, -1), Vec3(-1, -3, 3), Sample30);
  }

  /** The velocity changes in step 31 of the first sample. */
  lemma SamplePulls30()
    ensures Dv(Sample30, 0) == Vec3(3, -1, -3) && Dv(Sample30, 1) == Vec3(-3, -3, -1)
    ensures Dv(Sample30, 2) == Vec3(1, 2, 1) && Dv(Sample30, 3) == Vec3(-1, 2, 3)
  {
  }

  /** The moves in step 31 of the first sample. */
  lemma SampleMoves30()
    ensures Move(Sample30[0], Vec3(3, -1, -3)) == Sample31[0] && Move(Sample30[1], Vec3(-3, -3, -1)) == Sample31[1]
    ensures Move(Sample30[2], Vec3(1, 2, 1)) == Sample31[2] && Move(Sample30[3], Vec3(-1, 2, 3)) == Sample31[3]
  {
  }

  /** Step 31 of the first sample. */
  lemma SampleStep30()
    ensures StepSpec(Sample30) == Sample31
  {
    SamplePulls30();
    SampleMoves30();
    StepOfFour(Sample30, Vec3(3, -1, -3), Vec3(-3, -3, -1), Vec3(1, 2, 1), Vec3(-1, 2, 3), Sample31);
  }

  /** The velocity changes in step 32 of the first sample. */
  lemma SamplePulls31()
    ensures Dv(Sample31, 0) == Vec3(0, 1, -1) && Dv(Sample31, 1) == Vec3(0, -1, -3)
    ensures Dv(Sample31, 2) == Vec3(0, -3, 3) && Dv(Sample31, 3) == Vec3(0, 3, 1)
  {
  }

  /** The moves in step 32 of the first sample. */
  lemma SampleMoves31()
    ensures Move(Sample31[0], Vec3(0, 1, -1)) == Sample32[0] && Move(Sample31[1], Vec3(0, -1, -3)) == Sample32[1]
    ensures Move(Sample31[2], Vec3(0, -3, 3)) == Sample32[2] && Move(Sample31[3], Vec3(0, 3, 1)) == Sample32[3]
  {
  }

  /** Step 32 of the first sample. */
  lemma SampleStep31()
    ensures StepSpec(Sample31) == Sample32
  {
    SamplePulls31();
    SampleMoves31();
    StepOfFour(Sample31, Vec3(0, 1, -1), Vec3(0, -1, -3), Vec3(0, -3, 3), Vec3(0, 3, 1), Sample32);
  }

  /** The velocity changes in step 33 of the first sample. */
  lemma SamplePulls32()
    ensures Dv(Sample32, 0) == Vec3(-3, 1, -1) && Dv(Sample32, 1) == Vec3(3, -1, -3)
    ensures Dv(Sample32, 2) == Vec3(-1, -3, 3) && Dv(Sample32, 3) == Vec3(1, 3, 1)
  {
  }

  /** The moves in step 33 of the first sample. */
  lemma SampleMoves32()
    ensures Move(Sample32[0], Vec3(-3, 1, -1)) == Sample33[0] && Move(Sample32[1], Vec3(3, -1, -3)) == Sample33[1]
    ensures Move(Sample32[2], Vec3(-1, -3, 3)) == Sample33[2] && Move(Sample32[3], Vec3(1, 3, 1)) == Sample33[3]
  {
  }

  /** Step 33 of the first sample. */
  lemma SampleStep32()
    ensures StepSpec(Sample32) == Sample33
  {
    SamplePulls32();
    SampleMoves32();
    StepOfFour(Sample32, Vec3(-3, 1, -1), Vec3(3, -1, -3), Vec3(-1, -3, 3), Vec3(1, 3, 1), Sample33);
  }

  /** The velocity changes in step 34 of the first sample. */
  lemma SamplePulls33()
    ensures Dv(Sample33, 0) == Vec3(-3, 3, 3) && Dv(Sample33, 1) == Vec3(1, -1, 1)
    ensures Dv(Sample33, 2) == Vec3(1, -3, -1) && Dv(Sample33, 3) == Vec3(1, 1, -3)
  {
  }

  /** The moves in step 34 of the first sample. */
  lemma SampleMoves33()
    ensures Move(Sample33[0], Vec3(-3, 3, 3)) == Sample34[0] && Move(Sample33[1], Vec3(1, -1, 1)) == Sample34[1]
    ensures Move(Sample33[2], Vec3(1, -3, -1)) == Sample34[2] && Move(Sample33[3], Vec3(1, 1, -3)) == Sample34[3]
  {
  }

  /** Step 34 of the first sample. */
  lemma SampleStep33()
    ensures StepSpec(Sample33) == Sample34
  {
    SamplePulls33();
    SampleMoves33();
    StepOfFour(Sample33, Vec3(-3, 3, 3), Vec3(1, -1, 1), Vec3(1, -3, -1), Vec3(1, 1, -3), Sample34);
  }

  /** The velocity changes in step 35 of the first sample. */
  lemma SamplePulls34()
    ensures Dv(Sample34, 0) == Vec3(0, 3, 3) && Dv(Sample34, 1) == Vec3(-3, -3, 1)
    ensures Dv(Sample34, 2) == Vec3(3, -1, -1) && Dv(Sample34, 3) == Vec3(0, 1, -3)
  {
  }

  /** The moves in step 35 of the first sample. */
  lemma SampleMoves34()
    ensures Move(Sample34[0], Vec3(0, 3, 3)) == Sample35[0] && Move(Sample34[1], Vec3(-3, -3, 1)) == Sample35[1]
    ensures Move(Sample34[2], Vec3(3, -1, -1)) == Sample35[2] && Move(Sample34[3], Vec3(0, 1, -3)) == Sample35[3]
  {
  }

  /** Step 35 of the first sample. */
  lemma SampleStep34()
    ensures StepSpec(Sample34) == Sample35
  {
    SamplePulls34();
    SampleMoves34();
    StepOfFour(Sample34, Vec3(0, 3, 3), Vec3(-3, -3, 1), Vec3(3, -1, -1), Vec3(0, 1, -3), Sample35);
  }

  /** The velocity changes in step 36 of the first sample. */
  lemma SamplePulls35()
    ensures Dv(Sample35, 0) == Vec3(3, -1, 1) && Dv(Sample35, 1) == Vec3(1, 1, 3)
    ensures Dv(Sample35, 2) == Vec3(-3, 3, -3) && Dv(Sample35, 3) == Vec3(-1, -3, -1)
  {
  }

  /** The moves in step 36 of the first sample. */
  lemma SampleMoves35()
    ensures Move(Sample35[0], Vec3(3, -1, 1)) == Sample36[0] && Move(Sample35[1], Vec3(1, 1, 3)) == Sample36[1]
    ensures Move(Sample35[2], Vec3(-3, 3, -3)) == Sample36[2] && Move(Sample35[3], Vec3(-1, -3, -1)) == Sample36[3]
  {
  }

  /** Step 36 of the first sample. */
  lemma SampleStep35()
    ensures StepSpec(Sample35) == Sample36
  {
    SamplePulls35();
    SampleMoves35();
    StepOfFour(Sample35, Vec3(3, -1, 1), Vec3(1, 1, 3), Vec3(-3, 3, -3), Vec3(-1, -3, -1), Sample36);
  }

  /** The velocity changes in step 37 of the first sample. */
  lemma SamplePulls36()
    ensures Dv(Sample36, 0) == Vec3(3, -3, -1) && Dv(Sample36, 1) == Vec3(1, 1, 3)
    ensures Dv(Sample36, 2) == Vec3(-3, 3, -3) && Dv(Sample36, 3) == Vec3(-1, -1, 1)
  {
  }

  /** The moves in step 37 of the first sample. */
  lemma SampleMoves36()
    ensures Move(Sample36[0], Vec3(3, -3, -1)) == Sample37[0] && Move(Sample36[1], Vec3(1, 1, 3)) == Sample37[1]
    ensures Move(Sample36[2], Vec3(-3, 3, -3)) == Sample37[2] && Move(Sample36[3], Vec3(-1, -1, 1)) == Sample37[3]
  {
  }

  /** Step 37 of the first sample. */
  lemma SampleStep36()
    ensures StepSpec(Sample36) == Sample37
  {
    SamplePulls36();
    SampleMoves36();
    StepOfFour(Sample36, Vec3(3, -3, -1), Vec3(1, 1, 3), Vec3(-3, 3, -3), Vec3(-1, -1, 1), Sample37);
  }

  /** The velocity changes in step 38 of the first sample. */
  lemma SamplePulls37()
    ensures Dv(Sample37, 0) == Vec3(0, -3, -3) && Dv(Sample37, 1) == Vec3(-3, 3, 1)
    ensures Dv(Sample37, 2) == Vec3(3, 1, -1) && Dv(Sample37, 3) == Vec3(0, -1, 3)
  {
  }

  /** The moves in step 38 of the first sample. */
  lemma SampleMoves37()
    ensures Move(Sample37[0], Vec3(0, -3, -3)) == Sample38[0] && Move(Sample37[1], Vec3(-3, 3, 1)) == Sample38[1]
    ensures Move(Sample37[2], Vec3(3, 1, -1)) == Sample38[2] && Move(Sample37[3], Vec3(0, -1, 3)) == Sample38[3]
  {
  }

  /** Step 38 of the first sample. */
  lemma SampleStep37()
    ensures StepSpec(Sample37) == Sample38
  {
    SamplePulls37();
    SampleMoves37();
    StepOfFour(Sample37, Vec3(0, -3, -3), Vec3(-3, 3, 1), Vec3(3, 1, -1), Vec3(0, -1, 3), Sample38);
  }

  /** The velocity changes in step 39 of the first sample. */
  lemma SamplePulls38()
    ensures Dv(Sample38, 0) == Vec3(-3, -3, -1) && Dv(Sample38, 1) == Vec3(1, 3, -3)
    ensures Dv(Sample38, 2) == Vec3(1, 1, 3) && Dv(Sample38, 3) == Vec3(1, -1, 1)
  {
  }

  /** The moves in step 39 of the first sample. */
  lemma SampleMoves38()
    ensures Move(Sample38[0], Vec3(-3, -3, -1)) == Sample39[0] && Move(Sample38[1], Vec3(1, 3, -3)) == Sample39[1]
    ensures Move(Sample38[2], Vec3(1, 1, 3)) == Sample39[2] && Move(Sample38[3], Vec3(1, -1, 1)) == Sample39[3]
  {
  }

  /** Step 39 of the first sample. */
  lemma SampleStep38()
    ensures StepSpec(Sample38) == Sample39
  {
    SamplePulls38();
    SampleMoves38();
    StepOfFour(Sample38, Vec3(-3, -3, -1), Vec3(1, 3, -3), Vec3(1, 1, 3), Vec3(1, -1, 1), Sample39);
  }

  /** The velocity changes in step 40 of the first sample. */
  lemma SamplePulls39()
    ensures Dv(Sample39, 0) == Vec3(-3, 2, 1) && Dv(Sample39, 1) == Vec3(3, 2, -3)
    ensures Dv(Sample39, 2) == Vec3(-1, -1, 3) && Dv(Sample39, 3) == Vec3(1, -3, -1)
  {
  }

  /** The moves in step 40 of the first sample. */
  lemma SampleMoves39()
    ensures Move(Sample39[0], Vec3(-3, 2, 1)) == Sample40[0] && Move(Sample39[1], Vec3(3, 2, -3)) == Sample40[1]
    ensures Move(Sample39[2], Vec3(-1, -1, 3)) == Sample40[2] && Move(Sample39[3], Vec3(1, -3, -1)) == Sample40[3]
  {
  }

  /** Step 40 of the first sample. */
  lemma SampleStep39()
    ensures StepSpec(Sample39) == Sample40
  {
    SamplePulls39();
    SampleMoves39();
    StepOfFour(Sample39, Vec3(-3, 2, 1), Vec3(3, 2, -3), Vec3(-1, -1, 3), Vec3(1, -3, -1), Sample40);
  }

  /** The velocity changes in step 41 of the first sample. */
  lemma SamplePulls40()
    ensures Dv(Sample40, 0) == Vec3(0, 2, 1) && Dv(Sample40, 1) == Vec3(0, -3, -3)
    ensures Dv(Sample40, 2) == Vec3(0, -1, 3) && Dv(Sample40, 3) == Vec3(0, 2, -1)
  {
  }

  /** The moves in step 41 of the first sample. */
  lemma SampleMoves40()
    ensures Move(Sample40[0], Vec3(0, 2, 1)) == Sample41[0] && Move(Sample40[1], Vec3(0, -3, -3)) == Sample41[1]
    ensures Move(Sample40[2], Vec3(0, -1, 3)) == Sample41[2] && Move(Sample40[3], Vec3(0, 2, -1)) == Sample41[3]
  {
  }

  /** Step 41 of the first sample. */
  lemma SampleStep40()
    ensures StepSpec(Sample40) == Sample41
  {
    SamplePulls40();
    SampleMoves40();
    StepOfFour(Sample40, Vec3(0, 2, 1), Vec3(0, -3, -3), Vec3(0, -1, 3), Vec3(0, 2, -1), Sample41);
  }

  /** The velocity changes in step 42 of the first sample. */
  lemma SamplePulls41()
    ensures Dv(Sample41, 0) == Vec3(3, 1, 2) && Dv(Sample41, 1) == Vec3(-3, -3, -2)
    ensures Dv(Sample41, 2) == Vec3(1, -1, 2) && Dv(Sample41, 3) == Vec3(-1, 3, -2)
  {
  }

  /** The moves in step 42 of the first sample. */
  lemma SampleMoves41()
    ensures Move(Sample41[0], Vec3(3, 1, 2)) == Sample42[0] && Move(Sample41[1], Vec3(-3, -3, -2)) == Sample42[1]
    ensures Move(Sample41[2], Vec3(1, -1, 2)) == Sample42[2] && Move(Sample41[3], Vec3(-1, 3, -2)) == Sample42[3]
  {
  }

  /** Step 42 of the first sample. */
  lemma SampleStep41()
    ensures StepSpec(Sample41) == Sample42
  {
    SamplePulls41();
    SampleMoves41();
    StepOfFour(Sample41, Vec3(3, 1, 2), Vec3(-3, -3, -2), Vec3(1, -1, 2), Vec3(-1, 3, -2), Sample42);
  }

  /** The velocity changes in step 43 of the first sample. */
  lemma SamplePulls42()
    ensures Dv(Sample42, 0) == Vec3(3, 1, -1) && Dv(Sample42, 1) == Vec3(-1, -3, 3)
    ensures Dv(Sample42, 2) == Vec3(-1, -1, -3) && Dv(Sample42, 3) == Vec3(-1, 3, 1)
  {
  }

  /** The moves in step 43 of the first sample. */
  lemma SampleMoves42()
    ensures Move(Sample42[0], Vec3(3, 1, -1)) == Sample43[0] && Move(Sample42[1], Vec3(-1, -3, 3)) == Sample43[1]
    ensures Move(Sample42[2], Vec3(-1, -1, -3)) == Sample43[2] && Move(Sample42[3], Vec3(-1, 3, 1)) == Sample43[3]
  {
  }

  /** Step 43 of the first sample. */
  lemma SampleStep42()
    ensures StepSpec(Sample42) == Sample43
  {
    SamplePulls42();
    SampleMoves42();
    StepOfFour(Sample42, Vec3(3, 1, -1), Vec3(-1, -3, 3), Vec3(-1, -1, -3), Vec3(-1, 3, 1), Sample43);
  }

  /** The velocity changes in step 44 of the first sample. */
  lemma SamplePulls43()
    ensures Dv(Sample43, 0) == Vec3(0, 2, -1) && Dv(Sample43, 1) == Vec3(3, -3, 3)
    ensures Dv(Sample43, 2) == Vec3(-3, -1, -3) && Dv(Sample43, 3) == Vec3(0, 2, 1)
  {
  }

  /** The moves in step 44 of the first sample. */
  lemma SampleMoves43()
    ensures Move(Sample43[0], Vec3(0, 2, -1)) == Sample44[0] && Move(Sample43[1], Vec3(3, -3, 3)) == Sample44[1]
    ensures Move(Sample43[2], Vec3(-3, -1, -3)) == Sample44[2] && Move(Sample43[3], Vec3(0, 2, 1)) == Sample44[3]
  {
  }

  /** Step 44 of the first sample. */
  lemma SampleStep43()
    ensures StepSpec(Sample43) == Sample44
  {
    SamplePulls43();
    SampleMoves43();
    StepOfFour(Sample43, Vec3(0, 2, -1), Vec3(3, -3, 3), Vec3(-3, -1, -3), Vec3(0, 2, 1), Sample44);
  }

  // `SampleAtT`: T steps take the first sample to `SampleT`.

  lemma SampleAt1()
    ensures SimulateSpec(Sample, 1) == Sample1
  {
    SimulateSucc(Sample, 0);
    SampleStep0();
  }

  lemma SampleAt2()
    ensures SimulateSpec(Sample, 2) == Sample2
  {
    SampleAt1();
    SimulateSucc(Sample, 1);
    SampleStep1();
  }

  lemma SampleAt3()
    ensures SimulateSpec(Sample, 3) == Sample3
  {
    SampleAt2();
    SimulateSucc(Sample, 2);
    SampleStep2();
  }

  lemma SampleAt4()
    ensures SimulateSpec(Sample, 4) == Sample4
  {
    SampleAt3();
    SimulateSucc(Sample, 3);
    SampleStep3();
  }

  lemma SampleAt5()
    ensures SimulateSpec(Sample, 5) == Sample5
  {
    SampleAt4();
    SimulateSucc(Sample, 4);
    SampleStep4();
  }

  lemma SampleAt6()
    ensures SimulateSpec(Sample, 6) == Sample6
  {
    SampleAt5();
    SimulateSucc(Sample, 5);
    SampleStep5();
  }

  lemma SampleAt7()
    ensures SimulateSpec(Sample, 7) == Sample7
  {
    SampleAt6();
    SimulateSucc(Sample, 6);
    SampleStep6();
  }

  lemma SampleAt8()
    ensures SimulateSpec(Sample, 8) == Sample8
  {
    SampleAt7();
    SimulateSucc(Sample, 7);
    SampleStep7();
  }

  lemma SampleAt9()
    ensures SimulateSpec(Sample, 9) == Sample9
  {
    SampleAt8();
    SimulateSucc(Sample, 8);
    SampleStep8();
  }

  lemma SampleAt10()
    ensures SimulateSpec(Sample, 10) == Sample10
  {
    SampleAt9();
    SimulateSucc(Sample, 9);
    SampleStep9();
  }

  lemma SampleAt11()
    ensures SimulateSpec(Sample, 11) == Sample11
  {
    SampleAt10();
    SimulateSucc(Sample, 10);
    SampleStep10();
  }

  lemma SampleAt12()
    ensures SimulateSpec(Sample, 12) == Sample12
  {
    SampleAt11();
    SimulateSucc(Sample, 11);
    SampleStep11();
  }

  lemma SampleAt13()
    ensures SimulateSpec(Sample, 13) == Sample13
  {
    SampleAt12();
    SimulateSucc(Sample, 12);
    SampleStep12();
  }

  lemma SampleAt14()
    ensures SimulateSpec(Sample, 14) == Sample14
  {
    SampleAt13();
    SimulateSucc(Sample, 13);
    SampleStep13();
  }

  lemma SampleAt15()
    ensures SimulateSpec(Sample, 15) == Sample15
  {
    SampleAt14();
    SimulateSucc(Sample, 14);
    SampleStep14();
  }

  lemma SampleAt16()
    ensures SimulateSpec(Sample, 16) == Sample16
  {
    SampleAt15();
    SimulateSucc(Sample, 15);
    SampleStep15();
  }

  lemma SampleAt17()
    ensures SimulateSpec(Sample, 17) == Sample17
  {
    SampleAt16();
    SimulateSucc(Sample, 16);
    SampleStep16();
  }

  lemma SampleAt18()
    ensures SimulateSpec(Sample, 18) == Sample18
  {
    SampleAt17();
    SimulateSucc(Sample, 17);
    SampleStep17();
  }

  lemma SampleAt19()
    ensures SimulateSpec(Sample, 19) == Sample19
  {
    SampleAt18();
    SimulateSucc(Sample, 18);
    SampleStep18();
  }

  lemma SampleAt20()
    ensures SimulateSpec(Sample, 20) == Sample20
  {
    SampleAt19();
    SimulateSucc(Sample, 19);
    SampleStep19();
  }

  lemma SampleAt21()
    ensures SimulateSpec(Sample, 21) == Sample21
  {
    SampleAt20();
    SimulateSucc(Sample, 20);
    SampleStep20();
  }

  lemma SampleAt22()
    ensures SimulateSpec(Sample, 22) == Sample22
  {
    SampleAt21();
    SimulateSucc(Sample, 21);
    SampleStep21();
  }

  lemma SampleAt23()
    ensures SimulateSpec(Sample, 23) == Sample23
  {
    SampleAt22();
    SimulateSucc(Sample, 22);
    SampleStep22();
  }

  lemma SampleAt24()
    ensures SimulateSpec(Sample, 24) == Sample24
  {
    SampleAt23();
    SimulateSucc(Sample, 23);
    SampleStep23();
  }

  lemma SampleAt25()
    ensures SimulateSpec(Sample, 25) == Sample25
  {
    SampleAt24();
    SimulateSucc(Sample, 24);
    SampleStep24();
  }

  lemma SampleAt26()
    ensures SimulateSpec(Sample, 26) == Sample26
  {
    SampleAt25();
    SimulateSucc(Sample, 25);
    SampleStep25();
  }

  lemma SampleAt27()
    ensures SimulateSpec(Sample, 27) == Sample27
  {
    SampleAt26();
    SimulateSucc(Sample, 26);
    SampleStep26();
  }

  lemma SampleAt28()
    ensures SimulateSpec(Sample, 28) == Sample28
  {
    SampleAt27();
    SimulateSucc(Sample, 27);
    SampleStep27();
  }

  lemma SampleAt29()
    ensures SimulateSpec(Sample, 29) == Sample29
  {
    SampleAt28();
    SimulateSucc(Sample, 28);
    SampleStep28();
  }

  lemma SampleAt30()
    ensures SimulateSpec(Sample, 30) == Sample30
  {
    SampleAt29();
    SimulateSucc(Sample, 29);
    SampleStep29();
  }

  lemma SampleAt31()
    ensures SimulateSpec(Sample, 31) == Sample31
  {
    SampleAt30();
    SimulateSucc(Sample, 30);
    SampleStep30();
  }

  lemma SampleAt32()
    ensures SimulateSpec(Sample, 32) == Sample32
  {
    SampleAt31();
    SimulateSucc(Sample, 31);
    SampleStep31();
  }

  lemma SampleAt33()
    ensures SimulateSpec(Sample, 33) == Sample33
  {
    SampleAt32();
    SimulateSucc(Sample, 32);
    SampleStep32();
  }

  lemma SampleAt34()
    ensures SimulateSpec(Sample, 34) == Sample34
  {
    SampleAt33();
    SimulateSucc(Sample, 33);
    SampleStep33();
  }

  lemma SampleAt35()
    ensures SimulateSpec(Sample, 35) == Sample35
  {
    SampleAt34();
    SimulateSucc(Sample, 34);
    SampleStep34();
  }

  lemma SampleAt36()
    ensures SimulateSpec(Sample, 36) == Sample36
  {
    SampleAt35();
    SimulateSucc(Sample, 35);
    SampleStep35();
  }

  lemma SampleAt37()
    ensures SimulateSpec(Sample, 37) == Sample37
  {
    SampleAt36();
    SimulateSucc(Sample, 36);
    SampleStep36();
  }

  lemma SampleAt38()
    ensures SimulateSpec(Sample, 38) == Sample38
  {
    SampleAt37();
    SimulateSucc(Sample, 37);
    SampleStep37();
  }

  lemma SampleAt39()
    ensures SimulateSpec(Sample, 39) == Sample39
  {
    SampleAt38();
    SimulateSucc(Sample, 38);
    SampleStep38();
  }

  lemma SampleAt40()
    ensures SimulateSpec(Sample, 40) == Sample40
  {
    SampleAt39();
    SimulateSucc(Sample, 39);
    SampleStep39();
  }

  lemma SampleAt41()
    ensures SimulateSpec(Sample, 41) == Sample41
  {
    SampleAt40();
    SimulateSucc(Sample, 40);
    SampleStep40();
  }

  lemma SampleAt42()
    ensures SimulateSpec(Sample, 42) == Sample42
  {
    SampleAt41();
    SimulateSucc(Sample, 41);
    SampleStep41();
  }

  lemma SampleAt43()
    ensures SimulateSpec(Sample, 43) == Sample43
  {
    SampleAt42();
    SimulateSucc(Sample, 42);
    SampleStep42();
  }

  lemma SampleAt44()
    ensures SimulateSpec(Sample, 44) == Sample44
  {
    SampleAt43();
    SimulateSucc(Sample, 43);
    SampleStep43();
  }

  // `SampleHomeT`: which axes of `SampleT` are not home yet, or are home for the first time.

  /** Four moons each at its start with zero velocity on axis k are home on k. */
  lemma HomeOfFour(ms: seq<Moon>, k: Axis)
    requires |ms| == 4
    requires Coord(ms[0].pos, k) == Coord(ms[0].initial, k) && Coord(ms[0].vel, k) == 0
    requires Coord(ms[1].pos, k) == Coord(ms[1].initial, k) && Coord(ms[1].vel, k) == 0
    requires Coord(ms[2].pos, k) == Coord(ms[2].initial, k) && Coord(ms[2].vel, k) == 0
    requires Coord(ms[3].pos, k) == Coord(ms[3].initial, k) && Coord(ms[3].vel, k) == 0
    ensures Home(ms, k)
  {
    forall i | 0 <= i < 4
      ensures Coord(ms[i].pos, k) == Coord(ms[i].initial, k) && Coord(ms[i].vel, k) == 0
    {
      assert i == 0 || i == 1 || i == 2 || i == 3;
    }
  }

  lemma SampleHome1()
    ensures !Home(Sample1, X) && !Home(Sample1, Y) && !Home(Sample1, Z)
  {
    assert Coord(Sample1[0].vel, X) != 0;
    assert Coord(Sample1[0].vel, Y) != 0;
    assert Coord(Sample1[0].vel, Z) != 0;
  }

  lemma SampleHome2()
    ensures !Home(Sample2, X) && !Home(Sample2, Y) && !Home(Sample2, Z)
  {
    assert Coord(Sample2[0].vel, X) != 0;
    assert Coord(Sample2[0].vel, Y) != 0;
    assert Coord(Sample2[0].vel, Z) != 0;
  }

  lemma SampleHome3()
    ensures !Home(Sample3, X) && !Home(Sample3, Y) && !Home(Sample3, Z)
  {
    assert Coord(Sample3[0].pos, X) != Coord(Sample3[0].initial, X);
    assert Coord(Sample3[0].vel, Y) != 0;
    assert Coord(Sample3[0].pos, Z) != Coord(Sample3[0].initial, Z);
  }

  lemma SampleHome4()
    ensures !Home(Sample4, X) && !Home(Sample4, Y) && !Home(Sample4, Z)
  {
    assert Coord(Sample4[0].vel, X) != 0;
    assert Coord(Sample4[0].vel, Y) != 0;
    assert Coord(Sample4[0].vel, Z) != 0;
  }

  lemma SampleHome5()
    ensures !Home(Sample5, X) && !Home(Sample5, Y) && !Home(Sample5, Z)
  {
    assert Coord(Sample5[0].vel, X) != 0;
    assert Coord(Sample5[0].vel, Y) != 0;
    assert Coord(Sample5[0].vel, Z) != 0;
  }

  lemma SampleHome6()
    ensures !Home(Sample6, X) && !Home(Sample6, Y) && !Home(Sample6, Z)
  {
    assert Coord(Sample6[1].vel, X) != 0;
    assert Coord(Sample6[0].vel, Y) != 0;
    assert Coord(Sample6[0].vel, Z) != 0;
  }

  lemma SampleHome7()
    ensures !Home(Sample7, X) && !Home(Sample7, Y) && !Home(Sample7, Z)
  {
    assert Coord(Sample7[0].vel, X) != 0;
    assert Coord(Sample7[0].vel, Y) != 0;
    assert Coord(Sample7[0].vel, Z) != 0;
  }

  lemma SampleHome8()
    ensures !Home(Sample8, X) && !Home(Sample8, Y) && !Home(Sample8, Z)
  {
    assert Coord(Sample8[0].vel, X) != 0;
    assert Coord(Sample8[0].vel, Y) != 0;
    assert Coord(Sample8[0].vel, Z) != 0;
  }

  lemma SampleHome9()
    ensures !Home(Sample9, X) && !Home(Sample9, Y) && !Home(Sample9, Z)
  {
    assert Coord(Sample9[0].pos, X) != Coord(Sample9[0].initial, X);
    assert Coord(Sample9[0].vel, Y) != 0;
    assert Coord(Sample9[0].vel, Z) != 0;
  }

  lemma SampleHome10()
    ensures !Home(Sample10, X) && !Home(Sample10, Y) && !Home(Sample10, Z)
  {
    assert Coord(Sample10[0].vel, X) != 0;
    assert Coord(Sample10[0].vel, Y) != 0;
    assert Coord(Sample10[0].vel, Z) != 0;
  }

  lemma SampleHome11()
    ensures !Home(Sample11, X) && !Home(Sample11, Y) && !Home(Sample11, Z)
  {
    assert Coord(Sample11[0].vel, X) != 0;
    assert Coord(Sample11[0].vel, Y) != 0;
    assert Coord(Sample11[0].vel, Z) != 0;
  }

  lemma SampleHome12()
    ensures !Home(Sample12, X) && !Home(Sample12, Y) && !Home(Sample12, Z)
  {
    assert Coord(Sample12[1].vel, X) != 0;
    assert Coord(Sample12[0].vel, Y) != 0;
    assert Coord(Sample12[0].vel, Z) != 0;
  }

  lemma SampleHome13()
    ensures !Home(Sample13, X) && !Home(Sample13, Y) && !Home(Sample13, Z)
  {
    assert Coord(Sample13[0].vel, X) != 0;
    assert Coord(Sample13[0].vel, Y) != 0;
    assert Coord(Sample13[0].vel, Z) != 0;
  }

  lemma SampleHome14()
    ensures !Home(Sample14, X) && !Home(Sample14, Y) && !Home(Sample14, Z)
  {
    assert Coord(Sample14[0].vel, X) != 0;
    assert Coord(Sample14[0].pos, Y) != Coord(Sample14[0].initial, Y);
    assert Coord(Sample14[0].vel, Z) != 0;
  }

  lemma SampleHome15()
    ensures !Home(Sample15, X) && !Home(Sample15, Y) && !Home(Sample15, Z)
  {
    assert Coord(Sample15[0].pos, X) != Coord(Sample15[0].initial, X);
    assert Coord(Sample15[0].vel, Y) != 0;
    assert Coord(Sample15[0].vel, Z) != 0;
  }

  lemma SampleHome16()
    ensures !Home(Sample16, X) && !Home(Sample16, Y) && !Home(Sample16, Z)
  {
    assert Coord(Sample16[0].vel, X) != 0;
    assert Coord(Sample16[0].vel, Y) != 0;
    assert Coord(Sample16[0].vel, Z) != 0;
  }

  lemma SampleHome17()
    ensures !Home(Sample17, X) && !Home(Sample17, Y) && !Home(Sample17, Z)
  {
    assert Coord(Sample17[0].vel, X) != 0;
    assert Coord(Sample17[0].vel, Y) != 0;
    assert Coord(Sample17[0].vel, Z) != 0;
  }

  lemma SampleHome18()
    ensures Home(Sample18, X) && !Home(Sample18, Y) && !Home(Sample18, Z)
  {
    HomeOfFour(Sample18, X);
    assert Coord(Sample18[0].vel, Y) != 0;
    assert Coord(Sample18[0].vel, Z) != 0;
  }

  lemma SampleHome19()
    ensures !Home(Sample19, Y) && !Home(Sample19, Z)
  {
    assert Coord(Sample19[0].vel, Y) != 0;
    assert Coord(Sample19[0].vel, Z) != 0;
  }

  lemma SampleHome20()
    ensures !Home(Sample20, Y) && !Home(Sample20, Z)
  {
    assert Coord(Sample20[0].vel, Y) != 0;
    assert Coord(Sample20[0].vel, Z) != 0;
  }

  lemma SampleHome21()
    ensures !Home(Sample21, Y) && !Home(Sample21, Z)
  {
    assert Coord(Sample21[0].vel, Y) != 0;
    assert Coord(Sample21[0].vel, Z) != 0;
  }

  lemma SampleHome22()
    ensures !Home(Sample22, Y) && !Home(Sample22, Z)
  {
    assert Coord(Sample22[0].vel, Y) != 0;
    assert Coord(Sample22[0].pos, Z) != Coord(Sample22[0].initial, Z);
  }

  lemma SampleHome23()
    ensures !Home(Sample23, Y) && !Home(Sample23, Z)
  {
    assert Coord(Sample23[0].vel, Y) != 0;
    assert Coord(Sample23[0].vel, Z) != 0;
  }

  lemma SampleHome24()
    ensures !Home(Sample24, Y) && !Home(Sample24, Z)
  {
    assert Coord(Sample24[0].vel, Y) != 0;
    assert Coord(Sample24[0].vel, Z) != 0;
  }

  lemma SampleHome25()
    ensures !Home(Sample25, Y) && !Home(Sample25, Z)
  {
    assert Coord(Sample25[0].vel, Y) != 0;
    assert Coord(Sample25[0].vel, Z) != 0;
  }

  lemma SampleHome26()
    ensures !Home(Sample26, Y) && !Home(Sample26, Z)
  {
    assert Coord(Sample26[0].vel, Y) != 0;
    assert Coord(Sample26[0].vel, Z) != 0;
  }

  lemma SampleHome27()
    ensures !Home(Sample27, Y) && !Home(Sample27, Z)
  {
    assert Coord(Sample27[0].vel, Y) != 0;
    assert Coord(Sample27[0].vel, Z) != 0;
  }

  lemma SampleHome28()
    ensures Home(Sample28, Y) && !Home(Sample28, Z)
  {
    HomeOfFour(Sample28, Y);
    assert Coord(Sample28[0].vel, Z) != 0;
  }

  lemma SampleHome29()
    ensures !Home(Sample29, Z)
  {
    assert Coord(Sample29[0].vel, Z) != 0;
  }

  lemma SampleHome30()
    ensures !Home(Sample30, Z)
  {
    assert Coord(Sample30[0].vel, Z) != 0;
  }

  lemma SampleHome31()
    ensures !Home(Sample31, Z)
  {
    assert Coord(Sample31[0].vel, Z) != 0;
  }

  lemma SampleHome32()
    ensures !Home(Sample32, Z)
  {
    assert Coord(Sample32[0].vel, Z) != 0;
  }

  lemma SampleHome33()
    ensures !Home(Sample33, Z)
  {
    assert Coord(Sample33[0].vel, Z) != 0;
  }

  lemma SampleHome34()
    ensures !Home(Sample34, Z)
  {
    assert Coord(Sample34[0].vel, Z) != 0;
  }

  lemma SampleHome35()
    ensures !Home(Sample35, Z)
  {
    assert Coord(Sample35[0].vel, Z) != 0;
  }

  lemma SampleHome36()
    ensures !Home(Sample36, Z)
  {
    assert Coord(Sample36[0].vel, Z) != 0;
  }

  lemma SampleHome37()
    ensures !Home(Sample37, Z)
  {
    assert Coord(Sample37[0].vel, Z) != 0;
  }

  lemma SampleHome38()
    ensures !Home(Sample38, Z)
  {
    assert Coord(Sample38[0].vel, Z) != 0;
  }

  lemma SampleHome39()
    ensures !Home(Sample39, Z)
  {
    assert Coord(Sample39[0].vel, Z) != 0;
  }

  lemma SampleHome40()
    ensures !Home(Sample40, Z)
  {
    assert Coord(Sample40[0].vel, Z) != 0;
  }

  lemma SampleHome41()
    ensures !Home(Sample41, Z)
  {
    assert Coord(Sample41[0].pos, Z) != Coord(Sample41[0].initial, Z);
  }

  lemma SampleHome42()
    ensures !Home(Sample42, Z)
  {
    assert Coord(Sample42[0].vel, Z) != 0;
  }

  lemma SampleHome43()
    ensures !Home(Sample43, Z)
  {
    assert Coord(Sample43[0].vel, Z) != 0;
  }

  lemma SampleHome44()
    ensures Home(Sample44, Z)
  {
    HomeOfFour(Sample44, Z);
  }

  /** The total energy of four moons, written out. */
  lemma TotalEnergyOfFour(ms: seq<Moon>)
    requires |ms| == 4
    ensures TotalEnergy(ms) == Energy(ms[0]) + Energy(ms[1]) + Energy(ms[2]) + Energy(ms[3])
  {
    assert ms[..3][..2] == ms[..2] && ms[..2][..1] == ms[..1] && ms[..1][..0] == [];
    assert TotalEnergy(ms[..1]) == Energy(ms[0]);
    assert TotalEnergy(ms[..2]) == TotalEnergy(ms[..1]) + Energy(ms[1]);
    assert TotalEnergy(ms[..3]) == TotalEnergy(ms[..2]) + Energy(ms[2]);
  }

  /** The first sample's distances and speeds after ten steps. */
  lemma SampleNorms()
    ensures Norm(Sample10[0].pos) == 6 && Norm(Sample10[0].vel) == 6
    ensures Norm(Sample10[1].pos) == 9 && Norm(Sample10[1].vel) == 5
    ensures Norm(Sample10[2].pos) == 10 && Norm(Sample10[2].vel) == 8
    ensures Norm(Sample10[3].pos) == 6 && Norm(Sample10[3].vel) == 3
  {
  }

  /** `day12_test`: the first sample has total energy 179 after ten steps. */
  lemma SampleEnergy()
    ensures TotalEnergy(SimulateSpec(Sample, 10)) == 179
  {
    SampleAt10();
    TotalEnergyOfFour(Sample10);
    SampleNorms();
  }

  // ---------------------------------------------------------------------
  // The first sample of the tests: `find_repeat` gives 2772

  /** Axis X of the first sample first comes home after 18 steps. */
  lemma SampleFirstHomeX()
    ensures FirstHome(Sample, X, 18)
  {
    SampleAt18();
    SampleHome18();
    forall t | 1 <= t < 18
      ensures !Home(SimulateSpec(Sample, t), X)
    {
      if t == 1 {
        SampleAt1();
        SampleHome1();
      } else if t == 2 {
        SampleAt2();
        SampleHome2();
      } else if t == 3 {
        SampleAt3();
        SampleHome3();
      } else if t == 4 {
        SampleAt4();
        SampleHome4();
      } else if t == 5 {
        SampleAt5();
        SampleHome5();
      } else if t == 6 {
        SampleAt6();
        SampleHome6();
      } else if t == 7 {
        SampleAt7();
        SampleHome7();
      } else if t == 8 {
        SampleAt8();
        SampleHome8();
      } else if t == 9 {
        SampleAt9();
        SampleHome9();
      } else if t == 10 {
        SampleAt10();
        SampleHome10();
      } else if t == 11 {
        SampleAt11();
        SampleHome11();
      } else if t == 12 {
        SampleAt12();
        SampleHome12();
      } else if t == 13 {
        SampleAt13();
        SampleHome13();
      } else if t == 14 {
        SampleAt14();
        SampleHome14();
      } else if t == 15 {
        SampleAt15();
        SampleHome15();
      } else if t == 16 {
        SampleAt16();
        SampleHome16();
      } else {
        SampleAt17();
        SampleHome17();
      }
    }
  }

  /** Axis Y of the first sample first comes home after 28 steps. */
  lemma SampleFirstHomeY()
    ensures FirstHome(Sample, Y, 28)
  {
    SampleAt28();
    SampleHome28();
    forall t | 1 <= t < 28
      ensures !Home(SimulateSpec(Sample, t), Y)
    {
      if t == 1 {
        SampleAt1();
        SampleHome1();
      } else if t == 2 {
        SampleAt2();
        SampleHome2();
      } else if t == 3 {
        SampleAt3();
        SampleHome3();
      } else if t == 4 {
        SampleAt4();
        SampleHome4();
      } else if t == 5 {
        SampleAt5();
        SampleHome5();
      } else if t == 6 {
        SampleAt6();
        SampleHome6();
      } else if t == 7 {
        SampleAt7();
        SampleHome7();
      } else if t == 8 {
        SampleAt8();
        SampleHome8();
      } else if t == 9 {
        SampleAt9();
        SampleHome9();
      } else if t == 10 {
        SampleAt10();
        SampleHome10();
      } else if t == 11 {
        SampleAt11();
        SampleHome11();
      } else if t == 12 {
        SampleAt12();
        SampleHome12();
      } else if t == 13 {
        SampleAt13();
        SampleHome13();
      } else if t == 14 {
        SampleAt14();
        SampleHome14();
      } else if t == 15 {
        SampleAt15();
        SampleHome15();
      } else if t == 16 {
        SampleAt16();
        SampleHome16();
      } else if t == 17 {
        SampleAt17();
        SampleHome17();
      } else if t == 18 {
        SampleAt18();
        SampleHome18();
      } else if t == 19 {
        SampleAt19();
        SampleHome19();
      } else if t == 20 {
        SampleAt20();
        SampleHome20();
      } else if t == 21 {
        SampleAt21();
        SampleHome21();
      } else if t == 22 {
        SampleAt22();
        SampleHome22();
      } else if t == 23 {
        SampleAt23();
        SampleHome23();
      } else if t == 24 {
        SampleAt24();
        SampleHome24();
      } else if t == 25 {
        SampleAt25();
        SampleHome25();
      } else if t == 26 {
        SampleAt26();
        SampleHome26();
      } else {
        SampleAt27();
        SampleHome27();
      }
    }
  }

  /** Axis Z of the first sample first comes home after 44 steps. */
  lemma SampleFirstHomeZ()
    ensures FirstHome(Sample, Z, 44)
  {
    SampleAt44();
    SampleHome44();
    forall t | 1 <= t < 44
      ensures !Home(SimulateSpec(Sample, t), Z)
    {
      if t == 1 {
        SampleAt1();
        SampleHome1();
      } else if t == 2 {
        SampleAt2();
        SampleHome2();
      } else if t == 3 {
        SampleAt3();
        SampleHome3();
      } else if t == 4 {
        SampleAt4();
        SampleHome4();
      } else if t == 5 {
        SampleAt5();
        SampleHome5();
      } else if t == 6 {
        SampleAt6();
        SampleHome6();
      } else if t == 7 {
        SampleAt7();
        SampleHome7();
      } else if t == 8 {
        SampleAt8();
        SampleHome8();
      } else if t == 9 {
        SampleAt9();
        SampleHome9();
      } else if t == 10 {
        SampleAt10();
        SampleHome10();
      } else if t == 11 {
        SampleAt11();
        SampleHome11();
      } else if t == 12 {
        SampleAt12();
        SampleHome12();
      } else if t == 13 {
        SampleAt13();
        SampleHome13();
      } else if t == 14 {
        SampleAt14();
        SampleHome14();
      } else if t == 15 {
        SampleAt15();
        SampleHome15();
      } else if t == 16 {
        SampleAt16();
        SampleHome16();
      } else if t == 17 {
        SampleAt17();
        SampleHome17();
      } else if t == 18 {
        SampleAt18();
        SampleHome18();
      } else if t == 19 {
        SampleAt19();
        SampleHome19();
      } else if t == 20 {
        SampleAt20();
        SampleHome20();
      } else if t == 21 {
        SampleAt21();
        SampleHome21();
      } else if t == 22 {
        SampleAt22();
        SampleHome22();
      } else if t == 23 {
        SampleAt23();
        SampleHome23();
      } else if t == 24 {
        SampleAt24();
        SampleHome24();
      } else if t == 25 {
        SampleAt25();
        SampleHome25();
      } else if t == 26 {
        SampleAt26();
        SampleHome26();
      } else if t == 27 {
        SampleAt27();
        SampleHome27();
      } else if t == 28 {
        SampleAt28();
        SampleHome28();
      } else if t == 29 {
        SampleAt29();
        SampleHome29();
      } else if t == 30 {
        SampleAt30();
        SampleHome30();
      } else if t == 31 {
        SampleAt31();
        SampleHome31();
      } else if t == 32 {
        SampleAt32();
        SampleHome32();
      } else if t == 33 {
        SampleAt33();
        SampleHome33();
      } else if t == 34 {
        SampleAt34();
        SampleHome34();
      } else if t == 35 {
        SampleAt35();
        SampleHome35();
      } else if t == 36 {
        SampleAt36();
        SampleHome36();
      } else if t == 37 {
        SampleAt37();
        SampleHome37();
      } else if t == 38 {
        SampleAt38();
        SampleHome38();
      } else if t == 39 {
        SampleAt39();
        SampleHome39();
      } else if t == 40 {
        SampleAt40();
        SampleHome40();
      } else if t == 41 {
        SampleAt41();
        SampleHome41();
      } else if t == 42 {
        SampleAt42();
        SampleHome42();
      } else {
        SampleAt43();
        SampleHome43();
      }
    }
  }

  /** `day12_test`: `find_repeat` on the first sample gives 2772, the lcm of the periods 18, 28 and 44. */
  method SampleFindRepeat(fuel: nat) returns (r: Option<nat>)
    requires fuel >= 44
    ensures r == Some(2772)
  {
    SampleFirstHomeX();
    SampleFirstHomeY();
    SampleFirstHomeZ();
    assert !Absent(Sample, X, fuel) by { assert Home(SimulateSpec(Sample, 18), X); }
    assert !Absent(Sample, Y, fuel) by { assert Home(SimulateSpec(Sample, 28), Y); }
    assert !Absent(Sample, Z, fuel) by { assert Home(SimulateSpec(Sample, 44), Z); }
    r := FindRepeat(Sample, fuel);
    ghost var xs, ys, zs :| FirstHome(Sample, X, xs) && FirstHome(Sample, Y, ys) && FirstHome(Sample, Z, zs)
      && r.value == Lcm(Lcm(xs, ys), zs);
    FirstHomeUnique(Sample, X, xs, 18);
    FirstHomeUnique(Sample, Y, ys, 28);
    FirstHomeUnique(Sample, Z, zs, 44);
    SamplePeriodsLcm();
  }

  /** The lcm of the first sample's periods 18, 28 and 44 is 2772. */
  lemma SamplePeriodsLcm()
    ensures Lcm(Lcm(18, 28), 44) == 2772
  {
    assert GcdNat(18, 28) == GcdNat(28, 18) == GcdNat(18, 10) == GcdNat(10, 8) == GcdNat(8, 2) == GcdNat(2, 0) == 2;
    assert Gcd(18, 28) == 2;
    assert Lcm(18, 28) == 18 * 14 == 252;
    assert GcdNat(252, 44) == GcdNat(44, 32) == GcdNat(32, 12) == GcdNat(12, 8) == GcdNat(8, 4) == GcdNat(4, 0) == 4;
    assert Gcd(252, 44) == 4;
    assert Lcm(252, 44) == 252 * 11 == 2772;
  }
}
