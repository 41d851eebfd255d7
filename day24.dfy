/**
 * Day 24: bugs on a 5×5 grid.  Part 1 runs the plain automaton until a
 * biodiversity rating repeats; part 2 runs the recursive variant, where the
 * centre tile holds a nested grid one level deeper (`z + 1`) and the outer
 * border touches the enclosing grid (`z - 1`).
 */
module Day24 {
  import opened RustInt

  /** A tile at column `x`, row `y` on level `z`. */
  datatype Cell = Cell(x: int, y: int, z: int)

  predicate InGrid(x: int, y: int)
  {
    0 <= x < 5 && 0 <= y < 5
  }

  /** The bugs of `from_input`: a `#` in row `y`, column `x` is a bug on level 0. */
  function Grid(input: seq<string>): set<Cell>
  {
    set y: int, x: int | 0 <= y < |input| && 0 <= x < |input[y]| && input[y][x] == '#' :: Cell(x, y, 0)
  }

  lemma GridMeaning(input: seq<string>, c: Cell)
    ensures c in Grid(input) <==> c.z == 0 && 0 <= c.y < |input| && 0 <= c.x < |input[c.y]| && input[c.y][c.x] == '#'
  {
    if c.z == 0 && 0 <= c.y < |input| && 0 <= c.x < |input[c.y]| && input[c.y][c.x] == '#' {
      assert Cell(c.x, c.y, 0) == c;
    }
  }

  /** The rule both automata share: a bug survives with exactly one neighbour, an empty tile is infested by one or two. */
  predicate Lives(neighbors: nat, occupied: bool)
  {
    neighbors == 1 || (neighbors == 2 && !occupied)
  }

  /* ---------- biodiversity rating ---------- */

  /** Whether the tile with index `i = 5 * y + x` holds a level-0 bug. */
  function Bit(b: set<Cell>, i: nat): nat
  {
    if Cell(i % 5, i / 5, 0) in b then 1 else 0
  }

  /** The sum of `Bit(b, k) * 2^(k - i)` over the tiles `k` from `i` to 24. */
  function RatingFrom(b: set<Cell>, i: nat): (r: nat)
    requires i <= 25
    ensures r < Pow(2, 25 - i)
    decreases 25 - i, b  // naming `b` keeps a literal `i` alone from unrolling the sum
  {
    if i == 25 then 0 else Bit(b, i) + 2 * RatingFrom(b, i + 1)
  }

  /** `bio_rating`: tile `(x, y)` of level 0 contributes `2^(5y + x)`. */
  function Rating(b: set<Cell>): (r: nat)
    ensures r < 0x200_0000
  {
    PowersOfTwo();
    RatingFrom(b, 0)
  }

  lemma PowersOfTwo()
    ensures Pow(2, 25) == 0x200_0000
  {
    PowAdd(2, 5, 5);
    PowAdd(2, 10, 10);
    PowAdd(2, 20, 5);
  }

  /** Equal partial ratings come from the same tiles. */
  lemma {:induction false} RatingFromInjective(a: set<Cell>, b: set<Cell>, i: nat)
    requires i <= 25 && RatingFrom(a, i) == RatingFrom(b, i)
    ensures forall k :: i <= k < 25 ==> Bit(a, k) == Bit(b, k)
    decreases 25 - i, b  // naming `b` keeps a literal `i` alone from unrolling the sum
  {
    if i < 25 {
      var ra, rb := RatingFrom(a, i + 1), RatingFrom(b, i + 1);
      DivModUnique(RatingFrom(a, i), ra, Bit(a, i), 2);
      DivModUnique(RatingFrom(b, i), rb, Bit(b, i), 2);
      RatingFromInjective(a, b, i + 1);
    }
  }

  /** Two layouts with the same rating have bugs on the same level-0 tiles of the grid. */
  lemma RatingInjective(a: set<Cell>, b: set<Cell>)
    requires Rating(a) == Rating(b)
    ensures forall x, y :: InGrid(x, y) ==> (Cell(x, y, 0) in a <==> Cell(x, y, 0) in b)
  {
    RatingFromInjective(a, b, 0);
    forall x, y | InGrid(x, y)
      ensures Cell(x, y, 0) in a <==> Cell(x, y, 0) in b
    {
      var i := 5 * y + x;
      DivModUnique(i, y, x, 5);
      assert Bit(a, i) == Bit(b, i);
    }
  }

  /* ---------- the plain automaton ---------- */

  function Has(b: set<Cell>, x: int, y: int): nat
  {
    if Cell(x, y, 0) in b then 1 else 0
  }

  /** `neighbors`: bugs on the four level-0 tiles next to `(x, y)`. */
  function Neighbors(b: set<Cell>, x: int, y: int): (r: nat)
    ensures r <= 4
    ensures r == 0 <==> Cell(x - 1, y, 0) !in b && Cell(x + 1, y, 0) !in b && Cell(x, y - 1, 0) !in b && Cell(x, y + 1, 0) !in b
  {
    Has(b, x - 1, y) + Has(b, x + 1, y) + Has(b, x, y - 1) + Has(b, x, y + 1)
  }

  /** The tiles with index `i = 5 * y + x` from `i` to 24 that hold a bug after one minute of `step`. */
  function StepFrom(b: set<Cell>, i: nat): set<Cell>
    requires i <= 25
    decreases 25 - i, b  // naming `b` keeps a literal `i` alone from unrolling the sum
  {
    if i == 25 then {}
    else
      var c := Cell(i % 5, i / 5, 0);
      (if Lives(Neighbors(b, c.x, c.y), c in b) then {c} else {}) + StepFrom(b, i + 1)
  }

  /** The layout after one minute of `step`. */
  function StepSet(b: set<Cell>): set<Cell>
  {
    StepFrom(b, 0)
  }

  lemma {:induction false} StepFromMeaning(b: set<Cell>, i: nat, c: Cell)
    requires i <= 25
    ensures c in StepFrom(b, i) <==> c.z == 0 && InGrid(c.x, c.y) && i <= 5 * c.y + c.x && Lives(Neighbors(b, c.x, c.y), c in b)
    decreases 25 - i, b  // naming `b` keeps a literal `i` alone from unrolling the sum
  {
    if i < 25 {
      StepFromMeaning(b, i + 1, c);
      DivModUnique(i, i / 5, i % 5, 5);
      if c.z == 0 && InGrid(c.x, c.y) {
        DivModUnique(5 * c.y + c.x, c.y, c.x, 5);
      }
    }
  }

  /** After `step`, a tile holds a bug exactly when it is a level-0 grid tile the rule keeps alive. */
  lemma StepSetMeaning(b: set<Cell>, c: Cell)
    ensures c in StepSet(b) <==> c.z == 0 && InGrid(c.x, c.y) && Lives(Neighbors(b, c.x, c.y), c in b)
  {
    StepFromMeaning(b, 0, c);
  }

  /** The layouts part 1 goes through. */
  ghost function Iterate(b: set<Cell>, k: nat): set<Cell>
  {
    if k == 0 then b else StepSet(Iterate(b, k - 1))
  }

  /* ---------- the recursive automaton ---------- */

  function Has3(b: set<Cell>, x: int, y: int, z: int): nat
  {
    if Cell(x, y, z) in b then 1 else 0
  }

  /** Bugs in column `x` of level `z`. */
  function Column(b: set<Cell>, x: int, z: int): (r: nat)
    ensures r <= 5
  {
    Has3(b, x, 0, z) + Has3(b, x, 1, z) + Has3(b, x, 2, z) + Has3(b, x, 3, z) + Has3(b, x, 4, z)
  }

  /** Bugs in row `y` of level `z`. */
  function Row(b: set<Cell>, y: int, z: int): (r: nat)
    ensures r <= 5
  {
    Has3(b, 0, y, z) + Has3(b, 1, y, z) + Has3(b, 2, y, z) + Has3(b, 3, y, z) + Has3(b, 4, y, z)
  }

  /** The neighbours to the left: the enclosing grid's tile left of its centre, the inner grid's right column, or the plain tile. */
  function LeftOf(b: set<Cell>, x: int, y: int, z: int): nat
  {
    if x == 0 then Has3(b, 1, 2, z - 1)
    else if x == 3 && y == 2 then Column(b, 4, z + 1)
    else Has3(b, x - 1, y, z)
  }

  function RightOf(b: set<Cell>, x: int, y: int, z: int): nat
  {
    if x == 4 then Has3(b, 3, 2, z - 1)
    else if x == 1 && y == 2 then Column(b, 0, z + 1)
    else Has3(b, x + 1, y, z)
  }

  function Above(b: set<Cell>, x: int, y: int, z: int): nat
  {
    if y == 0 then Has3(b, 2, 1, z - 1)
    else if x == 2 && y == 3 then Row(b, 4, z + 1)
    else Has3(b, x, y - 1, z)
  }

  function Below(b: set<Cell>, x: int, y: int, z: int): nat
  {
    if y == 4 then Has3(b, 2, 3, z - 1)
    else if x == 2 && y == 1 then Row(b, 0, z + 1)
    else Has3(b, x, y + 1, z)
  }

  /** `neighbors2`: at most one side faces the inner grid, so the count is at most 5 + 3. */
  function Neighbors2(b: set<Cell>, x: int, y: int, z: int): (r: nat)
    ensures r <= 8
  {
    LeftOf(b, x, y, z) + RightOf(b, x, y, z) + Above(b, x, y, z) + Below(b, x, y, z)
  }

  /** A tile `step2` visits: a grid tile other than the centre, on a level from one above to one below the occupied ones. */
  predicate InBox(c: Cell, lo: int, hi: int)
  {
    InGrid(c.x, c.y) && !(c.x == 2 && c.y == 2) && lo - 1 <= c.z <= hi + 1
  }

  predicate Lives2(b: set<Cell>, c: Cell)
  {
    Lives(Neighbors2(b, c.x, c.y, c.z), c in b)
  }

  /** The bugs after one minute of `step2` when the occupied levels lie in `[lo, hi]`. */
  function Step2Set(b: set<Cell>, lo: int, hi: int): set<Cell>
  {
    set x: int, y: int, z: int | 0 <= x < 5 && 0 <= y < 5 && !(x == 2 && y == 2) && lo - 1 <= z <= hi + 1
                                 && Lives2(b, Cell(x, y, z)) :: Cell(x, y, z)
  }

  lemma Step2SetMeaning(b: set<Cell>, lo: int, hi: int, c: Cell)
    ensures c in Step2Set(b, lo, hi) <==> InBox(c, lo, hi) && Lives2(b, c)
  {
    if InBox(c, lo, hi) && Lives2(b, c) {
      assert Cell(c.x, c.y, c.z) == c;
    }
  }

  /** Whether any bug of `s` is on level `z`. */
  predicate OnLevel(s: set<Cell>, z: int)
  {
    exists c | c in s :: c.z == z
  }

  /** The state of the recursive automaton: its bugs and the range of levels that may hold them. */
  datatype Eris = Eris(bugs: set<Cell>, lo: int, hi: int)

  /** Every bug lies on a level of `[lo, hi]`. */
  predicate ValidEris(e: Eris)
  {
    e.lo <= e.hi && forall c :: c in e.bugs ==> e.lo <= c.z <= e.hi
  }

  /** One minute of `step2`: the level range widens to a new outer or inner level once a bug is born there. */
  function Step2Spec(e: Eris): Eris
  {
    var next := Step2Set(e.bugs, e.lo, e.hi);
    Eris(next, if OnLevel(next, e.lo - 1) then e.lo - 1 else e.lo,
               if OnLevel(next, e.hi + 1) then e.hi + 1 else e.hi)
  }

  /** `step2` keeps the level range tight around the bugs, never fills the centre tile, and widens the range by at most one level each way. */
  lemma Step2Bounds(e: Eris)
    requires ValidEris(e)
    ensures ValidEris(Step2Spec(e))
    ensures forall c :: c in Step2Spec(e).bugs ==> InGrid(c.x, c.y) && !(c.x == 2 && c.y == 2)
    ensures e.lo - 1 <= Step2Spec(e).lo <= e.lo && e.hi <= Step2Spec(e).hi <= e.hi + 1
    ensures Step2Spec(e).lo < e.lo ==> OnLevel(Step2Spec(e).bugs, Step2Spec(e).lo)
    ensures Step2Spec(e).hi > e.hi ==> OnLevel(Step2Spec(e).bugs, Step2Spec(e).hi)
  {
    var e' := Step2Spec(e);
    forall c | c in e'.bugs
      ensures InBox(c, e.lo, e.hi) && e'.lo <= c.z <= e'.hi
    {
      Step2SetMeaning(e.bugs, e.lo, e.hi, c);
    }
  }

  ghost function Iterate2(e: Eris, k: nat): Eris
  {
    if k == 0 then e else Step2Spec(Iterate2(e, k - 1))
  }

  /** The set `step2` builds column by column is the one the specification describes. */
  lemma Step2Done(b: set<Cell>, lo: int, hi: int, next: set<Cell>, newLo: int, newHi: int)
    requires ValidEris(Eris(b, lo, hi))
    requires forall c :: c in next <==> Visited(c, 5, 0) && InBox(c, lo, hi) && Lives2(b, c)
    requires newLo == lo || newLo == lo - 1
    requires newHi == hi || newHi == hi + 1
    requires newLo == lo - 1 <==> OnLevel(next, lo - 1)
    requires newHi == hi + 1 <==> OnLevel(next, hi + 1)
    ensures Eris(next, newLo, newHi) == Step2Spec(Eris(b, lo, hi))
    ensures ValidEris(Eris(next, newLo, newHi))
  {
    forall c
      ensures c in next <==> c in Step2Set(b, lo, hi)
    {
      Step2SetMeaning(b, lo, hi, c);
    }
    Step2Bounds(Eris(b, lo, hi));
  }

  /* ---------- the mutable map ---------- */

  /** Tile `c` comes before `(x, y)` in the column-by-column order `step` and `step2` visit the grid in. */
  predicate Visited(c: Cell, x: int, y: int)
  {
    (0 <= c.x < x && 0 <= c.y < 5) || (c.x == x && 0 <= c.y < y)
  }

  /** `step` puts a bug on `c`. */
  predicate Keeps(b: set<Cell>, c: Cell)
  {
    c.z == 0 && Lives(Neighbors(b, c.x, c.y), c in b)
  }

  /** `BugMap`: the bugs and the range of levels `step2` has reached. */
  class BugMap {
    var bugs: set<Cell>
    var minZ: int
    var maxZ: int

    function State(): Eris
      reads this
    {
      Eris(bugs, minZ, maxZ)
    }

    predicate Valid()
      reads this
    {
      ValidEris(State())
    }

    /** `from_input`: one bug per `#`, all on level 0. */
    constructor FromInput(input: seq<string>)
      ensures bugs == Grid(input) && minZ == 0 && maxZ == 0
      ensures Valid()
    {
      var found: set<Cell> := {};
      for y := 0 to |input|
        invariant forall c :: c in found <==> c.z == 0 && 0 <= c.y < y && 0 <= c.x < |input[c.y]| && input[c.y][c.x] == '#'
      {
        var row := input[y];
        for x := 0 to |row|
          invariant forall c :: c in found <==> c.z == 0 && ((0 <= c.y < y && 0 <= c.x < |input[c.y]| && input[c.y][c.x] == '#')
                                                             || (c.y == y && 0 <= c.x < x && row[c.x] == '#'))
        {
          if row[x] == '#' {
            found := found + {Cell(x, y, 0)};
          }
        }
      }
      forall c
        ensures c in found <==> c in Grid(input)
      {
        GridMeaning(input, c);
      }
      bugs := found;
      minZ := 0;
      maxZ := 0;
    }

    /** `step`: every grid tile of level 0 is decided from the old layout. */
    method Step()
      modifies this`bugs
      ensures bugs == StepSet(old(bugs))
    {
      var b := bugs;
      var next: set<Cell> := {};
      for x := 0 to 5
        invariant forall c :: c in next <==> Visited(c, x, 0) && Keeps(b, c)
      {
        for y := 0 to 5
          invariant forall c :: c in next <==> Visited(c, x, y) && Keeps(b, c)
        {
          var occupied := Cell(x, y, 0) in b;
          var n := Neighbors(b, x, y);
          if (n == 1 && occupied) || ((n == 1 || n == 2) && !occupied) {
            next := next + {Cell(x, y, 0)};
          }
        }
      }
      forall c
        ensures c in next <==> c in StepSet(b)
      {
        StepSetMeaning(b, c);
      }
      bugs := next;
    }

    /**
     * The levels of one tile in `step2`.  A birth on a level outside
     * `[minZ, maxZ]` widens the range; `lo` and `hi` are the range the
     * minute started with and `b` the bugs it started with.
     */
    method StepLevels(b: set<Cell>, x: int, y: int, lo: int, hi: int, next0: set<Cell>) returns (next: set<Cell>)
      requires ValidEris(Eris(b, lo, hi))
      requires minZ == lo || minZ == lo - 1
      requires maxZ == hi || maxZ == hi + 1
      requires minZ == lo - 1 <==> OnLevel(next0, lo - 1)
      requires maxZ == hi + 1 <==> OnLevel(next0, hi + 1)
      modifies this`minZ, this`maxZ
      ensures forall c :: c in next <==> c in next0 || (c.x == x && c.y == y && lo - 1 <= c.z <= hi + 1 && Lives2(b, c))
      ensures minZ == lo || minZ == lo - 1
      ensures maxZ == hi || maxZ == hi + 1
      ensures minZ == lo - 1 <==> OnLevel(next, lo - 1)
      ensures maxZ == hi + 1 <==> OnLevel(next, hi + 1)
    {
      next := next0;
      for z := lo - 1 to hi + 2
        invariant forall c :: c in next <==> c in next0 || (c.x == x && c.y == y && lo - 1 <= c.z < z && Lives2(b, c))
        invariant minZ == lo || minZ == lo - 1
        invariant maxZ == hi || maxZ == hi + 1
        invariant minZ == lo - 1 <==> OnLevel(next, lo - 1)
        invariant maxZ == hi + 1 <==> OnLevel(next, hi + 1)
      {
        var c := Cell(x, y, z);
        var occupied := c in b;
        var n := Neighbors2(b, x, y, z);
        if n == 1 && occupied {
          assert lo <= z <= hi;
          next := next + {c};
        } else if (n == 1 || n == 2) && !occupied {
          next := next + {c};
          if z < minZ {
            minZ := z;
          } else if z > maxZ {
            maxZ := z;
          }
        }
      }
    }

    /** One column of `step2`: the tiles `(x, 0)` to `(x, 4)` on every visited level. */
    method StepColumn(b: set<Cell>, x: int, lo: int, hi: int, next0: set<Cell>) returns (next: set<Cell>)
      requires InGrid(x, 0) && ValidEris(Eris(b, lo, hi))
      requires forall c :: c in next0 <==> Visited(c, x, 0) && InBox(c, lo, hi) && Lives2(b, c)
      requires minZ == lo || minZ == lo - 1
      requires maxZ == hi || maxZ == hi + 1
      requires minZ == lo - 1 <==> OnLevel(next0, lo - 1)
      requires maxZ == hi + 1 <==> OnLevel(next0, hi + 1)
      modifies this`minZ, this`maxZ
      ensures forall c :: c in next <==> Visited(c, x + 1, 0) && InBox(c, lo, hi) && Lives2(b, c)
      ensures minZ == lo || minZ == lo - 1
      ensures maxZ == hi || maxZ == hi + 1
      ensures minZ == lo - 1 <==> OnLevel(next, lo - 1)
      ensures maxZ == hi + 1 <==> OnLevel(next, hi + 1)
    {
      next := next0;
      for y := 0 to 5
        invariant forall c :: c in next <==> Visited(c, x, y) && InBox(c, lo, hi) && Lives2(b, c)
        invariant minZ == lo || minZ == lo - 1
        invariant maxZ == hi || maxZ == hi + 1
        invariant minZ == lo - 1 <==> OnLevel(next, lo - 1)
        invariant maxZ == hi + 1 <==> OnLevel(next, hi + 1)
      {
        if !(x == 2 && y == 2) {
          next := StepLevels(b, x, y, lo, hi, next);
        }
      }
    }

    /** `step2`: every visited tile is decided from the old bugs. */
    method Step2()
      requires Valid()
      modifies this
      ensures State() == Step2Spec(old(State()))
      ensures Valid()
    {
      var b, lo, hi := bugs, minZ, maxZ;
      var next: set<Cell> := {};
      for x := 0 to 5
        invariant forall c :: c in next <==> Visited(c, x, 0) && InBox(c, lo, hi) && Lives2(b, c)
        invariant minZ == lo || minZ == lo - 1
        invariant maxZ == hi || maxZ == hi + 1
        invariant minZ == lo - 1 <==> OnLevel(next, lo - 1)
        invariant maxZ == hi + 1 <==> OnLevel(next, hi + 1)
      {
        next := StepColumn(b, x, lo, hi, next);
      }
      Step2Done(b, lo, hi, next, minZ, maxZ);
      bugs := next;
    }
  }

  /* ---------- the puzzle parts ---------- */

  /** The naturals below `n`. */
  function Range(n: nat): (r: set<nat>)
    ensures forall i: int :: i in r <==> 0 <= i < n
    ensures |r| == n
  {
    if n == 0 then {} else Range(n - 1) + {n - 1}
  }

  /** A set of naturals below `n` has at most `n` elements. */
  lemma BoundedSize(a: set<nat>, n: nat)
    requires forall v :: v in a ==> v < n
    ensures |a| <= n
  {
    var b := Range(n);
    assert b == a + (b - a);
    assert a * (b - a) == {};
  }

  /** The ratings of minutes `0` to `n`, in order. */
  ghost function History(b: set<Cell>, n: nat): (h: seq<nat>)
    ensures |h| == n + 1
  {
    if n == 0 then [Rating(b)] else History(b, n - 1) + [Rating(Iterate(b, n))]
  }

  /** Entry `k` of the history is the rating after `k` minutes. */
  lemma {:induction false} HistoryMeaning(b: set<Cell>, n: nat, k: nat)
    requires k <= n
    ensures History(b, n)[k] == Rating(Iterate(b, k))
    decreases n
  {
    if k == n {
      if k > 0 {
        HistoryLast(b, k);
      } else {
        assert Iterate(b, 0) == b;
        assert History(b, 0) == [Rating(b)];
      }
    } else {
      HistoryPrefix(b, n, k);
      HistoryMeaning(b, n - 1, k);
    }
  }

  lemma HistoryPrefix(b: set<Cell>, n: nat, k: nat)
    requires k < n
    ensures History(b, n)[k] == History(b, n - 1)[k]
  {
  }

  lemma HistoryLast(b: set<Cell>, n: nat)
    requires 0 < n
    ensures History(b, n)[n] == Rating(Iterate(b, n))
  {
    assert History(b, n) == History(b, n - 1) + [Rating(Iterate(b, n))];
  }

  ghost predicate Distinct(s: seq<nat>)
  {
    forall i, j :: 0 <= i < j < |s| ==> s[i] != s[j]
  }

  /** Minute `n` is the first whose rating was seen before: it repeats one of the distinct ratings of minutes `0` to `n - 1`. */
  ghost predicate FirstRepeat(b: set<Cell>, n: nat, r: nat)
  {
    var h := History(b, n);
    r == h[n] && r in h[..n] && Distinct(h[..n])
  }

  /** One more minute of `part1`: a seen rating is the first repeat, a new one extends the distinct history. */
  lemma Advance(b: set<Cell>, n: nat, hist: seq<nat>)
    requires hist == History(b, n) && Distinct(hist)
    ensures hist + [Rating(Iterate(b, n + 1))] == History(b, n + 1)
    ensures Rating(Iterate(b, n + 1)) in hist ==> FirstRepeat(b, n + 1, Rating(Iterate(b, n + 1)))
    ensures Rating(Iterate(b, n + 1)) !in hist ==> Distinct(hist + [Rating(Iterate(b, n + 1))])
  {
    var r := Rating(Iterate(b, n + 1));
    assert (hist + [r])[..n + 1] == hist;
  }

  /** `layouts` holds the ratings of `hist`, each below `2^25`, once each. */
  ghost predicate Tracks(layouts: set<nat>, hist: seq<nat>)
  {
    && (forall v :: v in layouts <==> v in hist)
    && |layouts| == |hist|
    && (forall v :: v in layouts ==> v < 0x200_0000)
  }

  lemma TracksAppend(layouts: set<nat>, hist: seq<nat>, r: nat)
    requires Tracks(layouts, hist) && r !in layouts && r < 0x200_0000
    ensures Tracks(layouts + {r}, hist + [r])
    ensures |layouts + {r}| <= 0x200_0000
  {
    BoundedSize(layouts + {r}, 0x200_0000);
  }

  /**
   * `part1`: step until a rating repeats.  Every minute adds a new rating
   * below `2^25` to the seen set, so the loop ends.
   */
  method Part1(input: seq<string>) returns (r: nat)
    ensures exists n :: FirstRepeat(Grid(input), n, r)
  {
    var m := new BugMap.FromInput(input);
    ghost var b0 := m.bugs;
    var layouts: set<nat> := {Rating(m.bugs)};
    ghost var n: nat := 0;
    ghost var hist := [Rating(m.bugs)];
    BoundedSize(layouts, 0x200_0000);
    while true
      invariant m.bugs == Iterate(b0, n)
      invariant hist == History(b0, n) && Distinct(hist)
      invariant Tracks(layouts, hist) && |layouts| <= 0x200_0000
      decreases 0x200_0000 - |layouts|
    {
      m.Step();
      Advance(b0, n, hist);
      n := n + 1;
      r := Rating(m.bugs);
      if r in layouts {
        return;
      }
      TracksAppend(layouts, hist, r);
      hist := hist + [r];
      layouts := layouts + {r};
    }
  }

  /** `part2`: the number of bugs after 200 minutes of the recursive automaton. */
  method Part2(input: seq<string>) returns (count: nat)
    ensures count == |Iterate2(Eris(Grid(input), 0, 0), 200).bugs|
  {
    var m := new BugMap.FromInput(input);
    for i := 0 to 200
      invariant m.Valid()
      invariant m.State() == Iterate2(Eris(Grid(input), 0, 0), i)
    {
      m.Step2();
    }
    count := |m.bugs|;
  }
}
