/**
 * Day 3: crossed wires.  Each wire is a list of moves from the origin;
 * part 1 finds the crossing nearest the origin, part 2 the crossing the two
 * wires reach with the fewest combined steps.
 */
module Day03 {
  import opened Text

  datatype Point = Point(x: int, y: int)

  /** The four compass directions. */
  datatype Dir = N | E | W | S

  /** The unit step of a direction, north being negative `y`. */
  function Unit(d: Dir): (p: Point)
    ensures (if p.x < 0 then -p.x else p.x) + (if p.y < 0 then -p.y else p.y) == 1
  {
    match d
    case N => Point(0, -1)
    case E => Point(1, 0)
    case W => Point(-1, 0)
    case S => Point(0, 1)
  }

  /** One move of a wire. */
  datatype Seg = Seg(dir: Dir, steps: int)

  /** The letter that spells a direction. */
  function Letter(d: Dir): char
  {
    match d
    case N => 'U'
    case E => 'R'
    case W => 'L'
    case S => 'D'
  }

  /** `Seg::from_str`: a letter U, R, L or D and a step count; `None` where the source panics. */
  function ParseSeg(s: string): (r: Option<Seg>)
    ensures r.Some? ==> |s| >= 1 && s[0] == Letter(r.value.dir) && ParseI64(s[1..]) == Some(r.value.steps)
  {
    if |s| == 0 then None
    else
      var dir := match s[0]
        case 'U' => Some(N)
        case 'R' => Some(E)
        case 'L' => Some(W)
        case 'D' => Some(S)
        case _ => None;
      match (dir, ParseI64(s[1..]))
      case (Some(d), Some(n)) => Some(Seg(d, n))
      case _ => None
  }

  /** A move parses back from its letter and decimal step count. */
  lemma ParseSegText(m: Seg)
    requires I64Min <= m.steps <= I64Max
    ensures ParseSeg([Letter(m.dir)] + IntToDecimal(m.steps)) == Some(m)
  {
    var s := [Letter(m.dir)] + IntToDecimal(m.steps);
    assert s[1..] == IntToDecimal(m.steps);
    ParseI64OfDecimal(m.steps);
  }

  /** Every piece parsed as a move, or `None` if one fails. */
  function ParseSegs(pieces: seq<string>): (r: Option<seq<Seg>>)
    ensures r.Some? ==> |r.value| == |pieces|
    ensures r.Some? ==> forall i :: 0 <= i < |pieces| ==> ParseSeg(pieces[i]) == Some(r.value[i])
  {
    if |pieces| == 0 then Some([])
    else
      var first := ParseSeg(pieces[0]);
      var rest := ParseSegs(pieces[1..]);
      if first.Some? && rest.Some? then Some([first.value] + rest.value) else None
  }

  /** `WirePath::from_str`: the moves between commas. */
  function ParsePath(s: string): Option<seq<Seg>>
  {
    ParseSegs(Split(s, ","))
  }

  /** A move as the input spells it: its letter, then its step count. */
  function SegText(m: Seg): string
  {
    [Letter(m.dir)] + IntToDecimal(m.steps)
  }

  function SegTexts(path: seq<Seg>): (texts: seq<string>)
    ensures |texts| == |path|
    ensures forall k :: 0 <= k < |path| ==> texts[k] == SegText(path[k])
  {
    if |path| == 0 then [] else [SegText(path[0])] + SegTexts(path[1..])
  }

  /** No move's text holds a comma. */
  lemma NoCommaInSegText(m: Seg)
    ensures ',' !in SegText(m)
  {
    NonDigitNotInDecimal(if m.steps < 0 then -m.steps else m.steps, ',');
  }

  /** The texts of moves with `i64` step counts parse back to the moves. */
  lemma {:induction false} ParseSegsTexts(path: seq<Seg>)
    requires forall k :: 0 <= k < |path| ==> I64Min <= path[k].steps <= I64Max
    ensures ParseSegs(SegTexts(path)) == Some(path)
  {
    if |path| > 0 {
      ParseSegText(path[0]);
      ParseSegsTexts(path[1..]);
      assert SegTexts(path)[1..] == SegTexts(path[1..]);
      assert [path[0]] + path[1..] == path;
    }
  }

  /** A wire of at least one move, printed with commas between its moves, parses back to it. */
  lemma ParsePathText(path: seq<Seg>)
    requires |path| >= 1
    requires forall k :: 0 <= k < |path| ==> I64Min <= path[k].steps <= I64Max
    ensures ParsePath(Join(SegTexts(path), ",")) == Some(path)
  {
    var texts := SegTexts(path);
    forall k | 0 <= k < |texts|
      ensures ',' !in texts[k]
    {
      NoCommaInSegText(path[k]);
    }
    SplitJoin(texts, ',');
    ParseSegsTexts(path);
  }

  /** The displacement of a move. */
  function Delta(m: Seg): Point
  {
    Point(Unit(m.dir).x * m.steps, Unit(m.dir).y * m.steps)
  }

  function Add(p: Point, q: Point): Point
  {
    Point(p.x + q.x, p.y + q.y)
  }

  /** A straight piece of wire from `a` to `b`. */
  datatype Segment = Segment(a: Point, b: Point)

  /** Where a wire ends after its moves. */
  function End(path: seq<Seg>): Point
  {
    if |path| == 0 then Point(0, 0) else Add(End(path[..|path| - 1]), Delta(path[|path| - 1]))
  }

  /** The segments of a wire: one per move, each starting where the previous one ended. */
  function Segments(path: seq<Seg>): (segs: seq<Segment>)
    ensures |segs| == |path|
    ensures |segs| > 0 ==> segs[0].a == Point(0, 0)
    ensures forall i :: 0 <= i < |segs| ==> segs[i].b == Add(segs[i].a, Delta(path[i]))
    ensures forall i :: 0 <= i < |segs| - 1 ==> segs[i].b == segs[i + 1].a
    ensures |segs| > 0 ==> segs[|segs| - 1].b == End(path)
  {
    if |path| == 0 then []
    else
      var init := path[..|path| - 1];
      var start := End(init);
      assert forall i :: 0 <= i < |init| ==> init[i] == path[i];
      Segments(init) + [Segment(start, Add(start, Delta(path[|path| - 1])))]
  }

  /** `Segment::from_wirepath`: walk the moves, pushing one segment per move. */
  method FromWirePath(path: seq<Seg>) returns (segments: seq<Segment>)
    ensures segments == Segments(path)
  {
    var point := Point(0, 0);
    segments := [];
    for i := 0 to |path|
      invariant point == End(path[..i])
      invariant segments == Segments(path[..i])
    {
      assert path[..i + 1][..i] == path[..i];
      var next := Add(point, Delta(path[i]));
      segments := segments + [Segment(point, next)];
      point := next;
    }
    assert path[..|path|] == path;
  }

  function Min(a: int, b: int): int { if a < b then a else b }
  function Max(a: int, b: int): int { if a < b then b else a }
  function Abs(a: int): nat { if a < 0 then -a else a }

  /** `x_range` and `y_range` contain the value: it lies between the endpoints' coordinates. */
  predicate InX(s: Segment, x: int)
  {
    Min(s.a.x, s.b.x) <= x <= Max(s.a.x, s.b.x)
  }

  predicate InY(s: Segment, y: int)
  {
    Min(s.a.y, s.b.y) <= y <= Max(s.a.y, s.b.y)
  }

  /** The Manhattan distance. */
  function Dist(p: Point, q: Point): nat
  {
    Abs(p.x - q.x) + Abs(p.y - q.y)
  }

  /** `Segment::len`. */
  function Len(s: Segment): nat
  {
    Dist(s.a, s.b)
  }

  /** A segment from a move is as long as the move has steps. */
  lemma LenOfMove(s: Segment, m: Seg)
    requires s.b == Add(s.a, Delta(m))
    ensures Len(s) == Abs(m.steps)
  {
  }

  /** A point of the segment: inside both of its ranges. */
  predicate OnSegment(s: Segment, p: Point)
  {
    InX(s, p.x) && InY(s, p.y)
  }

  predicate Vertical(s: Segment) { s.a.x == s.b.x }
  predicate Horizontal(s: Segment) { s.a.y == s.b.y }

  /** `p_intersect`: where a vertical and a horizontal segment cross (co-linear overlaps give `None`). */
  function PIntersect(s: Segment, o: Segment): (r: Option<Point>)
    ensures r.Some? ==> OnSegment(s, r.value) && OnSegment(o, r.value)
    ensures r.Some? ==> (Vertical(s) && Horizontal(o)) || (Horizontal(s) && Vertical(o))
  {
    if Vertical(s) && Horizontal(o) && InY(s, o.a.y) && InX(o, s.a.x) then Some(Point(s.a.x, o.a.y))
    else if Horizontal(s) && Vertical(o) && InX(s, o.a.x) && InY(o, s.a.y) then Some(Point(o.a.x, s.a.y))
    else None
  }

  /** A vertical and a horizontal segment that share a point cross there. */
  lemma CrossingFound(s: Segment, o: Segment, p: Point)
    requires OnSegment(s, p) && OnSegment(o, p)
    requires (Vertical(s) && Horizontal(o)) || (Horizontal(s) && Vertical(o))
    ensures PIntersect(s, o) == Some(p)
  {
  }

  /** Two parallel segments that are not single points never cross. */
  lemma ParallelNoCrossing(s: Segment, o: Segment)
    requires (Vertical(s) && Vertical(o) && s.a.y != s.b.y && o.a.y != o.b.y)
          || (Horizontal(s) && Horizontal(o) && s.a.x != s.b.x && o.a.x != o.b.x)
    ensures PIntersect(s, o).None?
  {
  }

  /** Which answer is asked for. */
  datatype Goal = Nearest | Fewest

  /** The sum of the lengths of the first `i` segments. */
  function PathLen(w: seq<Segment>, i: nat): nat
    requires i <= |w|
  {
    if i == 0 then 0 else PathLen(w, i - 1) + Len(w[i - 1])
  }

  /**
   * The candidate from segment `i` of wire A and segment `j` of wire B: the
   * crossing's distance from the origin (part 1, the origin excluded) or the
   * steps both wires take to reach it (part 2, zero excluded).
   */
  function Value(g: Goal, wa: seq<Segment>, wb: seq<Segment>, i: nat, j: nat): Option<int>
    requires i < |wa| && j < |wb|
  {
    match PIntersect(wa[i], wb[j])
    case None => None
    case Some(c) =>
      match g
      case Nearest => if c == Point(0, 0) then None else Some(Dist(c, Point(0, 0)))
      case Fewest =>
        var v := PathLen(wa, i) + PathLen(wb, j) + Dist(wa[i].a, c) + Dist(wb[j].a, c);
        if v == 0 then None else Some(v)
  }

  function MinOpt(x: Option<int>, y: Option<int>): (r: Option<int>)
    ensures r.Some? <==> x.Some? || y.Some?
    ensures r.Some? ==> r == x || r == y
    ensures r.Some? && x.Some? ==> r.value <= x.value
    ensures r.Some? && y.Some? ==> r.value <= y.value
  {
    match (x, y)
    case (None, _) => y
    case (_, None) => x
    case (Some(a), Some(b)) => Some(Min(a, b))
  }

  /** The least candidate of wire B's segment `j` against the first `n` segments of wire A. */
  function RowMin(g: Goal, wa: seq<Segment>, wb: seq<Segment>, j: nat, n: nat): Option<int>
    requires n <= |wa| && j < |wb|
  {
    if n == 0 then None else MinOpt(RowMin(g, wa, wb, j, n - 1), Value(g, wa, wb, n - 1, j))
  }

  /** The least candidate of a row is one of its candidates and at most each of them. */
  lemma {:induction false} RowMinBounds(g: Goal, wa: seq<Segment>, wb: seq<Segment>, j: nat, n: nat)
    requires n <= |wa| && j < |wb|
    ensures RowMin(g, wa, wb, j, n).Some? ==> exists i :: 0 <= i < n && Value(g, wa, wb, i, j) == RowMin(g, wa, wb, j, n)
    ensures forall i :: 0 <= i < n && Value(g, wa, wb, i, j).Some? ==>
      RowMin(g, wa, wb, j, n).Some? && RowMin(g, wa, wb, j, n).value <= Value(g, wa, wb, i, j).value
  {
    if n > 0 {
      RowMinBounds(g, wa, wb, j, n - 1);
    }
  }

  /** Folding one more candidate of the row into a running minimum. */
  lemma RowMinStep(g: Goal, wa: seq<Segment>, wb: seq<Segment>, j: nat, i: nat, r0: Option<int>)
    requires i < |wa| && j < |wb|
    ensures MinOpt(MinOpt(r0, RowMin(g, wa, wb, j, i)), Value(g, wa, wb, i, j)) == MinOpt(r0, RowMin(g, wa, wb, j, i + 1))
  {
    MinOptAssociates(r0, RowMin(g, wa, wb, j, i), Value(g, wa, wb, i, j));
  }

  lemma MinOptAssociates(x: Option<int>, y: Option<int>, z: Option<int>)
    ensures MinOpt(MinOpt(x, y), z) == MinOpt(x, MinOpt(y, z))
  {
  }

  /** The least candidate over the first `m` segments of wire B against all of wire A. */
  function PairMin(g: Goal, wa: seq<Segment>, wb: seq<Segment>, m: nat): Option<int>
    requires m <= |wb|
  {
    if m == 0 then None else MinOpt(PairMin(g, wa, wb, m - 1), RowMin(g, wa, wb, m - 1, |wa|))
  }

  /** The least candidate over all pairs is one of the candidates and at most each of them. */
  lemma {:induction false} PairMinBounds(g: Goal, wa: seq<Segment>, wb: seq<Segment>, m: nat)
    requires m <= |wb|
    ensures PairMin(g, wa, wb, m).Some? ==>
      exists i, j :: 0 <= i < |wa| && 0 <= j < m && Value(g, wa, wb, i, j) == PairMin(g, wa, wb, m)
    ensures forall i, j :: 0 <= i < |wa| && 0 <= j < m && Value(g, wa, wb, i, j).Some? ==>
      PairMin(g, wa, wb, m).Some? && PairMin(g, wa, wb, m).value <= Value(g, wa, wb, i, j).value
  {
    if m > 0 {
      PairMinBounds(g, wa, wb, m - 1);
      RowMinBounds(g, wa, wb, m - 1, |wa|);
    }
  }

  /** `part1`: the least distance from the origin of a crossing other than the origin; `None` where `unwrap` finds none. */
  function Part1(pa: seq<Seg>, pb: seq<Seg>): Option<int>
  {
    var wa := Segments(pa);
    var wb := Segments(pb);
    PairMin(Nearest, wa, wb, |wb|)
  }

  /**
   * Part 1 is the distance of some crossing away from the origin, and no
   * such crossing is nearer; it is `None` only when there is none.
   */
  lemma Part1Meaning(pa: seq<Seg>, pb: seq<Seg>)
    ensures var wa, wb := Segments(pa), Segments(pb);
      Part1(pa, pb).Some? ==>
        exists i, j :: 0 <= i < |wa| && 0 <= j < |wb| && Value(Nearest, wa, wb, i, j) == Part1(pa, pb)
    ensures var wa, wb := Segments(pa), Segments(pb);
      forall i, j :: 0 <= i < |wa| && 0 <= j < |wb| && Value(Nearest, wa, wb, i, j).Some? ==>
        Part1(pa, pb).Some? && Part1(pa, pb).value <= Value(Nearest, wa, wb, i, j).value
  {
    PairMinBounds(Nearest, Segments(pa), Segments(pb), |Segments(pb)|);
  }

  /**
   * One pass of `part2`'s inner iteration over wire A against segment `j` of
   * wire B: `aLen` restarts at the first segment and grows by each segment's
   * length, and `bLen` grows by segment `j`'s length at the last one.
   */
  method ScanRow(wa: seq<Segment>, wb: seq<Segment>, j: nat, bLen: nat, r0: Option<int>)
    returns (r: Option<int>, bLen': nat)
    requires j < |wb| && bLen == PathLen(wb, j)
    ensures r == MinOpt(r0, RowMin(Fewest, wa, wb, j, |wa|))
    ensures bLen' == if |wa| > 0 then PathLen(wb, j + 1) else bLen
  {
    var b := wb[j];
    var aLen := 0;
    r := r0;
    bLen' := bLen;
    for i := 0 to |wa|
      invariant i < |wa| || |wa| == 0 ==> bLen' == bLen
      invariant i == |wa| && |wa| > 0 ==> bLen' == bLen + Len(b)
      invariant aLen == PathLen(wa, i)
      invariant r == MinOpt(r0, RowMin(Fewest, wa, wb, j, i))
    {
      var a := wa[i];
      if i == 0 {
        aLen := 0;
      }
      var candidate := None;
      var c := PIntersect(a, b);
      if c.Some? {
        candidate := Some(aLen + bLen' + Dist(a.a, c.value) + Dist(b.a, c.value));
      }
      if candidate == Some(0) {
        candidate := None;
      }
      assert candidate == Value(Fewest, wa, wb, i, j);
      RowMinStep(Fewest, wa, wb, j, i, r0);
      r := MinOpt(r, candidate);
      aLen := aLen + Len(a);
      if i == |wa| - 1 {
        bLen' := bLen' + Len(b);
      }
    }
    assert PathLen(wb, j + 1) == bLen + Len(b);
  }

  /**
   * `part2`: the fewest combined steps to a crossing.  The closure's running
   * lengths are the steps each wire takes before its current segment.
   */
  method Part2(pa: seq<Seg>, pb: seq<Seg>) returns (r: Option<int>)
    ensures r == PairMin(Fewest, Segments(pa), Segments(pb), |pb|)
  {
    var wa := FromWirePath(pa);
    var wb := FromWirePath(pb);
    var bLen := 0;
    r := None;
    for j := 0 to |wb|
      invariant bLen == PathLen(wb, j)
      invariant r == PairMin(Fewest, wa, wb, j)
    {
      r, bLen := ScanRow(wa, wb, j, bLen, r);
      if |wa| == 0 {
        bLen := bLen + Len(wb[j]);
      }
    }
  }
}
