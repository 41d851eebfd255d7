/**
 * Day 6: the universal orbit map.  Each line "A)B" says B orbits A; the map
 * from satellite to centre is walked up to "COM" to count orbits (part 1)
 * and to find the orbital transfers between YOU and SAN (part 2).
 */
module Day06 {
  import opened Text

  /** One line of the map: `sat` orbits `cent`. */
  datatype Orbit = Orbit(cent: string, sat: string)

  /** `Input::from_str`: the text around the first `)`; `None` where `unwrap` panics. */
  function ParseOrbit(s: string): Option<Orbit>
  {
    match SplitOnce(s, ")")
    case None => None
    case Some((c, t)) => Some(Orbit(c, t))
  }

  /** A line parses exactly when it holds a `)`, into the text before the first one and the rest. */
  lemma ParseOrbitMeaning(s: string)
    ensures ParseOrbit(s).None? <==> ')' !in s
    ensures ParseOrbit(s).Some? ==> s == ParseOrbit(s).value.cent + ")" + ParseOrbit(s).value.sat
    ensures ParseOrbit(s).Some? ==> ')' !in ParseOrbit(s).value.cent
  {
    match SplitOnce(s, ")") {
      case None =>
        forall j | 0 <= j < |s|
          ensures s[j] != ')'
        {
          OccursAtChar(s, ')', j);
        }
      case Some((c, t)) =>
        assert s[|c|] == ')';
        forall j | 0 <= j < |c|
          ensures c[j] != ')'
        {
          OccursAtChar(s, ')', j);
          assert s[j] == c[j];
        }
    }
  }

  /** A line printed from an orbit whose centre has no `)` parses back to it. */
  lemma ParseOrbitText(o: Orbit)
    requires ')' !in o.cent
    ensures ParseOrbit(o.cent + ")" + o.sat) == Some(o)
  {
    SplitOnceAtChar(o.cent, ')', o.sat);
  }

  /** `setup`: each satellite to its centre; a later line for the same satellite wins, as in a `HashMap` collect. */
  function Setup(orbits: seq<Orbit>): (m: map<string, string>)
    ensures forall i :: 0 <= i < |orbits| ==> orbits[i].sat in m
    ensures forall s :: s in m ==> exists i :: 0 <= i < |orbits| && orbits[i].sat == s && m[s] == orbits[i].cent
  {
    if |orbits| == 0 then map[]
    else
      var init := orbits[..|orbits| - 1];
      var last := orbits[|orbits| - 1];
      assert forall i :: 0 <= i < |init| ==> init[i] == orbits[i];
      Setup(init)[last.sat := last.cent]
  }

  /** The centre recorded for a satellite is the one on its last line. */
  lemma {:induction false} SetupLastWins(orbits: seq<Orbit>, i: nat)
    requires i < |orbits|
    requires forall j :: i < j < |orbits| ==> orbits[j].sat != orbits[i].sat
    ensures Setup(orbits)[orbits[i].sat] == orbits[i].cent
  {
    if i < |orbits| - 1 {
      SetupLastWins(orbits[..|orbits| - 1], i);
    }
  }

  /** The number of steps from `obj` up to "COM", if the walk reaches it within `fuel` steps without leaving the map. */
  function Steps(m: map<string, string>, obj: string, fuel: nat): (r: Option<nat>)
    ensures r == Some(0) <==> obj == "COM"
    decreases fuel
  {
    if obj == "COM" then Some(0)
    else if obj !in m || fuel == 0 then None
    else match Steps(m, m[obj], fuel - 1)
      case None => None
      case Some(d) => Some(d + 1)
  }

  /** More fuel changes nothing once the walk reaches "COM". */
  lemma {:induction false} StepsMonotone(m: map<string, string>, obj: string, f: nat, g: nat)
    requires f <= g && Steps(m, obj, f).Some?
    ensures Steps(m, obj, g) == Steps(m, obj, f)
    decreases f
  {
    if obj != "COM" {
      StepsMonotone(m, m[obj], f - 1, g - 1);
    }
  }

  /** One step up from an object other than "COM" is one step closer. */
  lemma StepsNext(m: map<string, string>, obj: string, fuel: nat)
    requires Steps(m, obj, fuel).Some? && obj != "COM"
    ensures obj in m && Steps(m, m[obj], fuel).Some?
    ensures Steps(m, m[obj], fuel).value + 1 == Steps(m, obj, fuel).value
  {
    StepsMonotone(m, m[obj], fuel - 1, fuel);
  }

  /** The object `k` steps up from `obj`. */
  function Walk(m: map<string, string>, obj: string, k: nat): Option<string>
    decreases k
  {
    if k == 0 then Some(obj)
    else if obj !in m then None
    else Walk(m, m[obj], k - 1)
  }

  /** Extending a walk by one step. */
  lemma {:induction false} WalkNext(m: map<string, string>, start: string, k: nat, obj: string)
    requires Walk(m, start, k) == Some(obj) && obj in m
    ensures Walk(m, start, k + 1) == Some(m[obj])
    decreases k
  {
    if k > 0 {
      WalkNext(m, m[start], k - 1, obj);
    }
  }

  /** What `Steps` counts: the walk reaches "COM" after exactly that many steps and not before. */
  lemma {:induction false} StepsMeaning(m: map<string, string>, obj: string, fuel: nat)
    requires Steps(m, obj, fuel).Some?
    ensures Walk(m, obj, Steps(m, obj, fuel).value) == Some("COM")
    ensures forall i :: 0 <= i < Steps(m, obj, fuel).value ==> Walk(m, obj, i).Some? && Walk(m, obj, i) != Some("COM")
    decreases fuel
  {
    if obj != "COM" {
      StepsMeaning(m, m[obj], fuel - 1);
      forall i | 0 < i < Steps(m, obj, fuel).value
        ensures Walk(m, obj, i) == Walk(m, m[obj], i - 1)
      {
      }
    }
  }

  /** Every key of the map reaches "COM" within `fuel` steps. */
  predicate Rooted(m: map<string, string>, fuel: nat)
  {
    forall k :: k in m ==> Steps(m, k, fuel).Some?
  }

  /** The sum of the depths of `keys`. */
  ghost function TotalDepth(m: map<string, string>, keys: set<string>, fuel: nat): nat
    requires forall k :: k in keys ==> Steps(m, k, fuel).Some?
    decreases keys
  {
    if keys == {} then 0
    else
      var k :| k in keys;
      Steps(m, k, fuel).value + TotalDepth(m, keys - {k}, fuel)
  }

  /** The sum does not depend on which key is taken first. */
  lemma {:induction false} TotalDepthRemove(m: map<string, string>, keys: set<string>, k: string, fuel: nat)
    requires forall k :: k in keys ==> Steps(m, k, fuel).Some?
    requires k in keys
    ensures TotalDepth(m, keys, fuel) == Steps(m, k, fuel).value + TotalDepth(m, keys - {k}, fuel)
    decreases keys
  {
    var j :| j in keys && TotalDepth(m, keys, fuel) == Steps(m, j, fuel).value + TotalDepth(m, keys - {j}, fuel);
    if j != k {
      TotalDepthRemove(m, keys - {j}, k, fuel);
      TotalDepthRemove(m, keys - {k}, j, fuel);
      assert keys - {j} - {k} == keys - {k} - {j};
    }
  }

  /** `part1`: the number of direct and indirect orbits, walking every satellite up to "COM". */
  method Part1(orbits: seq<Orbit>, ghost fuel: nat) returns (n: nat)
    requires Rooted(Setup(orbits), fuel)
    ensures n == TotalDepth(Setup(orbits), Setup(orbits).Keys, fuel)
  {
    var m := Setup(orbits);
    n := 0;
    var keys := m.Keys;
    while keys != {}
      invariant keys <= m.Keys
      invariant n + TotalDepth(m, keys, fuel) == TotalDepth(m, m.Keys, fuel)
      decreases |keys|
    {
      var k :| k in keys;
      TotalDepthRemove(m, keys, k, fuel);
      var obj := k;
      ghost var before := n;
      while obj != "COM"
        invariant Steps(m, obj, fuel).Some?
        invariant n + Steps(m, obj, fuel).value == before + Steps(m, k, fuel).value
        decreases Steps(m, obj, fuel).value
      {
        StepsNext(m, obj, fuel);
        n := n + 1;
        obj := m[obj];
      }
      keys := keys - {k};
    }
  }

  /** `d` transfers join the walks from `you` and `san` at a common object. */
  ghost predicate Meets(m: map<string, string>, you: string, san: string, d: nat)
  {
    exists i: nat, j: nat :: d == i + j && Walk(m, you, i).Some? && Walk(m, you, i) == Walk(m, san, j)
  }

  /**
   * `path` holds exactly the first `steps` objects of the walk from `start`,
   * each with its distance from `start`.
   */
  ghost predicate Recorded(m: map<string, string>, start: string, fuel: nat, path: map<string, nat>, steps: nat)
    requires Steps(m, start, fuel).Some?
  {
    && (forall y :: y in path ==>
          && path[y] < steps && Walk(m, start, path[y]) == Some(y)
          && Steps(m, y, fuel).Some? && Steps(m, y, fuel).value + path[y] == Steps(m, start, fuel).value)
    && (forall i | 0 <= i < steps ::
          Walk(m, start, i).Some? && Walk(m, start, i).value in path && path[Walk(m, start, i).value] == i)
  }

  /** Recording the next object of the walk: it is new, and the record grows by one. */
  lemma RecordNext(m: map<string, string>, start: string, fuel: nat, path: map<string, nat>, steps: nat, obj: string)
    requires Steps(m, start, fuel).Some? && Recorded(m, start, fuel, path, steps)
    requires Walk(m, start, steps) == Some(obj) && Steps(m, obj, fuel).Some?
    requires steps + Steps(m, obj, fuel).value == Steps(m, start, fuel).value
    ensures obj !in path && Recorded(m, start, fuel, path[obj := steps], steps + 1)
  {
  }

  /**
   * The first loop of `part2`: every object above `start` up to "COM", each
   * with its distance from `start`, and nothing else.
   */
  method SantaPath(m: map<string, string>, start: string, ghost fuel: nat) returns (path: map<string, nat>)
    requires Steps(m, start, fuel).Some?
    ensures "COM" in path && path["COM"] == Steps(m, start, fuel).value
    ensures forall y :: y in path ==> path[y] <= Steps(m, start, fuel).value && Walk(m, start, path[y]) == Some(y)
    ensures forall i | 0 <= i <= Steps(m, start, fuel).value ::
      Walk(m, start, i).Some? && Walk(m, start, i).value in path && path[Walk(m, start, i).value] == i
  {
    path := map[];
    var obj := start;
    var steps: nat := 0;
    while obj != "COM"
      invariant Steps(m, obj, fuel).Some?
      invariant steps + Steps(m, obj, fuel).value == Steps(m, start, fuel).value
      invariant Walk(m, start, steps) == Some(obj)
      invariant Recorded(m, start, fuel, path, steps)
      decreases Steps(m, obj, fuel).value
    {
      StepsNext(m, obj, fuel);
      RecordNext(m, start, fuel, path, steps, obj);
      path := path[obj := steps];
      WalkNext(m, start, steps, obj);
      steps := steps + 1;
      obj := m[obj];
    }
    RecordNext(m, start, fuel, path, steps, obj);
    path := path["COM" := steps];
  }

  /** A walk of `a + b` steps is a walk of `b` steps from where `a` steps lead. */
  lemma {:induction false} WalkAdd(m: map<string, string>, obj: string, a: nat, b: nat)
    requires Walk(m, obj, a).Some?
    ensures Walk(m, obj, a + b) == Walk(m, Walk(m, obj, a).value, b)
    decreases a
  {
    if a > 0 {
      WalkAdd(m, m[obj], a - 1, b);
    }
  }

  /** Without a centre for "COM", no walk goes past it. */
  lemma WalkEndsAtCom(m: map<string, string>, obj: string, fuel: nat, k: nat)
    requires "COM" !in m && Steps(m, obj, fuel).Some? && Walk(m, obj, k).Some?
    ensures k <= Steps(m, obj, fuel).value
  {
    var n := Steps(m, obj, fuel).value;
    StepsMeaning(m, obj, fuel);
    if k > n {
      WalkAdd(m, obj, n, k - n);
      assert false;
    }
  }

  /** Each object a walk passes on its way to "COM" is as many steps closer to it. */
  lemma {:induction false} WalkSteps(m: map<string, string>, obj: string, fuel: nat, i: nat)
    requires Steps(m, obj, fuel).Some? && i <= Steps(m, obj, fuel).value
    ensures Walk(m, obj, i).Some? && Steps(m, Walk(m, obj, i).value, fuel) == Some(Steps(m, obj, fuel).value - i)
    decreases i
  {
    if i > 0 {
      StepsNext(m, obj, fuel);
      WalkSteps(m, m[obj], fuel, i - 1);
    }
  }

  /** The objects a walk passes up to "COM" are all different. */
  lemma WalkDistinct(m: map<string, string>, obj: string, fuel: nat, i: nat, j: nat)
    requires Steps(m, obj, fuel).Some? && i < j <= Steps(m, obj, fuel).value
    ensures Walk(m, obj, i).Some? && Walk(m, obj, j).Some? && Walk(m, obj, i) != Walk(m, obj, j)
  {
    WalkSteps(m, obj, fuel, i);
    WalkSteps(m, obj, fuel, j);
  }

  /** The object `i` steps above `you` is the first one on `path`. */
  ghost predicate FirstOnPath(m: map<string, string>, you: string, path: map<string, nat>, i: nat)
  {
    Walk(m, you, i).Some? && Walk(m, you, i).value in path &&
    forall i' :: 0 <= i' < i ==> Walk(m, you, i').Some? && Walk(m, you, i').value !in path
  }

  /** The second loop of `part2`: walk up from `you` to the first object on the recorded path. */
  method Transfers(m: map<string, string>, you: string, path: map<string, nat>, ghost san: string, ghost fuel: nat)
    returns (d: nat)
    requires Steps(m, you, fuel).Some?
    requires "COM" in path && forall y :: y in path ==> Walk(m, san, path[y]) == Some(y)
    ensures Meets(m, you, san, d)
    ensures exists i: nat :: FirstOnPath(m, you, path, i) && d == i + path[Walk(m, you, i).value]
  {
    var obj := you;
    var steps: nat := 0;
    while obj != "COM"
      invariant Steps(m, obj, fuel).Some?
      invariant Walk(m, you, steps) == Some(obj)
      invariant forall i :: 0 <= i < steps ==> Walk(m, you, i).Some? && Walk(m, you, i).value !in path
      decreases Steps(m, obj, fuel).value
    {
      if obj in path {
        assert Walk(m, you, steps) == Walk(m, san, path[obj]);
        assert FirstOnPath(m, you, path, steps);
        return path[obj] + steps;
      }
      StepsNext(m, obj, fuel);
      WalkNext(m, you, steps, obj);
      steps := steps + 1;
      obj := m[obj];
    }
    assert Walk(m, you, steps) == Walk(m, san, path["COM"]);
    assert FirstOnPath(m, you, path, steps);
    d := steps + path["COM"];
  }

  /** `d` transfers join the walks, and no common object is fewer transfers away. */
  ghost predicate Fewest(m: map<string, string>, you: string, san: string, d: nat)
  {
    && Meets(m, you, san, d)
    && forall i: nat, j: nat :: Walk(m, you, i).Some? && Walk(m, you, i) == Walk(m, san, j) ==> d <= i + j
  }

  /**
   * With the whole of SAN's walk recorded and no centre for "COM", the first
   * recorded object on YOU's walk gives the fewest transfers.
   */
  lemma FirstOnPathFewest(m: map<string, string>, you: string, san: string, path: map<string, nat>, fuel: nat, i: nat)
    requires "COM" !in m && Steps(m, san, fuel).Some?
    requires forall y :: y in path ==> path[y] <= Steps(m, san, fuel).value && Walk(m, san, path[y]) == Some(y)
    requires forall k | 0 <= k <= Steps(m, san, fuel).value ::
      Walk(m, san, k).Some? && Walk(m, san, k).value in path && path[Walk(m, san, k).value] == k
    requires FirstOnPath(m, you, path, i)
    ensures Fewest(m, you, san, i + path[Walk(m, you, i).value])
  {
    var w := Walk(m, you, i).value;
    var j0 := path[w];
    assert Walk(m, you, i) == Walk(m, san, j0);
    forall i': nat, j': nat | Walk(m, you, i').Some? && Walk(m, you, i') == Walk(m, san, j')
      ensures i + j0 <= i' + j'
    {
      WalkEndsAtCom(m, san, fuel, j');
      var z := Walk(m, san, j').value;
      assert z in path && path[z] == j';
      if i <= i' {
        WalkAdd(m, you, i, i' - i);
        WalkAdd(m, san, j0, i' - i);
        WalkEndsAtCom(m, san, fuel, j0 + (i' - i));
        assert Walk(m, san, j0 + (i' - i)) == Some(z);
      }
    }
  }

  /**
   * `part2`: the orbital transfers from YOU's centre to SAN's, through the
   * first object above YOU that lies above SAN; when "COM" orbits nothing,
   * as in every puzzle map, that is the fewest transfers.  `None` where YOU
   * or SAN is missing and the source panics.
   */
  method Part2(orbits: seq<Orbit>, ghost fuel: nat) returns (r: Option<nat>)
    requires "SAN" in Setup(orbits) ==> Steps(Setup(orbits), Setup(orbits)["SAN"], fuel).Some?
    requires "YOU" in Setup(orbits) ==> Steps(Setup(orbits), Setup(orbits)["YOU"], fuel).Some?
    ensures r.None? <==> "SAN" !in Setup(orbits) || "YOU" !in Setup(orbits)
    ensures r.Some? ==> Meets(Setup(orbits), Setup(orbits)["YOU"], Setup(orbits)["SAN"], r.value)
    ensures r.Some? && "COM" !in Setup(orbits) ==>
      Fewest(Setup(orbits), Setup(orbits)["YOU"], Setup(orbits)["SAN"], r.value)
  {
    var m := Setup(orbits);
    if "SAN" !in m || "YOU" !in m {
      return None;
    }
    var path := SantaPath(m, m["SAN"], fuel);
    var d := Transfers(m, m["YOU"], path, m["SAN"], fuel);
    if "COM" !in m {
      ghost var i :| FirstOnPath(m, m["YOU"], path, i) && d == i + path[Walk(m, m["YOU"], i).value];
      FirstOnPathFewest(m, m["YOU"], m["SAN"], path, fuel, i);
    }
    r := Some(d);
  }
}
