/**
 * Day 18, "Many-Worlds Interpretation": the door and key bookkeeping of the
 * key-collection search. Door sets and key sets are strings kept sorted and
 * free of duplicates; merging two of them is the union.
 */
module Day18 {
  import opened Text

  datatype Cell = Open | Wall | Key(k: char) | Door(d: char) | Start

  /** `char::to_ascii_lowercase` on the letters the maze uses. */
  function Lower(c: char): char
  {
    if 'A' <= c <= 'Z' then (c as int + 32) as char else c
  }

  /** `Cell::from(char)`: anything unrecognised is a wall; a door carries its key's letter. */
  function CellOf(c: char): (r: Cell)
    ensures r == Open <==> c == '.'
    ensures r == Start <==> c == '@'
    ensures r.Key? <==> 'a' <= c <= 'z'
    ensures r.Key? ==> r.k == c
    ensures r.Door? <==> 'A' <= c <= 'Z'
    ensures r.Door? ==> 'a' <= r.d <= 'z' && r.d as int == c as int + 32
  {
    if c == '.' then Open
    else if 'A' <= c <= 'Z' then Door(Lower(c))
    else if 'a' <= c <= 'z' then Key(c)
    else if c == '@' then Start
    else Wall
  }

  // ---------------------------------------------------------------------
  // Sorted, duplicate-free strings

  predicate Sorted(s: string)
  {
    forall i, j | 0 <= i < j < |s| :: s[i] <= s[j]
  }

  predicate Increasing(s: string)
  {
    forall i, j | 0 <= i < j < |s| :: s[i] < s[j]
  }

  /** Insertion into a sorted string. */
  function Insert(c: char, s: string): (r: string)
    requires Sorted(s)
    ensures Sorted(r) && multiset(r) == multiset(s) + multiset{c}
  {
    if |s| == 0 || c <= s[0] then [c] + s
    else
      var rest := Insert(c, s[1..]);
      assert s == [s[0]] + s[1..];
      InsertAbove(s[0], c, s[1..], rest);
      [s[0]] + rest
  }

  /** A lower bound of a string and of a character bounds everything inserted. */
  lemma InsertAbove(lo: char, c: char, s: string, r: string)
    requires lo <= c && forall i | 0 <= i < |s| :: lo <= s[i]
    requires multiset(r) == multiset(s) + multiset{c}
    ensures forall i | 0 <= i < |r| :: lo <= r[i]
  {
    forall i | 0 <= i < |r|
      ensures lo <= r[i]
    {
      assert r[i] in multiset(r);
      if r[i] != c {
        assert r[i] in multiset(s);
      }
    }
  }

  /** `Iterator::sorted`: a sorted permutation. */
  function Sort(s: string): (r: string)
    ensures Sorted(r) && multiset(r) == multiset(s)
  {
    if |s| == 0 then []
    else
      assert s == [s[0]] + s[1..];
      Insert(s[0], Sort(s[1..]))
  }

  /** `Iterator::dedup`: drops each character equal to its predecessor. */
  function Dedup(s: string): (r: string)
    ensures forall c :: c in r <==> c in s
    ensures Sorted(s) ==> Increasing(r)
    ensures |r| > 0 && |s| > 0 ==> r[0] == s[0]
  {
    if |s| <= 1 then s
    else
      var rest := Dedup(s[1..]);
      if s[0] == s[1] then rest else [s[0]] + rest
  }

  /** `merge_doors`: the union of two character sets, sorted and without duplicates. */
  function MergeDoors(a: string, b: string): (r: string)
    ensures Increasing(r)
    ensures forall c :: c in r <==> c in a || c in b
  {
    var sorted := Sort(a + b);
    assert forall c :: c in sorted <==> c in multiset(a + b);
    Dedup(sorted)
  }

  /** A strictly increasing string is determined by its characters. */
  lemma {:induction false} IncreasingUnique(s: string, t: string)
    requires Increasing(s) && Increasing(t)
    requires forall c :: c in s <==> c in t
    ensures s == t
    decreases |s|
  {
    assert |s| > 0 ==> s[0] in t;
    assert |t| > 0 ==> t[0] in s;
    if |s| > 0 && |t| > 0 {
      forall c
        ensures c in s[1..] <==> c in t[1..]
      {
        if c in s[1..] {
          var j :| 1 <= j < |s| && s[j] == c;
          assert c in s;
          var k :| 0 <= k < |t| && t[k] == c;
          assert k != 0;
          assert t[1..][k - 1] == c;
        }
        if c in t[1..] {
          var j :| 1 <= j < |t| && t[j] == c;
          assert c in t;
          var k :| 0 <= k < |s| && s[k] == c;
          assert k != 0;
          assert s[1..][k - 1] == c;
        }
      }
      IncreasingUnique(s[1..], t[1..]);
      assert s == [s[0]] + s[1..] && t == [t[0]] + t[1..];
    }
  }

  lemma MergeCommutes(a: string, b: string)
    ensures MergeDoors(a, b) == MergeDoors(b, a)
  {
    IncreasingUnique(MergeDoors(a, b), MergeDoors(b, a));
  }

  lemma MergeAssociates(a: string, b: string, c: string)
    ensures MergeDoors(MergeDoors(a, b), c) == MergeDoors(a, MergeDoors(b, c))
  {
    IncreasingUnique(MergeDoors(MergeDoors(a, b), c), MergeDoors(a, MergeDoors(b, c)));
  }

  /** Merging with nothing normalises; a normalised string is left as it is. */
  lemma MergeEmpty(a: string)
    ensures MergeDoors(a, "") == MergeDoors("", a)
    ensures Increasing(a) ==> MergeDoors(a, "") == a
  {
    MergeCommutes(a, "");
    if Increasing(a) {
      IncreasingUnique(MergeDoors(a, ""), a);
    }
  }

  lemma MergeIdempotent(a: string, b: string)
    ensures MergeDoors(MergeDoors(a, b), b) == MergeDoors(a, b)
  {
    IncreasingUnique(MergeDoors(MergeDoors(a, b), b), MergeDoors(a, b));
  }

  // ---------------------------------------------------------------------
  // Edges and costs

  datatype Edge = Edge(nodeA: char, nodeB: char, steps: nat, doors: string)

  /** `Edge::can_traverse`: no door on the edge lacks its key. */
  function CanTraverse(e: Edge, keys: string): (r: bool)
    ensures r <==> forall c | c in e.doors :: c in keys
  {
    var doors := set c | c in e.doors;
    var held := set c | c in keys;
    assert forall c :: c in doors - held <==> c in e.doors && c !in keys;
    |doors - held| == 0
  }

  datatype Cost = Cost(steps: nat, doors: string)

  /** `Cost + Cost`. */
  function AddCost(c: Cost, o: Cost): (r: Cost)
    ensures r.steps == c.steps + o.steps
    ensures Increasing(r.doors)
    ensures forall d :: d in r.doors <==> d in c.doors || d in o.doors
  {
    Cost(c.steps + o.steps, MergeDoors(c.doors, o.doors))
  }

  function ZeroCost(): (r: Cost)
    ensures IsZero(r)
  {
    Cost(0, "")
  }

  predicate IsZero(c: Cost)
  {
    c.steps == 0 && |c.doors| == 0
  }

  /** Zero is a two-sided identity on costs whose doors are already normalised. */
  lemma ZeroIdentity(c: Cost)
    requires Increasing(c.doors)
    ensures AddCost(ZeroCost(), c) == c && AddCost(c, ZeroCost()) == c
  {
    MergeEmpty(c.doors);
  }

  lemma AddCommutes(c: Cost, o: Cost)
    ensures AddCost(c, o) == AddCost(o, c)
  {
    MergeCommutes(c.doors, o.doors);
  }

  lemma AddAssociates(a: Cost, b: Cost, c: Cost)
    ensures AddCost(AddCost(a, b), c) == AddCost(a, AddCost(b, c))
  {
    MergeAssociates(a.doors, b.doors, c.doors);
  }

  // ---------------------------------------------------------------------
  // The search's neighbour function

  /** A search state: the keys held so far and the node standing on. */
  datatype State = State(keys: string, node: char)

  /** The other end of `e` when it touches `node`. */
  function Across(e: Edge, node: char): (r: Option<char>)
    ensures r.Some? <==> e.nodeA == node || e.nodeB == node
    ensures r.Some? && e.nodeA == node ==> r.value == e.nodeB
    ensures r.Some? && e.nodeA != node ==> r.value == e.nodeA
  {
    if e.nodeA == node then Some(e.nodeB)
    else if e.nodeB == node then Some(e.nodeA)
    else None
  }

  /**
   * The successors of a state: along every edge at the current node to a
   * node whose key is not held yet and whose doors the held keys open,
   * picking up the current node's key; one successor per such edge, in
   * the order of the edges, and nothing else. The contract states the
   * successors in both directions and at most one per edge; the order and
   * the one-to-one match with the edges are not stated, since the search's
   * answer does not depend on them.
   */
  function Moves(edges: seq<Edge>, s: State): (r: seq<(State, nat)>)
    ensures |r| <= |edges|
    ensures forall m | m in r :: exists e | e in edges ::
      Across(e, s.node) == Some(m.0.node) && m.0.node !in s.keys && CanTraverse(e, s.keys)
      && m.1 == e.steps && m.0.keys == MergeDoors(s.keys, [s.node])
    ensures forall e | e in edges && Across(e, s.node).Some? && Across(e, s.node).value !in s.keys && CanTraverse(e, s.keys) ::
      (State(MergeDoors(s.keys, [s.node]), Across(e, s.node).value), e.steps) in r
  {
    if |edges| == 0 then []
    else
      var e := edges[0];
      var rest := Moves(edges[1..], s);
      assert forall x | x in edges[1..] :: x in edges;
      assert forall x | x in edges :: x == e || x in edges[1..];
      match Across(e, s.node)
      case Some(next) =>
        if next !in s.keys && CanTraverse(e, s.keys) then
          [(State(MergeDoors(s.keys, [s.node]), next), e.steps)] + rest
        else rest
      case None => rest
  }
}
