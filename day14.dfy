/**
 * Day 14: space stoichiometry.  Each reaction turns whole batches of
 * ingredients into a batch of one product; `search` works out how much ORE
 * one batch of FUEL takes, keeping leftovers in an inventory.
 */
module Day14 {
  import opened Text

  /** A quantity of one chemical. */
  datatype Chem = Chem(name: string, qty: nat)

  /** A reaction: the ingredients of one batch and the batch it yields. */
  datatype Reaction = Reaction(ingredients: seq<Chem>, product: Chem)

  /** `Chem::from_str`: a quantity, a space, a name; `None` where `unwrap` panics. */
  function ParseChem(s: string): Option<Chem>
  {
    match SplitOnce(s, " ")
    case None => None
    case Some((q, name)) =>
      match ParseUsize(q)
      case None => None
      case Some(n) => Some(Chem(name, n))
  }

  function ChemText(c: Chem): string
  {
    NatToDecimal(c.qty) + " " + c.name
  }

  /** A quantity the source can hold parses back from its text. */
  lemma ParseChemText(c: Chem)
    requires c.qty <= UsizeMax
    ensures ParseChem(ChemText(c)) == Some(c)
  {
    NonDigitNotInDecimal(c.qty, ' ');
    SplitOnceAtChar(NatToDecimal(c.qty), ' ', c.name);
    ParseUsizeOfDecimal(c.qty);
  }

  /** Every piece parsed as a `Chem`, or `None` if one fails. */
  function ParseAll(pieces: seq<string>): (r: Option<seq<Chem>>)
    ensures r.Some? ==> |r.value| == |pieces|
  {
    if |pieces| == 0 then Some([])
    else
      var c := ParseChem(pieces[0]);
      var rest := ParseAll(pieces[1..]);
      if c.Some? && rest.Some? then Some([c.value] + rest.value) else None
  }

  /** `Reaction::from_str`: ingredients separated by ", ", then " => " and the product. */
  function ParseReaction(s: string): Option<Reaction>
  {
    match SplitOnce(s, " => ")
    case None => None
    case Some((ing, pr)) =>
      match (ParseAll(Split(ing, ", ")), ParseChem(pr))
      case (Some(ingredients), Some(product)) => Some(Reaction(ingredients, product))
      case _ => None
  }

  function ChemTexts(cs: seq<Chem>): (ts: seq<string>)
    ensures |ts| == |cs|
  {
    seq(|cs|, i requires 0 <= i < |cs| => ChemText(cs[i]))
  }

  /** The puzzle's line for a reaction. */
  function ReactionText(r: Reaction): string
    requires |r.ingredients| >= 1
  {
    Join(ChemTexts(r.ingredients), ", ") + " => " + ChemText(r.product)
  }

  /** A name the line format can carry among the ingredients. */
  predicate GoodIngredient(c: Chem)
  {
    ',' !in c.name && '=' !in c.name && c.qty <= UsizeMax
  }

  /** The texts of all but the first quantity are the tail of the texts. */
  lemma ChemTextsTail(cs: seq<Chem>)
    requires |cs| > 0
    ensures ChemTexts(cs)[1..] == ChemTexts(cs[1..])
  {
    var a, b := ChemTexts(cs)[1..], ChemTexts(cs[1..]);
    forall i | 0 <= i < |a|
      ensures a[i] == b[i]
    {
      assert cs[1..][i] == cs[i + 1];
    }
  }

  lemma {:induction false} ParseAllTexts(cs: seq<Chem>)
    requires forall i :: 0 <= i < |cs| ==> cs[i].qty <= UsizeMax
    ensures ParseAll(ChemTexts(cs)) == Some(cs)
  {
    if |cs| > 0 {
      var ts := ChemTexts(cs);
      ParseChemText(cs[0]);
      assert ParseChem(ts[0]) == Some(cs[0]);
      ChemTextsTail(cs);
      ParseAllTexts(cs[1..]);
      assert ParseAll(ts[1..]) == Some(cs[1..]);
      assert ParseAll(ts) == Some([cs[0]] + cs[1..]);
      assert [cs[0]] + cs[1..] == cs;
    }
  }

  /** The text of an ingredient holds neither a comma nor an equals sign. */
  lemma IngredientTextClean(c: Chem)
    requires GoodIngredient(c)
    ensures ',' !in ChemText(c) && '=' !in ChemText(c)
  {
    NonDigitNotInDecimal(c.qty, ',');
    NonDigitNotInDecimal(c.qty, '=');
  }

  /** The ingredient text of a reaction splits back into the ingredients' texts and holds no equals sign. */
  lemma IngredientsText(r: Reaction)
    requires |r.ingredients| >= 1
    requires forall i :: 0 <= i < |r.ingredients| ==> GoodIngredient(r.ingredients[i])
    ensures Split(Join(ChemTexts(r.ingredients), ", "), ", ") == ChemTexts(r.ingredients)
    ensures '=' !in Join(ChemTexts(r.ingredients), ", ")
  {
    var parts := ChemTexts(r.ingredients);
    forall k | 0 <= k < |parts|
      ensures ',' !in parts[k] && '=' !in parts[k]
    {
      IngredientTextClean(r.ingredients[k]);
    }
    SplitJoinFirst(parts, ", ");
    NotInJoin(parts, ", ", '=');
  }

  /** " => " first occurs right after a text without an equals sign. */
  lemma ArrowAfter(ing: string, pr: string)
    requires '=' !in ing
    ensures SplitOnce(ing + " => " + pr, " => ") == Some((ing, pr))
  {
    var s := ing + " => " + pr;
    forall j | 0 <= j < |ing|
      ensures !OccursAt(s, " => ", j)
    {
      assert s[j + 1] != '=';
      assert s[j..j + 4][1] == s[j + 1];
    }
    SplitOnceBefore(ing, " => ", pr);
  }

  /** A reaction with at least one ingredient parses back from its line. */
  lemma ParseReactionText(r: Reaction)
    requires |r.ingredients| >= 1 && r.product.qty <= UsizeMax
    requires forall i :: 0 <= i < |r.ingredients| ==> GoodIngredient(r.ingredients[i])
    ensures ParseReaction(ReactionText(r)) == Some(r)
  {
    IngredientsText(r);
    ArrowAfter(Join(ChemTexts(r.ingredients), ", "), ChemText(r.product));
    ParseAllTexts(r.ingredients);
    ParseChemText(r.product);
  }

  /** `mk_table`: each product's name to its reaction; a later reaction for the same product wins. */
  function MkTable(reactions: seq<Reaction>): (t: map<string, Reaction>)
    ensures forall i :: 0 <= i < |reactions| ==> reactions[i].product.name in t
    ensures forall n :: n in t ==> t[n].product.name == n && exists i :: 0 <= i < |reactions| && reactions[i] == t[n]
  {
    if |reactions| == 0 then map[]
    else
      var last := reactions[|reactions| - 1];
      MkTable(reactions[..|reactions| - 1])[last.product.name := last]
  }

  /**
   * Taking `req` of `name` from the inventory: what is still needed and the
   * inventory left.  A chemical without an entry gives nothing and gets none.
   */
  function Withdraw(inv: map<string, nat>, name: string, req: nat): (r: (nat, map<string, nat>))
    ensures r.0 <= req
    ensures r.1.Keys == inv.Keys
    ensures forall k :: k in inv && k != name ==> r.1[k] == inv[k]
    ensures name !in inv ==> r.0 == req
    ensures name in inv ==> r.1[name] + req == inv[name] + r.0
    ensures name in inv ==> r.0 == 0 || r.1[name] == 0
  {
    if name !in inv then (req, inv)
    else if inv[name] >= req then (0, inv[name := inv[name] - req])
    else (req - inv[name], inv[name := 0])
  }

  /** What is still needed is exactly the part of the request the stock cannot cover. */
  lemma WithdrawShortfall(inv: map<string, nat>, name: string, req: nat)
    requires name in inv
    ensures Withdraw(inv, name, req).0 == if req > inv[name] then req - inv[name] else 0
  {
    var r := Withdraw(inv, name, req);
    if r.0 > 0 {
      assert r.1[name] == 0;
    }
  }

  /** `num_batches`: the fewest batches of `per` that cover `needed`. */
  function Batches(needed: nat, per: nat): (b: nat)
    requires per > 0
    ensures b * per >= needed
    ensures b > 0 ==> (b - 1) * per < needed
  {
    var t := needed + per - 1;
    assert t == (t / per) * per + t % per;
    assert (t / per - 1) * per == (t / per) * per - per;
    t / per
  }

  /** The batches of the ingredients: the non-ORE ones to enqueue, in order, and the ORE they take. */
  function Expand(ingredients: seq<Chem>, batches: nat): (r: (seq<Chem>, nat))
    ensures forall i :: 0 <= i < |r.0| ==> r.0[i].name != "ORE"
    ensures |r.0| <= |ingredients|
  {
    if |ingredients| == 0 then ([], 0)
    else
      var (pushed, ore) := Expand(ingredients[..|ingredients| - 1], batches);
      var c := ingredients[|ingredients| - 1];
      if c.name == "ORE" then (pushed, ore + c.qty * batches)
      else (pushed + [Chem(c.name, c.qty * batches)], ore)
  }

  /** The state of `search`: the queue of requests, the leftovers and the ORE used so far. */
  datatype State = State(queue: seq<Chem>, inventory: map<string, nat>, ore: nat)

  datatype Outcome = Done(ore: nat) | Panic | OutOfFuel

  datatype StepResult = Next(state: State) | Stopped(outcome: Outcome)

  predicate NoOre(queue: seq<Chem>)
  {
    forall i :: 0 <= i < |queue| ==> queue[i].name != "ORE"
  }

  /**
   * One iteration of `search`'s loop on the request at the front.  A request
   * for a chemical without a reaction panics at the table lookup, and so does
   * a reaction that yields nothing (a division by zero).
   */
  function Step(table: map<string, Reaction>, st: State): (r: StepResult)
    requires |st.queue| > 0
    ensures r.Next? ==> r.state.ore >= st.ore
    ensures r.Next? && NoOre(st.queue) ==> NoOre(r.state.queue)
    ensures r.Stopped? ==> r.outcome == Panic
  {
    var target := st.queue[0];
    var (needed, inv) := Withdraw(st.inventory, target.name, target.qty);
    if needed == 0 then Next(State(st.queue[1..], inv, st.ore))
    else if target.name !in table || table[target.name].product.qty == 0 then Stopped(Panic)
    else
      var reaction := table[target.name];
      var per := reaction.product.qty;
      var batches := Batches(needed, per);
      var surplus := batches * per - needed;
      var inv' := inv[target.name := (if target.name in inv then inv[target.name] else 0) + surplus];
      var (pushed, ore) := Expand(reaction.ingredients, batches);
      Next(State(st.queue[1..] + pushed, inv', st.ore + ore))
  }

  /** After a production the chemical's leftover is less than one batch. */
  lemma StepSurplus(table: map<string, Reaction>, st: State)
    requires |st.queue| > 0
    requires Withdraw(st.inventory, st.queue[0].name, st.queue[0].qty).0 > 0
    requires Step(table, st).Next?
    ensures st.queue[0].name in table
    ensures Step(table, st).state.inventory[st.queue[0].name] < table[st.queue[0].name].product.qty
  {
    var target := st.queue[0];
    var (needed, inv) := Withdraw(st.inventory, target.name, target.qty);
    var per := table[target.name].product.qty;
    var batches := Batches(needed, per);
    assert (batches - 1) * per < needed;
    var held := if target.name in inv then inv[target.name] else 0;
    assert held == 0;
    assert Step(table, st).state.inventory[target.name] == held + batches * per - needed;
  }

  /** Leftovers of chemicals other than the one requested stay as they were. */
  lemma StepKeepsOthers(table: map<string, Reaction>, st: State, name: string)
    requires |st.queue| > 0 && name != st.queue[0].name && name in st.inventory
    requires Step(table, st).Next?
    ensures Step(table, st).state.inventory[name] == st.inventory[name]
  {
  }

  /** `search`'s loop, run for at most `fuel` iterations. */
  function Run(table: map<string, Reaction>, st: State, fuel: nat): Outcome
    decreases fuel
  {
    if |st.queue| == 0 then Done(st.ore)
    else if fuel == 0 then OutOfFuel
    else match Step(table, st)
      case Stopped(o) => o
      case Next(st') => Run(table, st', fuel - 1)
  }

  /** The ORE count never falls: a finished run reports at least what was already used. */
  lemma {:induction false} RunOreMonotone(table: map<string, Reaction>, st: State, fuel: nat)
    requires Run(table, st, fuel).Done?
    ensures Run(table, st, fuel).ore >= st.ore
    decreases fuel
  {
    if |st.queue| > 0 {
      RunOreMonotone(table, Step(table, st).state, fuel - 1);
    }
  }

  /** Every state a run passes through keeps ORE out of the queue. */
  lemma {:induction false} RunNeverQueuesOre(table: map<string, Reaction>, st: State, fuel: nat, k: nat)
    requires NoOre(st.queue)
    ensures NoOre(After(table, st, k))
    decreases k
  {
    if k > 0 && |st.queue| > 0 && Step(table, st).Next? {
      RunNeverQueuesOre(table, Step(table, st).state, fuel, k - 1);
    }
  }

  /** The queue after `k` iterations (unchanged once the loop has stopped). */
  function After(table: map<string, Reaction>, st: State, k: nat): seq<Chem>
    decreases k
  {
    if k == 0 || |st.queue| == 0 then st.queue
    else match Step(table, st)
      case Stopped(_) => st.queue
      case Next(st') => After(table, st', k - 1)
  }

  /** The request `search` starts from. */
  function Start(nFuel: nat): State
  {
    State([Chem("FUEL", nFuel)], map[], 0)
  }

  /** The `and_modify` that takes a request from the inventory, in place. */
  method Take(inventory: map<string, nat>, name: string, req: nat) returns (needed: nat, inv: map<string, nat>)
    ensures (needed, inv) == Withdraw(inventory, name, req)
  {
    needed, inv := req, inventory;
    if name in inv {
      if inv[name] >= needed {
        inv := inv[name := inv[name] - needed];
        needed := 0;
      } else {
        needed := needed - inv[name];
        inv := inv[name := 0];
      }
    }
  }

  /** The loop over a reaction's ingredients: ORE is counted, everything else is enqueued. */
  method Enqueue(queue: seq<Chem>, nOre: nat, ingredients: seq<Chem>, batches: nat) returns (queue': seq<Chem>, nOre': nat)
    ensures queue' == queue + Expand(ingredients, batches).0
    ensures nOre' == nOre + Expand(ingredients, batches).1
  {
    queue', nOre' := queue, nOre;
    for i := 0 to |ingredients|
      invariant queue' == queue + Expand(ingredients[..i], batches).0
      invariant nOre' == nOre + Expand(ingredients[..i], batches).1
    {
      var chem := ingredients[i];
      assert ingredients[..i + 1][..i] == ingredients[..i];
      if chem.name == "ORE" {
        nOre' := nOre' + chem.qty * batches;
      } else {
        queue' := queue' + [Chem(chem.name, chem.qty * batches)];
      }
    }
    assert ingredients[..|ingredients|] == ingredients;
  }

  /**
   * One pass of `search`'s loop: the request at the front is served from the
   * leftovers, or produced in whole batches whose ingredients are queued.
   */
  method Serve(table: map<string, Reaction>, st: State) returns (r: StepResult)
    requires |st.queue| > 0
    ensures r == Step(table, st)
  {
    var target := st.queue[0];
    var queue := st.queue[1..];
    var needed, inventory := Take(st.inventory, target.name, target.qty);
    if needed == 0 {
      return Next(State(queue, inventory, st.ore));
    }
    if target.name !in table || table[target.name].product.qty == 0 {
      return Stopped(Panic);
    }
    var reaction := table[target.name];
    var perBatch := reaction.product.qty;
    var batches := Batches(needed, perBatch);
    var produced := batches * perBatch;
    if target.name in inventory {
      inventory := inventory[target.name := inventory[target.name] + (produced - needed)];
    } else {
      inventory := inventory[target.name := produced - needed];
    }
    var nOre;
    queue, nOre := Enqueue(queue, st.ore, reaction.ingredients, batches);
    r := Next(State(queue, inventory, nOre));
  }

  /**
   * `search`: serve the requests in order, taking leftovers first and
   * producing whole batches, until the queue is empty; at most `fuel`
   * iterations.
   */
  method Search(table: map<string, Reaction>, nFuel: nat, fuel: nat) returns (r: Outcome)
    ensures r == Run(table, Start(nFuel), fuel)
  {
    var st := Start(nFuel);
    var remaining := fuel;
    while st.queue != []
      invariant Run(table, st, remaining) == Run(table, Start(nFuel), fuel)
      decreases remaining
    {
      if remaining == 0 {
        return OutOfFuel;
      }
      var next := Serve(table, st);
      if next.Stopped? {
        return next.outcome;
      }
      st := next.state;
      remaining := remaining - 1;
    }
    r := Done(st.ore);
  }

  /** `part1`: the ORE for one FUEL. */
  method Part1(reactions: seq<Reaction>, fuel: nat) returns (r: Outcome)
    ensures r == Run(MkTable(reactions), Start(1), fuel)
  {
    r := Search(MkTable(reactions), 1, fuel);
  }

  // ---------------------------------------------------------------------
  // Samples of the tests, one iteration of `search` at a time

  /** One more reaction of the list overrides the table's entry for its product. */
  lemma MkTablePrefix(reactions: seq<Reaction>, k: nat)
    requires k < |reactions|
    ensures MkTable(reactions[..k + 1]) == MkTable(reactions[..k])[reactions[k].product.name := reactions[k]]
  {
    assert reactions[..k + 1][..k] == reactions[..k];
  }

  /** Expanding one more ingredient: ORE adds to the count, anything else is enqueued last. */
  lemma ExpandSnoc(ingredients: seq<Chem>, c: Chem, batches: nat)
    ensures var (pushed, ore) := Expand(ingredients, batches);
      Expand(ingredients + [c], batches)
      == if c.name == "ORE" then (pushed, ore + c.qty * batches)
         else (pushed + [Chem(c.name, c.qty * batches)], ore)
  {
    assert (ingredients + [c])[..|ingredients|] == ingredients;
  }

  /** A single ORE ingredient is counted, not enqueued. */
  lemma ExpandOre(c: Chem, batches: nat)
    requires c.name == "ORE"
    ensures Expand([c], batches) == ([], c.qty * batches)
  {
    ExpandSnoc([], c, batches);
    assert [] + [c] == [c];
  }

  /** Two ingredients other than ORE are enqueued in order, scaled by the batches. */
  lemma ExpandTwo(a: Chem, b: Chem, batches: nat)
    requires a.name != "ORE" && b.name != "ORE"
    ensures Expand([a, b], batches) == ([Chem(a.name, a.qty * batches), Chem(b.name, b.qty * batches)], 0)
  {
    var a', b' := Chem(a.name, a.qty * batches), Chem(b.name, b.qty * batches);
    ExpandSnoc([], a, batches);
    assert [] + [a] == [a] && [] + [a'] == [a'];
    assert Expand([a], batches) == ([a'], 0);
    ExpandSnoc([a], b, batches);
    assert [a] + [b] == [a, b] && [a'] + [b'] == [a', b'];
  }

  /** Three ingredients other than ORE are enqueued in order, scaled by the batches. */
  lemma ExpandThree(a: Chem, b: Chem, c: Chem, batches: nat)
    requires a.name != "ORE" && b.name != "ORE" && c.name != "ORE"
    ensures Expand([a, b, c], batches)
      == ([Chem(a.name, a.qty * batches), Chem(b.name, b.qty * batches), Chem(c.name, c.qty * batches)], 0)
  {
    var a', b', c' := Chem(a.name, a.qty * batches), Chem(b.name, b.qty * batches), Chem(c.name, c.qty * batches);
    ExpandTwo(a, b, batches);
    ExpandSnoc([a, b], c, batches);
    assert [a, b] + [c] == [a, b, c] && [a', b'] + [c'] == [a', b', c'];
  }

  /** An iteration whose request the leftovers cover takes it from them and enqueues nothing. */
  lemma StepServes(table: map<string, Reaction>, st: State)
    requires |st.queue| > 0
    requires st.queue[0].name in st.inventory && st.inventory[st.queue[0].name] >= st.queue[0].qty
    ensures Step(table, st) == Next(State(st.queue[1..],
      st.inventory[st.queue[0].name := st.inventory[st.queue[0].name] - st.queue[0].qty], st.ore))
  {
  }

  /**
   * An iteration whose request the leftovers do not cover uses them up, runs
   * `batches` of the reaction, keeps the surplus, enqueues the ingredients
   * other than ORE and counts the ORE.
   */
  lemma StepProduces(table: map<string, Reaction>, st: State, held: nat, batches: nat, pushed: seq<Chem>, ore: nat)
    requires |st.queue| > 0
    requires held == if st.queue[0].name in st.inventory then st.inventory[st.queue[0].name] else 0
    requires held < st.queue[0].qty
    requires st.queue[0].name in table && table[st.queue[0].name].product.qty > 0
    requires Batches(st.queue[0].qty - held, table[st.queue[0].name].product.qty) == batches
    requires Expand(table[st.queue[0].name].ingredients, batches) == (pushed, ore)
    ensures Step(table, st) == Next(State(st.queue[1..] + pushed,
      st.inventory[st.queue[0].name := batches * table[st.queue[0].name].product.qty - (st.queue[0].qty - held)],
      st.ore + ore))
  {
  }

  /** The first sample of the tests. */
  const Sample1: seq<Reaction> := [
    Reaction([Chem("ORE", 10)], Chem("A", 10)),
    Reaction([Chem("ORE", 1)], Chem("B", 1)),
    Reaction([Chem("A", 7), Chem("B", 1)], Chem("C", 1)),
    Reaction([Chem("A", 7), Chem("C", 1)], Chem("D", 1)),
    Reaction([Chem("A", 7), Chem("D", 1)], Chem("E", 1)),
    Reaction([Chem("A", 7), Chem("E", 1)], Chem("FUEL", 1))]

  /** Its table of reactions by product. */
  const Sample1Table: map<string, Reaction> := map[
    "A" := Sample1[0],
    "B" := Sample1[1],
    "C" := Sample1[2],
    "D" := Sample1[3],
    "E" := Sample1[4],
    "FUEL" := Sample1[5]]

  /** `MkTable` on the sample builds its table. */
  lemma Sample1TableIs()
    ensures MkTable(Sample1) == Sample1Table
  {
    assert Sample1[..0] == [];
    assert Sample1[..|Sample1|] == Sample1;
    MkTablePrefix(Sample1, 0);
    MkTablePrefix(Sample1, 1);
    MkTablePrefix(Sample1, 2);
    MkTablePrefix(Sample1, 3);
    MkTablePrefix(Sample1, 4);
    MkTablePrefix(Sample1, 5);
  }

  // The states of `search` before each iteration on the first sample; `Sample1StepK` is
  // iteration K and `Sample1FromK` runs the rest from the state before it.

  const Sample1At0 := State([Chem("FUEL", 1)], map[], 0)

  const Sample1At1 := State([Chem("A", 7), Chem("E", 1)], map["FUEL" := 0], 0)

  const Sample1At2 := State([Chem("E", 1)], map["FUEL" := 0, "A" := 3], 10)

  const Sample1At3 := State([Chem("A", 7), Chem("D", 1)], map["FUEL" := 0, "A" := 3, "E" := 0], 10)

  const Sample1At4 := State([Chem("D", 1)], map["FUEL" := 0, "A" := 6, "E" := 0], 20)

  const Sample1At5 := State([Chem("A", 7), Chem("C", 1)], map["FUEL" := 0, "A" := 6, "E" := 0, "D" := 0], 20)

  const Sample1At6 := State([Chem("C", 1)], map["FUEL" := 0, "A" := 9, "E" := 0, "D" := 0], 30)

  const Sample1At7 := State([Chem("A", 7), Chem("B", 1)], map["FUEL" := 0, "A" := 9, "E" := 0, "D" := 0, "C" := 0], 30)

  const Sample1At8 := State([Chem("B", 1)], map["FUEL" := 0, "A" := 2, "E" := 0, "D" := 0, "C" := 0], 30)

  const Sample1At9 := State([], map["FUEL" := 0, "A" := 2, "E" := 0, "D" := 0, "C" := 0, "B" := 0], 31)

  lemma Sample1Next0()
    ensures Sample1At0.queue[1..] + [Chem("A", 7), Chem("E", 1)] == Sample1At1.queue
    ensures Sample1At0.inventory["FUEL" := 0] == Sample1At1.inventory
  {
  }

  lemma Sample1Step0()
    ensures Step(Sample1Table, Sample1At0) == Next(Sample1At1)
  {
    Sample1Next0();
    assert "FUEL" != "A" && "FUEL" != "B" && "FUEL" != "C" && "FUEL" != "D" && "FUEL" != "E";
    assert "FUEL" !in Sample1At0.inventory;
    assert Batches(1, 1) == 1;
    ExpandTwo(Chem("A", 7), Chem("E", 1), 1);
    StepProduces(Sample1Table, Sample1At0, 0, 1, [Chem("A", 7), Chem("E", 1)], 0);
  }

  lemma Sample1Next1()
    ensures Sample1At1.queue[1..] + [] == Sample1At2.queue
    ensures Sample1At1.inventory["A" := 3] == Sample1At2.inventory
  {
  }

  lemma Sample1Step1()
    ensures Step(Sample1Table, Sample1At1) == Next(Sample1At2)
  {
    Sample1Next1();
    assert "A" != "B" && "A" != "C" && "A" != "D" && "A" != "E" && "A" != "FUEL";
    assert "A" !in Sample1At1.inventory;
    assert Batches(7, 10) == 1;
    ExpandOre(Chem("ORE", 10), 1);
    StepProduces(Sample1Table, Sample1At1, 0, 1, [], 10);
  }

  lemma Sample1Next2()
    ensures Sample1At2.queue[1..] + [Chem("A", 7), Chem("D", 1)] == Sample1At3.queue
    ensures Sample1At2.inventory["E" := 0] == Sample1At3.inventory
  {
  }

  lemma Sample1Step2()
    ensures Step(Sample1Table, Sample1At2) == Next(Sample1At3)
  {
    Sample1Next2();
    assert "E" != "A" && "E" != "B" && "E" != "C" && "E" != "D" && "E" != "FUEL";
    assert "E" !in Sample1At2.inventory;
    assert Batches(1, 1) == 1;
    ExpandTwo(Chem("A", 7), Chem("D", 1), 1);
    StepProduces(Sample1Table, Sample1At2, 0, 1, [Chem("A", 7), Chem("D", 1)], 0);
  }

  lemma Sample1Next3()
    ensures Sample1At3.queue[1..] + [] == Sample1At4.queue
    ensures Sample1At3.inventory["A" := 6] == Sample1At4.inventory
  {
  }

  lemma Sample1Step3()
    ensures Step(Sample1Table, Sample1At3) == Next(Sample1At4)
  {
    Sample1Next3();
    assert "A" != "B" && "A" != "C" && "A" != "D" && "A" != "E" && "A" != "FUEL";
    assert Batches(4, 10) == 1;
    ExpandOre(Chem("ORE", 10), 1);
    StepProduces(Sample1Table, Sample1At3, 3, 1, [], 10);
  }

  lemma Sample1Next4()
    ensures Sample1At4.queue[1..] + [Chem("A", 7), Chem("C", 1)] == Sample1At5.queue
    ensures Sample1At4.inventory["D" := 0] == Sample1At5.inventory
  {
  }

  lemma Sample1Step4()
    ensures Step(Sample1Table, Sample1At4) == Next(Sample1At5)
  {
    Sample1Next4();
    assert "D" != "A" && "D" != "B" && "D" != "C" && "D" != "E" && "D" != "FUEL";
    assert "D" !in Sample1At4.inventory;
    assert Batches(1, 1) == 1;
    ExpandTwo(Chem("A", 7), Chem("C", 1), 1);
    StepProduces(Sample1Table, Sample1At4, 0, 1, [Chem("A", 7), Chem("C", 1)], 0);
  }

  lemma Sample1Next5()
    ensures Sample1At5.queue[1..] + [] == Sample1At6.queue
    ensures Sample1At5.inventory["A" := 9] == Sample1At6.inventory
  {
  }

  lemma Sample1Step5()
    ensures Step(Sample1Table, Sample1At5) == Next(Sample1At6)
  {
    Sample1Next5();
    assert "A" != "B" && "A" != "C" && "A" != "D" && "A" != "E" && "A" != "FUEL";
    assert Batches(1, 10) == 1;
    ExpandOre(Chem("ORE", 10), 1);
    StepProduces(Sample1Table, Sample1At5, 6, 1, [], 10);
  }

  lemma Sample1Next6()
    ensures Sample1At6.queue[1..] + [Chem("A", 7), Chem("B", 1)] == Sample1At7.queue
    ensures Sample1At6.inventory["C" := 0] == Sample1At7.inventory
  {
  }

  lemma Sample1Step6()
    ensures Step(Sample1Table, Sample1At6) == Next(Sample1At7)
  {
    Sample1Next6();
    assert "C" != "A" && "C" != "B" && "C" != "D" && "C" != "E" && "C" != "FUEL";
    assert "C" !in Sample1At6.inventory;
    assert Batches(1, 1) == 1;
    ExpandTwo(Chem("A", 7), Chem("B", 1), 1);
    StepProduces(Sample1Table, Sample1At6, 0, 1, [Chem("A", 7), Chem("B", 1)], 0);
  }

  lemma Sample1Next7()
    ensures Sample1At7.queue[1..] == Sample1At8.queue
    ensures Sample1At7.inventory["A" := 2] == Sample1At8.inventory
  {
  }

  lemma Sample1Step7()
    ensures Step(Sample1Table, Sample1At7) == Next(Sample1At8)
  {
    Sample1Next7();
    assert "A" != "B" && "A" != "C" && "A" != "D" && "A" != "E" && "A" != "FUEL";
    StepServes(Sample1Table, Sample1At7);
  }

  lemma Sample1Next8()
    ensures Sample1At8.queue[1..] + [] == Sample1At9.queue
    ensures Sample1At8.inventory["B" := 0] == Sample1At9.inventory
  {
  }

  lemma Sample1Step8()
    ensures Step(Sample1Table, Sample1At8) == Next(Sample1At9)
  {
    Sample1Next8();
    assert "B" != "A" && "B" != "C" && "B" != "D" && "B" != "E" && "B" != "FUEL";
    assert "B" !in Sample1At8.inventory;
    assert Batches(1, 1) == 1;
    ExpandOre(Chem("ORE", 1), 1);
    StepProduces(Sample1Table, Sample1At8, 0, 1, [], 1);
  }

  lemma Sample1From9(fuel: nat)
    requires fuel >= 0
    ensures Run(Sample1Table, Sample1At9, fuel) == Done(31)
  {
  }

  lemma Sample1From8(fuel: nat)
    requires fuel >= 1
    ensures Run(Sample1Table, Sample1At8, fuel) == Done(31)
  {
    Sample1Step8();
    Sample1From9(fuel - 1);
  }

  lemma Sample1From7(fuel: nat)
    requires fuel >= 2
    ensures Run(Sample1Table, Sample1At7, fuel) == Done(31)
  {
    Sample1Step7();
    Sample1From8(fuel - 1);
  }

  lemma Sample1From6(fuel: nat)
    requires fuel >= 3
    ensures Run(Sample1Table, Sample1At6, fuel) == Done(31)
  {
    Sample1Step6();
    Sample1From7(fuel - 1);
  }

  lemma Sample1From5(fuel: nat)
    requires fuel >= 4
    ensures Run(Sample1Table, Sample1At5, fuel) == Done(31)
  {
    Sample1Step5();
    Sample1From6(fuel - 1);
  }

  lemma Sample1From4(fuel: nat)
    requires fuel >= 5
    ensures Run(Sample1Table, Sample1At4, fuel) == Done(31)
  {
    Sample1Step4();
    Sample1From5(fuel - 1);
  }

  lemma Sample1From3(fuel: nat)
    requires fuel >= 6
    ensures Run(Sample1Table, Sample1At3, fuel) == Done(31)
  {
    Sample1Step3();
    Sample1From4(fuel - 1);
  }

  lemma Sample1From2(fuel: nat)
    requires fuel >= 7
    ensures Run(Sample1Table, Sample1At2, fuel) == Done(31)
  {
    Sample1Step2();
    Sample1From3(fuel - 1);
  }

  lemma Sample1From1(fuel: nat)
    requires fuel >= 8
    ensures Run(Sample1Table, Sample1At1, fuel) == Done(31)
  {
    Sample1Step1();
    Sample1From2(fuel - 1);
  }

  lemma Sample1From0(fuel: nat)
    requires fuel >= 9
    ensures Run(Sample1Table, Sample1At0, fuel) == Done(31)
  {
    Sample1Step0();
    Sample1From1(fuel - 1);
  }

  /** `day14_test`: part 1 of the first sample needs 31 ORE, after 9 iterations. */
  lemma Sample1Ore(fuel: nat)
    requires fuel >= 9
    ensures Run(MkTable(Sample1), Start(1), fuel) == Done(31)
  {
    Sample1TableIs();
    assert Start(1) == Sample1At0;
    Sample1From0(fuel);
  }

  /** The second sample of the tests. */
  const Sample2: seq<Reaction> := [
    Reaction([Chem("ORE", 9)], Chem("A", 2)),
    Reaction([Chem("ORE", 8)], Chem("B", 3)),
    Reaction([Chem("ORE", 7)], Chem("C", 5)),
    Reaction([Chem("A", 3), Chem("B", 4)], Chem("AB", 1)),
    Reaction([Chem("B", 5), Chem("C", 7)], Chem("BC", 1)),
    Reaction([Chem("C", 4), Chem("A", 1)], Chem("CA", 1)),
    Reaction([Chem("AB", 2), Chem("BC", 3), Chem("CA", 4)], Chem("FUEL", 1))]

  /** Its table of reactions by product. */
  const Sample2Table: map<string, Reaction> := map[
    "A" := Sample2[0],
    "B" := Sample2[1],
    "C" := Sample2[2],
    "AB" := Sample2[3],
    "BC" := Sample2[4],
    "CA" := Sample2[5],
    "FUEL" := Sample2[6]]

  /** `MkTable` on the sample builds its table. */
  lemma Sample2TableIs()
    ensures MkTable(Sample2) == Sample2Table
  {
    assert Sample2[..0] == [];
    assert Sample2[..|Sample2|] == Sample2;
    MkTablePrefix(Sample2, 0);
    MkTablePrefix(Sample2, 1);
    MkTablePrefix(Sample2, 2);
    MkTablePrefix(Sample2, 3);
    MkTablePrefix(Sample2, 4);
    MkTablePrefix(Sample2, 5);
    MkTablePrefix(Sample2, 6);
  }

  // The states of `search` before each iteration on the second sample; `Sample2StepK` is
  // iteration K and `Sample2FromK` runs the rest from the state before it.

  const Sample2At0 := State([Chem("FUEL", 1)], map[], 0)

  const Sample2At1 := State([Chem("AB", 2), Chem("BC", 3), Chem("CA", 4)], map["FUEL" := 0], 0)

  const Sample2At2 := State([Chem("BC", 3), Chem("CA", 4), Chem("A", 6), Chem("B", 8)], map["FUEL" := 0, "AB" := 0], 0)

  const Sample2At3 := State([Chem("CA", 4), Chem("A", 6), Chem("B", 8), Chem("B", 15), Chem("C", 21)], map["FUEL" := 0, "AB" := 0, "BC" := 0], 0)

  const Sample2At4 := State([Chem("A", 6), Chem("B", 8), Chem("B", 15), Chem("C", 21), Chem("C", 16), Chem("A", 4)], map["FUEL" := 0, "AB" := 0, "BC" := 0, "CA" := 0], 0)

  const Sample2At5 := State([Chem("B", 8), Chem("B", 15), Chem("C", 21), Chem("C", 16), Chem("A", 4)], map["FUEL" := 0, "AB" := 0, "BC" := 0, "CA" := 0, "A" := 0], 27)

  const Sample2At6 := State([Chem("B", 15), Chem("C", 21), Chem("C", 16), Chem("A", 4)], map["FUEL" := 0, "AB" := 0, "BC" := 0, "CA" := 0, "A" := 0, "B" := 1], 51)

  const Sample2At7 := State([Chem("C", 21), Chem("C", 16), Chem("A", 4)], map["FUEL" := 0, "AB" := 0, "BC" := 0, "CA" := 0, "A" := 0, "B" := 1], 91)

  const Sample2At8 := State([Chem("C", 16), Chem("A", 4)], map["FUEL" := 0, "AB" := 0, "BC" := 0, "CA" := 0, "A" := 0, "B" := 1, "C" := 4], 126)

  const Sample2At9 := State([Chem("A", 4)], map["FUEL" := 0, "AB" := 0, "BC" := 0, "CA" := 0, "A" := 0, "B" := 1, "C" := 3], 147)

  const Sample2At10 := State([], map["FUEL" := 0, "AB" := 0, "BC" := 0, "CA" := 0, "A" := 0, "B" := 1, "C" := 3], 165)

  lemma Sample2Next0()
    ensures Sample2At0.queue[1..] + [Chem("AB", 2), Chem("BC", 3), Chem("CA", 4)] == Sample2At1.queue
    ensures Sample2At0.inventory["FUEL" := 0] == Sample2At1.inventory
  {
  }

  lemma Sample2Step0()
    ensures Step(Sample2Table, Sample2At0) == Next(Sample2At1)
  {
    Sample2Next0();
    assert "FUEL" != "A" && "FUEL" != "B" && "FUEL" != "C" && "FUEL" != "AB" && "FUEL" != "BC" && "FUEL" != "CA";
    assert "FUEL" !in Sample2At0.inventory;
    assert Batches(1, 1) == 1;
    ExpandThree(Chem("AB", 2), Chem("BC", 3), Chem("CA", 4), 1);
    StepProduces(Sample2Table, Sample2At0, 0, 1, [Chem("AB", 2), Chem("BC", 3), Chem("CA", 4)], 0);
  }

  lemma Sample2Next1()
    ensures Sample2At1.queue[1..] + [Chem("A", 6), Chem("B", 8)] == Sample2At2.queue
    ensures Sample2At1.inventory["AB" := 0] == Sample2At2.inventory
  {
  }

  lemma Sample2Step1()
    ensures Step(Sample2Table, Sample2At1) == Next(Sample2At2)
  {
    Sample2Next1();
    assert "AB" != "A" && "AB" != "B" && "AB" != "C" && "AB" != "BC" && "AB" != "CA" && "AB" != "FUEL";
    assert "AB" !in Sample2At1.inventory;
    assert Batches(2, 1) == 2;
    ExpandTwo(Chem("A", 3), Chem("B", 4), 2);
    StepProduces(Sample2Table, Sample2At1, 0, 2, [Chem("A", 6), Chem("B", 8)], 0);
  }

  lemma Sample2Next2()
    ensures Sample2At2.queue[1..] + [Chem("B", 15), Chem("C", 21)] == Sample2At3.queue
    ensures Sample2At2.inventory["BC" := 0] == Sample2At3.inventory
  {
  }

  lemma Sample2Step2()
    ensures Step(Sample2Table, Sample2At2) == Next(Sample2At3)
  {
    Sample2Next2();
    assert "BC" != "A" && "BC" != "B" && "BC" != "C" && "BC" != "AB" && "BC" != "CA" && "BC" != "FUEL";
    assert "BC" !in Sample2At2.inventory;
    assert Batches(3, 1) == 3;
    ExpandTwo(Chem("B", 5), Chem("C", 7), 3);
    StepProduces(Sample2Table, Sample2At2, 0, 3, [Chem("B", 15), Chem("C", 21)], 0);
  }

  lemma Sample2Next3()
    ensures Sample2At3.queue[1..] + [Chem("C", 16), Chem("A", 4)] == Sample2At4.queue
    ensures Sample2At3.inventory["CA" := 0] == Sample2At4.inventory
  {
  }

  lemma Sample2Step3()
    ensures Step(Sample2Table, Sample2At3) == Next(Sample2At4)
  {
    Sample2Next3();
    assert "CA" != "A" && "CA" != "B" && "CA" != "C" && "CA" != "AB" && "CA" != "BC" && "CA" != "FUEL";
    assert "CA" !in Sample2At3.inventory;
    assert Batches(4, 1) == 4;
    ExpandTwo(Chem("C", 4), Chem("A", 1), 4);
    StepProduces(Sample2Table, Sample2At3, 0, 4, [Chem("C", 16), Chem("A", 4)], 0);
  }

  lemma Sample2Next4()
    ensures Sample2At4.queue[1..] + [] == Sample2At5.queue
    ensures Sample2At4.inventory["A" := 0] == Sample2At5.inventory
  {
  }

  lemma Sample2Step4()
    ensures Step(Sample2Table, Sample2At4) == Next(Sample2At5)
  {
    Sample2Next4();
    assert "A" != "B" && "A" != "C" && "A" != "AB" && "A" != "BC" && "A" != "CA" && "A" != "FUEL";
    assert "A" !in Sample2At4.inventory;
    assert Batches(6, 2) == 3;
    ExpandOre(Chem("ORE", 9), 3);
    StepProduces(Sample2Table, Sample2At4, 0, 3, [], 27);
  }

  lemma Sample2Next5()
    ensures Sample2At5.queue[1..] + [] == Sample2At6.queue
    ensures Sample2At5.inventory["B" := 1] == Sample2At6.inventory
  {
  }

  lemma Sample2Step5()
    ensures Step(Sample2Table, Sample2At5) == Next(Sample2At6)
  {
    Sample2Next5();
    assert "B" != "A" && "B" != "C" && "B" != "AB" && "B" != "BC" && "B" != "CA" && "B" != "FUEL";
    assert "B" !in Sample2At5.inventory;
    assert Batches(8, 3) == 3;
    ExpandOre(Chem("ORE", 8), 3);
    StepProduces(Sample2Table, Sample2At5, 0, 3, [], 24);
  }

  lemma Sample2Next6()
    ensures Sample2At6.queue[1..] + [] == Sample2At7.queue
    ensures Sample2At6.inventory["B" := 1] == Sample2At7.inventory
  {
  }

  lemma Sample2Step6()
    ensures Step(Sample2Table, Sample2At6) == Next(Sample2At7)
  {
    Sample2Next6();
    assert "B" != "A" && "B" != "C" && "B" != "AB" && "B" != "BC" && "B" != "CA" && "B" != "FUEL";
    assert Batches(14, 3) == 5;
    ExpandOre(Chem("ORE", 8), 5);
    StepProduces(Sample2Table, Sample2At6, 1, 5, [], 40);
  }

  lemma Sample2Next7()
    ensures Sample2At7.queue[1..] + [] == Sample2At8.queue
    ensures Sample2At7.inventory["C" := 4] == Sample2At8.inventory
  {
  }

  lemma Sample2Step7()
    ensures Step(Sample2Table, Sample2At7) == Next(Sample2At8)
  {
    Sample2Next7();
    assert "C" != "A" && "C" != "B" && "C" != "AB" && "C" != "BC" && "C" != "CA" && "C" != "FUEL";
    assert "C" !in Sample2At7.inventory;
    assert Batches(21, 5) == 5;
    ExpandOre(Chem("ORE", 7), 5);
    StepProduces(Sample2Table, Sample2At7, 0, 5, [], 35);
  }

  lemma Sample2Next8()
    ensures Sample2At8.queue[1..] + [] == Sample2At9.queue
    ensures Sample2At8.inventory["C" := 3] == Sample2At9.inventory
  {
  }

  lemma Sample2Step8()
    ensures Step(Sample2Table, Sample2At8) == Next(Sample2At9)
  {
    Sample2Next8();
    assert "C" != "A" && "C" != "B" && "C" != "AB" && "C" != "BC" && "C" != "CA" && "C" != "FUEL";
    assert Batches(12, 5) == 3;
    ExpandOre(Chem("ORE", 7), 3);
    StepProduces(Sample2Table, Sample2At8, 4, 3, [], 21);
  }

  lemma Sample2Next9()
    ensures Sample2At9.queue[1..] + [] == Sample2At10.queue
    ensures Sample2At9.inventory["A" := 0] == Sample2At10.inventory
  {
  }

  lemma Sample2Step9()
    ensures Step(Sample2Table, Sample2At9) == Next(Sample2At10)
  {
    Sample2Next9();
    assert "A" != "B" && "A" != "C" && "A" != "AB" && "A" != "BC" && "A" != "CA" && "A" != "FUEL";
    assert Batches(4, 2) == 2;
    ExpandOre(Chem("ORE", 9), 2);
    StepProduces(Sample2Table, Sample2At9, 0, 2, [], 18);
  }

  lemma Sample2From10(fuel: nat)
    requires fuel >= 0
    ensures Run(Sample2Table, Sample2At10, fuel) == Done(165)
  {
  }

  lemma Sample2From9(fuel: nat)
    requires fuel >= 1
    ensures Run(Sample2Table, Sample2At9, fuel) == Done(165)
  {
    Sample2Step9();
    Sample2From10(fuel - 1);
  }

  lemma Sample2From8(fuel: nat)
    requires fuel >= 2
    ensures Run(Sample2Table, Sample2At8, fuel) == Done(165)
  {
    Sample2Step8();
    Sample2From9(fuel - 1);
  }

  lemma Sample2From7(fuel: nat)
    requires fuel >= 3
    ensures Run(Sample2Table, Sample2At7, fuel) == Done(165)
  {
    Sample2Step7();
    Sample2From8(fuel - 1);
  }

  lemma Sample2From6(fuel: nat)
    requires fuel >= 4
    ensures Run(Sample2Table, Sample2At6, fuel) == Done(165)
  {
    Sample2Step6();
    Sample2From7(fuel - 1);
  }

  lemma Sample2From5(fuel: nat)
    requires fuel >= 5
    ensures Run(Sample2Table, Sample2At5, fuel) == Done(165)
  {
    Sample2Step5();
    Sample2From6(fuel - 1);
  }

  lemma Sample2From4(fuel: nat)
    requires fuel >= 6
    ensures Run(Sample2Table, Sample2At4, fuel) == Done(165)
  {
    Sample2Step4();
    Sample2From5(fuel - 1);
  }

  lemma Sample2From3(fuel: nat)
    requires fuel >= 7
    ensures Run(Sample2Table, Sample2At3, fuel) == Done(165)
  {
    Sample2Step3();
    Sample2From4(fuel - 1);
  }

  lemma Sample2From2(fuel: nat)
    requires fuel >= 8
    ensures Run(Sample2Table, Sample2At2, fuel) == Done(165)
  {
    Sample2Step2();
    Sample2From3(fuel - 1);
  }

  lemma Sample2From1(fuel: nat)
    requires fuel >= 9
    ensures Run(Sample2Table, Sample2At1, fuel) == Done(165)
  {
    Sample2Step1();
    Sample2From2(fuel - 1);
  }

  lemma Sample2From0(fuel: nat)
    requires fuel >= 10
    ensures Run(Sample2Table, Sample2At0, fuel) == Done(165)
  {
    Sample2Step0();
    Sample2From1(fuel - 1);
  }

  /** `day14_test`: part 1 of the second sample needs 165 ORE, after 10 iterations. */
  lemma Sample2Ore(fuel: nat)
    requires fuel >= 10
    ensures Run(MkTable(Sample2), Start(1), fuel) == Done(165)
  {
    Sample2TableIs();
    assert Start(1) == Sample2At0;
    Sample2From0(fuel);
  }
}
