/**
 * Day 22: shuffling a deck of space cards.  Part 1 follows one card through
 * the shuffle; part 2 composes the inverse shuffle into the coefficients of
 * an affine map modulo a prime, using fast modular exponentiation.
 */
module Day22 {
  import opened Text
  import RustInt

  /** One shuffle technique. */
  datatype Action = Reverse | Rotate(n: int) | Multiply(n: int)

  /** `Action::from_str`; `None` also stands for the panics of `unwrap` and of indexing a missing word. */
  function ParseAction(s: string): (r: Option<Action>)
    ensures r == Some(Reverse) ==> |Split(s, " ")| >= 2 && Split(s, " ")[1] == "into"
    ensures (exists n :: r == Some(Rotate(n))) ==> Split(s, " ")[0] == "cut"
  {
    var w := Split(s, " ");
    if w[0] == "cut" then
      if |w| < 2 then None
      else match ParseI64(w[1])
        case None => None
        case Some(n) => Some(Rotate(n))
    else if |w| < 2 then None
    else if w[1] == "into" then Some(Reverse)
    else if w[1] == "with" then
      match ParseI64(w[|w| - 1])
      case None => None
      case Some(n) => Some(Multiply(n))
    else None
  }

  /** The puzzle's wording of each technique. */
  function ActionText(a: Action): string
  {
    match a
    case Reverse => "deal into new stack"
    case Rotate(n) => "cut " + IntToDecimal(n)
    case Multiply(n) => "deal with increment " + IntToDecimal(n)
  }

  /** The printed form of an integer holds no space. */
  lemma DecimalHasNoSpace(n: int)
    ensures ' ' !in IntToDecimal(n)
  {
    var d := NatToDecimal(if n < 0 then -n else n);
    assert forall i :: 0 <= i < |d| ==> IsDigit(d[i]);
    if n < 0 {
      assert IntToDecimal(n) == "-" + d;
    }
  }

  /** Every technique parses back from its wording. */
  lemma ParseActionText(a: Action)
    requires a.Rotate? || a.Multiply? ==> I64Min <= a.n <= I64Max
    ensures ParseAction(ActionText(a)) == Some(a)
  {
    match a {
      case Reverse => ParseReverseText(a);
      case Rotate(n) => ParseRotateText(n);
      case Multiply(n) => ParseMultiplyText(n);
    }
  }

  lemma ParseReverseText(a: Action)
    requires a.Reverse?
    ensures ParseAction(ActionText(a)) == Some(a)
  {
    var parts := ["deal", "into", "new", "stack"];
    assert Join(parts[2..], " ") == "new stack";
    assert Join(parts[1..], " ") == "into new stack";
    assert Join(parts, " ") == ActionText(a);
    SplitJoin(parts, ' ');
    assert Split(ActionText(a), " ") == parts;
  }

  lemma ParseRotateText(n: int)
    requires I64Min <= n <= I64Max
    ensures ParseAction(ActionText(Rotate(n))) == Some(Rotate(n))
  {
    var parts := ["cut", IntToDecimal(n)];
    DecimalHasNoSpace(n);
    assert Join(parts, " ") == ActionText(Rotate(n));
    SplitJoin(parts, ' ');
    ParseI64OfDecimal(n);
  }

  lemma ParseMultiplyText(n: int)
    requires I64Min <= n <= I64Max
    ensures ParseAction(ActionText(Multiply(n))) == Some(Multiply(n))
  {
    MultiplyTextWords(n);
    ParseI64OfDecimal(n);
  }

  lemma MultiplyTextWords(n: int)
    ensures Split(ActionText(Multiply(n)), " ") == ["deal", "with", "increment", IntToDecimal(n)]
  {
    var parts := ["deal", "with", "increment", IntToDecimal(n)];
    MultiplyTextJoin(n);
    DecimalHasNoSpace(n);
    assert ' ' !in parts[0] && ' ' !in parts[1] && ' ' !in parts[2];
    SplitJoin(parts, ' ');
  }

  lemma MultiplyTextJoin(n: int)
    ensures Join(["deal", "with", "increment", IntToDecimal(n)], " ") == ActionText(Multiply(n))
  {
    var d := IntToDecimal(n);
    var parts := ["deal", "with", "increment", d];
    assert Join(parts[2..], " ") == "increment " + d;
    assert Join(parts[1..], " ") == "with increment " + d;
  }

  /** The deck size of part 1. */
  const SmallDeck: int := 10007

  /** Where part 1's fold moves `card` under one technique, with Rust's `%`. */
  function Track(card: int, a: Action): int
  {
    match a
    case Reverse => SmallDeck - 1 - card
    case Rotate(n) =>
      var next := card - n;
      RustInt.Rem(if next < 0 then next + SmallDeck else next, SmallDeck)
    case Multiply(n) => RustInt.Rem(card * n, SmallDeck)
  }

  /** The textbook position map: each technique taken modulo the deck size. */
  function TrackMod(card: int, a: Action): int
  {
    match a
    case Reverse => (-1 - card) % SmallDeck
    case Rotate(n) => (card - n) % SmallDeck
    case Multiply(n) => (card * n) % SmallDeck
  }

  /** The techniques whose arithmetic the fold gets right: cuts shorter than the deck, non-negative increments. */
  predicate InRange(a: Action)
  {
    match a
    case Reverse => true
    case Rotate(n) => -SmallDeck < n < SmallDeck
    case Multiply(n) => n >= 0
  }

  /** On a card in the deck, every in-range technique lands in the deck and agrees with the modular map. */
  lemma TrackAgrees(card: int, a: Action)
    requires 0 <= card < SmallDeck && InRange(a)
    ensures 0 <= Track(card, a) < SmallDeck
    ensures Track(card, a) == TrackMod(card, a)
  {
    match a {
      case Reverse =>
        RustInt.DivModUnique(-1 - card, -1, SmallDeck - 1 - card, SmallDeck);
      case Rotate(n) =>
        var next := card - n;
        if next < 0 {
          RustInt.DivModUnique(next, -1, next + SmallDeck, SmallDeck);
        } else if next >= SmallDeck {
          RustInt.DivModUnique(next, 1, next - SmallDeck, SmallDeck);
        }
      case Multiply(n) =>
        assert card * n >= 0;
    }
  }

  /** Dealing into a new stack twice puts every card back. */
  lemma ReverseTwice(card: int)
    ensures Track(Track(card, Reverse), Reverse) == card
  {
  }

  /** Part 1's fold: the position of `card` after the whole shuffle. */
  function Shuffle(actions: seq<Action>, card: int): int
  {
    if |actions| == 0 then card else Shuffle(actions[1..], Track(card, actions[0]))
  }

  /** The same fold over the modular map. */
  function ShuffleMod(actions: seq<Action>, card: int): int
  {
    if |actions| == 0 then card else ShuffleMod(actions[1..], TrackMod(card, actions[0]))
  }

  /** `part1`: where card 2019 ends up. */
  function Part1(actions: seq<Action>): int
  {
    Shuffle(actions, 2019)
  }

  /** With in-range techniques the whole fold stays in the deck and agrees with the modular fold. */
  lemma {:induction false} ShuffleAgrees(actions: seq<Action>, card: int)
    requires 0 <= card < SmallDeck
    requires forall i :: 0 <= i < |actions| ==> InRange(actions[i])
    ensures 0 <= Shuffle(actions, card) < SmallDeck
    ensures Shuffle(actions, card) == ShuffleMod(actions, card)
  {
    if |actions| > 0 {
      TrackAgrees(card, actions[0]);
      ShuffleAgrees(actions[1..], Track(card, actions[0]));
    }
  }

  /** Part 1's answer is a position in the deck. */
  lemma Part1InDeck(actions: seq<Action>)
    requires forall i :: 0 <= i < |actions| ==> InRange(actions[i])
    ensures 0 <= Part1(actions) < SmallDeck
    ensures Part1(actions) == ShuffleMod(actions, 2019)
  {
    ShuffleAgrees(actions, 2019);
  }

  /** Two deals into a new stack in a row cancel out anywhere in the shuffle. */
  lemma ShuffleReverseTwice(actions: seq<Action>, card: int)
    ensures Shuffle([Reverse, Reverse] + actions, card) == Shuffle(actions, card)
  {
    var s := [Reverse, Reverse] + actions;
    assert s[1..] == [Reverse] + actions;
    assert s[1..][1..] == actions;
  }

  /** One round of square-and-multiply keeps `result * base^exp` congruent to `target` modulo `m`. */
  lemma ModPowRound(result: int, base: int, exp: nat, m: int, target: int)
    requires m > 1 && exp > 0
    requires RustInt.Congruent(result * RustInt.Pow(base, exp), target, m)
    ensures var result' := if exp % 2 == 1 then RustInt.Rem(result * base, m) else result;
            RustInt.Congruent(result' * RustInt.Pow(RustInt.Rem(base * base, m), exp / 2), target, m)
  {
    var k := exp / 2;
    var base' := RustInt.Rem(base * base, m);
    var result' := if exp % 2 == 1 then RustInt.Rem(result * base, m) else result;
    RustInt.RemIsCongruent(base * base, m);
    RustInt.PowCongruent(base', base * base, k, m);
    RustInt.PowSquare(base, k);
    if exp % 2 == 1 {
      assert exp == 2 * k + 1;
      assert RustInt.Pow(base, exp) == base * RustInt.Pow(base, 2 * k);
      RustInt.RemIsCongruent(result * base, m);
      RustInt.CongruentMul(result', result * base, RustInt.Pow(base', k), RustInt.Pow(base, 2 * k), m);
      assert (result * base) * RustInt.Pow(base, 2 * k) == result * RustInt.Pow(base, exp);
    } else {
      assert exp == 2 * k;
      RustInt.CongruentMul(result, result, RustInt.Pow(base', k), RustInt.Pow(base, 2 * k), m);
    }
    RustInt.CongruentTrans(result' * RustInt.Pow(base', k), result * RustInt.Pow(base, exp), target, m);
  }

  /**
   * `mod_pow`: `b` to the power `e` modulo `m` by repeated squaring, with
   * Rust's remainder, so a negative base can give a negative result.
   */
  method ModPow(b: int, e: int, m: int) returns (r: int)
    requires m >= 1
    ensures m == 1 ==> r == 0
    ensures m > 1 && e <= 0 ==> r == 1
    ensures -m < r < m
    ensures m > 1 && e >= 0 ==> RustInt.Congruent(r, RustInt.Pow(b, e), m)
    ensures m > 1 && e >= 0 && b >= 0 ==> r == RustInt.Pow(b, e) % m
  {
    if m == 1 {
      return 0;
    }
    r := 1;
    var base := RustInt.Rem(b, m);
    var exp := e;
    RustInt.RemIsCongruent(b, m);
    if e >= 0 {
      RustInt.PowCongruent(base, b, e, m);
      assert RustInt.Congruent(r * RustInt.Pow(base, exp), RustInt.Pow(b, e), m);
    }
    while exp > 0
      invariant e <= 0 ==> exp == e && r == 1
      invariant -m < r < m && -m < base < m
      invariant b >= 0 ==> 0 <= r && 0 <= base
      invariant e >= 0 ==> exp >= 0 && RustInt.Congruent(r * RustInt.Pow(base, exp), RustInt.Pow(b, e), m)
      decreases exp
    {
      if e >= 0 {
        ModPowRound(r, base, exp, m, RustInt.Pow(b, e));
      }
      if RustInt.Rem(exp, 2) == 1 {
        r := RustInt.Rem(r * base, m);
      }
      exp := exp / 2;
      base := RustInt.Rem(base * base, m);
    }
    if e >= 0 {
      assert RustInt.Pow(base, exp) == 1;
      if b >= 0 {
        RustInt.CongruentCanonical(r, RustInt.Pow(b, e), m);
      }
    }
  }

  /** The deck size and the number of repetitions of part 2. */
  const BigDeck: int := 119315717514047
  const Repetitions: int := 101741582076661

  /**
   * The inverse of one technique on the big deck, as a map from a position
   * to the position the card came from: Fermat's inverse `n^(deck - 2)`
   * undoes a deal with increment `n`.
   */
  function Undo(a: Action, pos: int): int
  {
    match a
    case Reverse => -pos - 1
    case Rotate(n) => pos + n
    case Multiply(n) => pos * RustInt.Pow(n, BigDeck - 2)
  }

  /** Undoing the whole shuffle: the last technique first. */
  function UndoAll(actions: seq<Action>, pos: int): int
  {
    if |actions| == 0 then pos else Undo(actions[0], UndoAll(actions[1..], pos))
  }

  /** Undoing a technique respects congruence modulo the big deck. */
  lemma UndoCongruent(a: Action, p: int, q: int)
    requires RustInt.Congruent(p, q, BigDeck)
    ensures RustInt.Congruent(Undo(a, p), Undo(a, q), BigDeck)
  {
    match a {
      case Reverse => RustInt.DividesLinear(p - q, 0, -1, BigDeck);
      case Rotate(n) =>
      case Multiply(n) =>
        var k := RustInt.Pow(n, BigDeck - 2);
        RustInt.CongruentMul(p, q, k, k, BigDeck);
    }
  }

  /** The coefficients that reverse the deck after `x -> a * x + b`. */
  lemma ReverseStep(a: int, b: int)
    ensures forall x :: RustInt.Congruent(RustInt.Rem(-a, BigDeck) * x + RustInt.Rem(-b - 1, BigDeck),
                                          Undo(Reverse, a * x + b), BigDeck)
  {
    var a', b' := RustInt.Rem(-a, BigDeck), RustInt.Rem(-b - 1, BigDeck);
    RustInt.RemIsCongruent(-a, BigDeck);
    RustInt.RemIsCongruent(-b - 1, BigDeck);
    forall x ensures RustInt.Congruent(a' * x + b', Undo(Reverse, a * x + b), BigDeck) {
      RustInt.DividesLinear(a' + a, b' + b + 1, x, BigDeck);
      assert x * (a' + a) + (b' + b + 1) == (a' * x + b') - Undo(Reverse, a * x + b);
    }
  }

  /** The coefficients that cut `n` cards after `x -> a * x + b`. */
  lemma RotateStep(a: int, b: int, n: int)
    ensures forall x :: RustInt.Congruent(a * x + RustInt.Rem(b + n, BigDeck), Undo(Rotate(n), a * x + b), BigDeck)
  {
    var b' := RustInt.Rem(b + n, BigDeck);
    RustInt.RemIsCongruent(b + n, BigDeck);
    forall x ensures RustInt.Congruent(a * x + b', Undo(Rotate(n), a * x + b), BigDeck) {
      assert (a * x + b') - Undo(Rotate(n), a * x + b) == b' - (b + n);
    }
  }

  /** The coefficients that deal with increment `n` after `x -> a * x + b`, given `k` congruent to `n`'s inverse. */
  lemma MultiplyStep(a: int, b: int, k: int, n: int)
    requires RustInt.Congruent(k, RustInt.Pow(n, BigDeck - 2), BigDeck)
    ensures forall x :: RustInt.Congruent(RustInt.Rem(a * k, BigDeck) * x + RustInt.Rem(b * k, BigDeck),
                                          Undo(Multiply(n), a * x + b), BigDeck)
  {
    var a', b' := RustInt.Rem(a * k, BigDeck), RustInt.Rem(b * k, BigDeck);
    RustInt.RemIsCongruent(a * k, BigDeck);
    RustInt.RemIsCongruent(b * k, BigDeck);
    forall x ensures RustInt.Congruent(a' * x + b', Undo(Multiply(n), a * x + b), BigDeck) {
      RustInt.DividesLinear(a' - a * k, b' - b * k, x, BigDeck);
      assert x * (a' - a * k) + (b' - b * k) == (a' * x + b') - (a * x + b) * k;
      RustInt.CongruentMul(a * x + b, a * x + b, k, RustInt.Pow(n, BigDeck - 2), BigDeck);
      RustInt.CongruentTrans(a' * x + b', (a * x + b) * k, Undo(Multiply(n), a * x + b), BigDeck);
    }
  }

  /** One step of `part2`'s fold: `(a, b)` becomes the coefficients of `x -> Undo(act, a * x + b)`. */
  method FoldStep(act: Action, a: int, b: int) returns (a': int, b': int)
    ensures act.Rotate? ==> a' == a
    ensures !act.Rotate? ==> -BigDeck < a' < BigDeck
    ensures -BigDeck < b' < BigDeck
    ensures forall x :: RustInt.Congruent(a' * x + b', Undo(act, a * x + b), BigDeck)
  {
    match act
    case Reverse =>
      a', b' := RustInt.Rem(-a, BigDeck), RustInt.Rem(-b - 1, BigDeck);
      ReverseStep(a, b);
    case Rotate(n) =>
      a', b' := a, RustInt.Rem(b + n, BigDeck);
      RotateStep(a, b, n);
    case Multiply(n) =>
      var k := ModPow(n, BigDeck - 2, BigDeck);
      a', b' := RustInt.Rem(a * k, BigDeck), RustInt.Rem(b * k, BigDeck);
      MultiplyStep(a, b, k, n);
  }

  /** Composing one more undone technique in front of coefficients that already undo `rest`. */
  lemma ComposeUndo(act: Action, rest: seq<Action>, a: int, b: int, a': int, b': int)
    requires forall x :: RustInt.Congruent(a * x + b, UndoAll(rest, x), BigDeck)
    requires forall x :: RustInt.Congruent(a' * x + b', Undo(act, a * x + b), BigDeck)
    ensures forall x :: RustInt.Congruent(a' * x + b', UndoAll([act] + rest, x), BigDeck)
  {
    forall x ensures RustInt.Congruent(a' * x + b', UndoAll([act] + rest, x), BigDeck) {
      UndoCongruent(act, a * x + b, UndoAll(rest, x));
      assert ([act] + rest)[1..] == rest;
      RustInt.CongruentTrans(a' * x + b', Undo(act, a * x + b), UndoAll([act] + rest, x), BigDeck);
    }
  }

  /**
   * The fold of `part2` over the techniques in reverse order: coefficients
   * `(a, b)` such that `a * x + b` is, modulo the deck size, the position
   * the card at `x` came from.
   */
  method Coefficients(actions: seq<Action>) returns (a: int, b: int)
    ensures -BigDeck < a < BigDeck && -BigDeck < b < BigDeck
    ensures forall x :: RustInt.Congruent(a * x + b, UndoAll(actions, x), BigDeck)
  {
    a, b := 1, 0;
    var i := |actions|;
    while i > 0
      invariant 0 <= i <= |actions|
      invariant -BigDeck < a < BigDeck && -BigDeck < b < BigDeck
      invariant forall x :: RustInt.Congruent(a * x + b, UndoAll(actions[i..], x), BigDeck)
    {
      var a', b' := FoldStep(actions[i - 1], a, b);
      ComposeUndo(actions[i - 1], actions[i..], a, b, a', b');
      assert [actions[i - 1]] + actions[i..] == actions[i - 1..];
      a, b := a', b';
      i := i - 1;
    }
  }

  /**
   * The tail of `part2`: where card 2020 came from after `Repetitions`
   * shuffles, by the geometric series of the affine map `(a, b)`.
   */
  method Repeated(a: int, b: int) returns (r: int)
    ensures -BigDeck < r < BigDeck
    ensures RustInt.Congruent(r, 2020 * RustInt.Pow(a, Repetitions)
                                 + b * ((RustInt.Pow(a, Repetitions) - 1) * RustInt.Pow(a - 1, BigDeck - 2)), BigDeck)
  {
    var aPow := ModPow(a, Repetitions, BigDeck);
    var inv := ModPow(a - 1, BigDeck - 2, BigDeck);
    var t := RustInt.Rem((aPow - 1) * inv, BigDeck);
    var x := RustInt.Rem(b * t, BigDeck);
    var u := RustInt.Rem(2020 * aPow, BigDeck);
    r := RustInt.Rem(u + x, BigDeck);
    RepeatedCongruent(a, b, aPow, inv);
  }

  lemma RepeatedCongruent(a: int, b: int, aPow: int, inv: int)
    requires RustInt.Congruent(aPow, RustInt.Pow(a, Repetitions), BigDeck)
    requires RustInt.Congruent(inv, RustInt.Pow(a - 1, BigDeck - 2), BigDeck)
    ensures var t := RustInt.Rem((aPow - 1) * inv, BigDeck);
            RustInt.Congruent(RustInt.Rem(RustInt.Rem(2020 * aPow, BigDeck) + RustInt.Rem(b * t, BigDeck), BigDeck),
                              2020 * RustInt.Pow(a, Repetitions)
                              + b * ((RustInt.Pow(a, Repetitions) - 1) * RustInt.Pow(a - 1, BigDeck - 2)), BigDeck)
  {
    var p, q := RustInt.Pow(a, Repetitions), RustInt.Pow(a - 1, BigDeck - 2);
    var t := RustInt.Rem((aPow - 1) * inv, BigDeck);
    var x := RustInt.Rem(b * t, BigDeck);
    var u := RustInt.Rem(2020 * aPow, BigDeck);
    var r := RustInt.Rem(u + x, BigDeck);
    assert RustInt.Congruent(aPow - 1, p - 1, BigDeck);
    RustInt.CongruentMul(aPow - 1, p - 1, inv, q, BigDeck);
    RustInt.RemIsCongruent((aPow - 1) * inv, BigDeck);
    RustInt.CongruentTrans(t, (aPow - 1) * inv, (p - 1) * q, BigDeck);
    RustInt.CongruentMul(b, b, t, (p - 1) * q, BigDeck);
    RustInt.RemIsCongruent(b * t, BigDeck);
    RustInt.CongruentTrans(x, b * t, b * ((p - 1) * q), BigDeck);
    RustInt.CongruentMul(2020, 2020, aPow, p, BigDeck);
    RustInt.RemIsCongruent(2020 * aPow, BigDeck);
    RustInt.CongruentTrans(u, 2020 * aPow, 2020 * p, BigDeck);
    RustInt.CongruentAdd(u, 2020 * p, x, b * ((p - 1) * q), BigDeck);
    RustInt.RemIsCongruent(u + x, BigDeck);
    RustInt.CongruentTrans(r, u + x, 2020 * p + b * ((p - 1) * q), BigDeck);
  }

  /** `a * x + b` undoes the whole shuffle modulo the big deck. */
  ghost predicate UndoesAll(actions: seq<Action>, a: int, b: int)
  {
    forall x :: RustInt.Congruent(a * x + b, UndoAll(actions, x), BigDeck)
  }

  /** The closed form `part2` evaluates for the affine map `(a, b)`. */
  ghost function RepeatFormula(a: int, b: int): int
  {
    2020 * RustInt.Pow(a, Repetitions) + b * ((RustInt.Pow(a, Repetitions) - 1) * RustInt.Pow(a - 1, BigDeck - 2))
  }

  /**
   * `part2`: the closed form for coefficients that undo the shuffle; the
   * answer fits the `i64` the source casts it to.
   */
  method Part2(actions: seq<Action>) returns (r: int)
    ensures -BigDeck < r < BigDeck
    ensures I64Min <= r <= I64Max
    ensures exists a, b :: UndoesAll(actions, a, b) && RustInt.Congruent(r, RepeatFormula(a, b), BigDeck)
  {
    var a, b := Coefficients(actions);
    r := Repeated(a, b);
    assert UndoesAll(actions, a, b);
  }
}
