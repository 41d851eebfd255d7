/**
 * Day 16: the flawed frequency transmission.  Part 1 applies the FFT phase
 * (a pattern-weighted sum per output digit) a hundred times; part 2 works on
 * a late window of the input repeated ten thousand times, where the pattern
 * is all ones and a phase becomes a running suffix sum done in place.
 */
module Day16 {
  import opened Text
  import RustInt

  /** `Input::from_str`: one value per character. */
  function Parse(s: string): (r: Option<seq<int>>)
    ensures r.Some? <==> forall i :: 0 <= i < |s| ==> DigitOf(s[i]).Some?
    ensures r.Some? ==> |r.value| == |s| && forall i :: 0 <= i < |s| ==> r.value[i] == DigitOf(s[i]).value
    ensures r.Some? ==> forall i :: 0 <= i < |s| ==> 0 <= r.value[i] < 256 - '0' as int
  {
    if forall i :: 0 <= i < |s| ==> DigitOf(s[i]).Some? then
      Some(seq(|s|, i requires 0 <= i < |s| => DigitOf(s[i]).value))
    else None
  }

  predicate IsDigits(d: seq<int>)
  {
    forall i :: 0 <= i < |d| ==> 0 <= d[i] <= 9
  }

  /** `(*c + b'0') as char` over a sequence of digits. */
  function DigitText(d: seq<int>): (s: string)
    requires IsDigits(d)
    ensures |s| == |d| && AllDigits(s)
  {
    seq(|d|, i requires 0 <= i < |d| => ('0' as int + d[i]) as char)
  }

  /** Printing digits and parsing them back gives the digits. */
  lemma ParseDigitText(d: seq<int>)
    requires IsDigits(d)
    ensures Parse(DigitText(d)) == Some(d)
  {
    var s := DigitText(d);
    assert forall i :: 0 <= i < |s| ==> DigitOf(s[i]) == Some(d[i]);
    assert Parse(s).value == d;
  }

  /** Parsing a string of ASCII digits and printing the values gives the string. */
  lemma DigitTextParse(s: string)
    requires AllDigits(s)
    ensures Parse(s).Some? && IsDigits(Parse(s).value) && DigitText(Parse(s).value) == s
  {
    assert forall i :: 0 <= i < |s| ==> DigitOf(s[i]) == Some(s[i] as int - '0' as int);
  }

  /** The repeating pattern for output digit `n` (1-based) at input position `j`: 0, 1, 0, -1, each `n` times, first entry skipped. */
  function Pattern(n: nat, j: nat): (p: int)
    requires n >= 1
    ensures -1 <= p <= 1
  {
    var phase := ((j + 1) / n) % 4;
    if phase == 1 then 1 else if phase == 3 then -1 else 0
  }

  /** The pattern repeats every `4 * n` positions. */
  lemma PatternPeriodic(n: nat, j: nat)
    requires n >= 1
    ensures Pattern(n, j + 4 * n) == Pattern(n, j)
  {
    var q := (j + 1) / n;
    RustInt.DivModUnique(j + 1 + 4 * n, q + 4, (j + 1) % n, n);
    RustInt.DivModUnique(q + 4, q / 4 + 1, q % 4, 4);
  }

  /** The weighted sum of `d[j..]` under the pattern for output digit `n`. */
  function WeightedFrom(d: seq<int>, n: nat, j: nat): int
    requires n >= 1
    decreases |d| - j
  {
    if j >= |d| then 0 else d[j] * Pattern(n, j) + WeightedFrom(d, n, j + 1)
  }

  /** `fft`: output digit `n` is the last digit of the magnitude of the weighted sum. */
  function Fft(d: seq<int>): (r: seq<int>)
    ensures |r| == |d| && IsDigits(r)
  {
    seq(|d|, i requires 0 <= i < |d| => (if WeightedFrom(d, i + 1, 0) < 0 then -WeightedFrom(d, i + 1, 0) else WeightedFrom(d, i + 1, 0)) % 10)
  }

  /** `d` after `k` phases. */
  function FftRounds(d: seq<int>, k: nat): (r: seq<int>)
    ensures |r| == |d|
    ensures k > 0 ==> IsDigits(r)
  {
    if k == 0 then d else Fft(FftRounds(d, k - 1))
  }

  /** The first eight entries, or all of them when there are fewer. */
  function Take8(d: seq<int>): (r: seq<int>)
    ensures |r| == if |d| < 8 then |d| else 8
    ensures r == d[..|r|]
  {
    d[..if |d| < 8 then |d| else 8]
  }

  /** `part1`: a hundred phases, then the first eight digits. */
  method Part1(input: seq<int>) returns (r: string)
    ensures IsDigits(Take8(FftRounds(input, 100)))
    ensures r == DigitText(Take8(FftRounds(input, 100)))
  {
    var vec := input;
    for round := 0 to 100
      invariant vec == FftRounds(input, round)
    {
      vec := Fft(vec);
    }
    r := DigitText(Take8(vec));
  }

  /** The sum of `s[i..]`. */
  function SuffixSum(s: seq<int>, i: nat): int
    decreases |s| - i
  {
    if i >= |s| then 0 else s[i] + SuffixSum(s, i + 1)
  }

  /** One phase on a late window: every entry becomes the last digit of the sum from it to the end. */
  function SuffixPhase(s: seq<int>): (r: seq<int>)
    ensures |r| == |s| && IsDigits(r)
  {
    seq(|s|, i requires 0 <= i < |s| => SuffixSum(s, i) % 10)
  }

  /** The pattern is zero before position `n - 1`. */
  lemma PatternLeadingZeros(n: nat, j: nat)
    requires n >= 1 && j + 1 < n
    ensures Pattern(n, j) == 0
  {
  }

  /** The pattern is one from position `n - 1` for `n` positions. */
  lemma PatternOnes(n: nat, j: nat)
    requires n >= 1 && n <= j + 1 < 2 * n
    ensures Pattern(n, j) == 1
  {
    RustInt.DivModUnique(j + 1, 1, j + 1 - n, n);
  }

  /** Past the middle of the input, the weighted sum for digit `n` is the plain sum from position `j`. */
  lemma {:induction false} WeightedIsSuffix(d: seq<int>, n: nat, j: nat)
    requires n >= 1 && 2 * n >= |d| + 1 && j + 1 >= n
    ensures WeightedFrom(d, n, j) == SuffixSum(d, j)
    decreases |d| - j
  {
    if j < |d| {
      PatternOnes(n, j);
      WeightedIsSuffix(d, n, j + 1);
    }
  }

  /** Before position `n - 1` the weighted sum gains nothing. */
  lemma {:induction false} WeightedSkipsZeros(d: seq<int>, n: nat, j: nat)
    requires n >= 1 && j + 1 <= n
    ensures WeightedFrom(d, n, j) == WeightedFrom(d, n, n - 1)
    decreases n - j
  {
    if j + 1 < n {
      PatternLeadingZeros(n, j);
      WeightedSkipsZeros(d, n, j + 1);
    }
  }

  /** The suffix sums of a suffix are suffix sums of the whole. */
  lemma {:induction false} SuffixSumOfSuffix(s: seq<int>, k: nat, i: nat)
    requires k <= |s|
    ensures SuffixSum(s[k..], i) == SuffixSum(s, k + i)
    decreases |s| - k - i
  {
    if k + i < |s| {
      SuffixSumOfSuffix(s, k, i + 1);
    }
  }

  /** A suffix sum of non-negative values is non-negative. */
  lemma {:induction false} SuffixSumNonNegative(s: seq<int>, i: nat)
    requires forall k :: 0 <= k < |s| ==> s[k] >= 0
    ensures SuffixSum(s, i) >= 0
    decreases |s| - i
  {
    if i < |s| {
      SuffixSumNonNegative(s, i + 1);
    }
  }

  /**
   * Why part 2 may use suffix sums: from position `k` on, where `2 * k + 1`
   * reaches the length, a full FFT phase of non-negative values equals the
   * suffix-sum phase of the window starting at `k`.
   */
  lemma FftLateWindow(d: seq<int>, k: nat)
    requires k <= |d| && 2 * k + 1 >= |d|
    requires forall i :: 0 <= i < |d| ==> d[i] >= 0
    ensures Fft(d)[k..] == SuffixPhase(d[k..])
  {
    forall i | k <= i < |d|
      ensures Fft(d)[i] == SuffixSum(d, i) % 10
    {
      WeightedSkipsZeros(d, i + 1, 0);
      WeightedIsSuffix(d, i + 1, i);
      SuffixSumNonNegative(d, i);
    }
    forall i | 0 <= i < |d| - k
      ensures SuffixPhase(d[k..])[i] == Fft(d)[k + i]
    {
      SuffixSumOfSuffix(d, k, i);
    }
  }

  /** A suffix phase of digits leaves the last one as it was. */
  lemma PhaseKeepsLast(s: seq<int>)
    requires |s| >= 1 && IsDigits(s)
    ensures SuffixPhase(s)[|s| - 1] == s[|s| - 1]
  {
    assert SuffixSum(s, |s| - 1) == s[|s| - 1];
  }

  /** Adding a value to the last digit of a sum keeps the last digit of the total. */
  lemma LastDigitOfSum(a: int, b: int)
    ensures (a + b % 10) % 10 == (a + b) % 10
  {
    var q := b / 10;
    assert a + b == (a + b % 10) + 10 * q;
  }

  /** One backward pass of `part2`, in place: each entry becomes the last digit of the sum from it to the end. */
  method Phase(digits: array<int>)
    requires digits.Length >= 1 && IsDigits(digits[..])
    modifies digits
    ensures digits[..] == SuffixPhase(old(digits[..]))
  {
    ghost var s := digits[..];
    var i := digits.Length - 1;
    assert SuffixSum(s, i) == s[i];
    while i > 0
      invariant 0 <= i < digits.Length
      invariant forall k :: 0 <= k < i ==> digits[k] == s[k]
      invariant forall k :: i <= k < digits.Length ==> digits[k] == SuffixSum(s, k) % 10
    {
      PhaseEntry(s, i - 1);
      digits[i - 1] := (digits[i - 1] + digits[i]) % 10;
      i := i - 1;
    }
    assert forall k :: 0 <= k < digits.Length ==> digits[k] == SuffixPhase(s)[k];
  }

  /** The in-place update at `i` yields the suffix digit at `i` from the one at `i + 1`. */
  lemma PhaseEntry(s: seq<int>, i: nat)
    requires i + 1 < |s|
    ensures (s[i] + SuffixSum(s, i + 1) % 10) % 10 == SuffixSum(s, i) % 10
  {
    LastDigitOfSum(s[i], SuffixSum(s, i + 1));
  }

  /** `s` after `k` suffix-sum phases. */
  function SuffixRounds(s: seq<int>, k: nat): (r: seq<int>)
    requires IsDigits(s)
    ensures |r| == |s| && IsDigits(r)
  {
    if k == 0 then s else SuffixPhase(SuffixRounds(s, k - 1))
  }

  /** The late window of the input repeated ten thousand times, from `offset` to the end. */
  function Window(input: seq<int>, offset: nat): (w: seq<int>)
    requires |input| > 0
    ensures |w| == if offset < 10000 * |input| then 10000 * |input| - offset else 0
  {
    var len := if offset < 10000 * |input| then 10000 * |input| - offset else 0;
    seq(len, k requires 0 <= k < len => input[(offset + k) % |input|])
  }

  /** The message offset: the first seven values printed as digits and read as a `usize`. */
  function Offset(input: seq<int>): (r: Option<nat>)
    ensures r.Some? ==> |input| > 0
  {
    var head := Take8(input)[..if |input| < 7 then |input| else 7];
    if IsDigits(head) then
      match ParseUsize(DigitText(head))
      case None => None
      case Some(v) => Some(v)
    else None
  }

  /**
   * What `part2` yields: `None` where the source panics (no offset, or an
   * empty window) and where a value outside 0..9 reaches the window.
   */
  function Part2Spec(input: seq<int>): Option<string>
  {
    match Offset(input)
    case None => None
    case Some(offset) =>
      var w := Window(input, offset);
      if |w| == 0 || !IsDigits(w) then None
      else Some(DigitText(Take8(SuffixRounds(w, 100))))
  }

  /** The loop of `part2` that pushes the repeated input from `offset` on. */
  method BuildWindow(input: seq<int>, offset: nat) returns (w: seq<int>)
    requires |input| > 0
    ensures w == Window(input, offset)
  {
    w := [];
    var i := offset;
    while i < 10000 * |input|
      invariant offset <= i
      invariant i <= 10000 * |input| || w == []
      invariant |w| == i - offset
      invariant forall k :: 0 <= k < |w| ==> w[k] == input[(offset + k) % |input|]
    {
      w := w + [input[i % |input|]];
      i := i + 1;
    }
  }

  /** `part2`: a hundred in-place suffix phases on the late window, then its first eight digits. */
  method Part2(input: seq<int>) returns (r: Option<string>)
    ensures r == Part2Spec(input)
  {
    var offset := Offset(input);
    if offset.None? {
      return None;
    }
    var w := BuildWindow(input, offset.value);
    if |w| == 0 || !IsDigits(w) {
      return None;
    }
    var digits := new int[|w|](i requires 0 <= i < |w| => w[i]);
    for round := 0 to 100
      invariant digits[..] == SuffixRounds(w, round)
    {
      Phase(digits);
    }
    r := Some(DigitText(Take8(digits[..])));
  }

  /** The real signal of part 2: the input repeated `times` times. */
  function Repeated(input: seq<int>, times: nat): (r: seq<int>)
    requires |input| > 0
    ensures |r| == times * |input|
  {
    seq(times * |input|, k requires 0 <= k < times * |input| => input[k % |input|])
  }

  /** The window is the repeated signal from the offset on. */
  lemma WindowIsSuffix(input: seq<int>, offset: nat)
    requires |input| > 0 && offset <= 10000 * |input|
    ensures Window(input, offset) == Repeated(input, 10000)[offset..]
  {
  }

  /** A hundred phases, or any number, on a late window are as many suffix-sum phases. */
  lemma {:induction false} FftRoundsLateWindow(d: seq<int>, k: nat, n: nat)
    requires k <= |d| && 2 * k + 1 >= |d| && IsDigits(d)
    ensures IsDigits(d[k..]) && FftRounds(d, n)[k..] == SuffixRounds(d[k..], n)
  {
    if n > 0 {
      FftRoundsLateWindow(d, k, n - 1);
      FftLateWindow(FftRounds(d, n - 1), k);
    }
  }

  /**
   * Why part 2 is right: when the offset lies in the second half of the
   * repeated signal, its answer is the eight digits at the offset after a
   * hundred full FFT phases of that signal.
   */
  lemma Part2Meaning(input: seq<int>)
    requires Offset(input).Some? && Part2Spec(input).Some? && IsDigits(input)
    requires 2 * Offset(input).value + 1 >= 10000 * |input|
    ensures Part2Spec(input).value == DigitText(Take8(FftRounds(Repeated(input, 10000), 100)[Offset(input).value..]))
  {
    var offset := Offset(input).value;
    var full := Repeated(input, 10000);
    WindowIsSuffix(input, offset);
    FftRoundsLateWindow(full, offset, 100);
  }
}
