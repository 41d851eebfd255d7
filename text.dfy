/**
 * The pieces of Rust's `str` API the puzzle parsers use: `split`,
 * `split_once` and `parse` for `i64` and `usize`.  Strings are sequences of
 * characters; all patterns used by the source are ASCII.
 */
module Text {

  datatype Option<+T> = None | Some(value: T)

  const I64Min: int := -0x8000_0000_0000_0000
  const I64Max: int := 0x7FFF_FFFF_FFFF_FFFF
  const UsizeMax: int := 0xFFFF_FFFF_FFFF_FFFF

  /** `pat` occurs in `s` at index `i`. */
  predicate OccursAt(s: string, pat: string, i: nat)
  {
    i + |pat| <= |s| && s[i..i + |pat|] == pat
  }

  /** Index of the first occurrence of `pat` in `s` at or after `from`. */
  function FindFrom(s: string, pat: string, from: nat): (r: Option<nat>)
    ensures r.Some? ==> from <= r.value && OccursAt(s, pat, r.value)
    ensures r.Some? ==> forall j :: from <= j < r.value ==> !OccursAt(s, pat, j)
    ensures r.None? ==> forall j :: from <= j ==> !OccursAt(s, pat, j)
    decreases |s| - from
  {
    if from + |pat| > |s| then None
    else if s[from..from + |pat|] == pat then Some(from)
    else FindFrom(s, pat, from + 1)
  }

  /** `str::split_once`: the text before and after the first occurrence of `pat`. */
  function SplitOnce(s: string, pat: string): (r: Option<(string, string)>)
    ensures r.Some? <==> exists i :: OccursAt(s, pat, i)
    ensures r.Some? ==> s == r.value.0 + pat + r.value.1
    ensures r.Some? ==> forall j: nat :: j < |r.value.0| ==> !OccursAt(s, pat, j)
  {
    match FindFrom(s, pat, 0)
    case None => None
    case Some(i) =>
      assert s == s[..i] + pat + s[i + |pat|..];
      Some((s[..i], s[i + |pat|..]))
  }

  /** `str::split` with a non-empty pattern: the pieces between successive occurrences. */
  function Split(s: string, pat: string): (parts: seq<string>)
    requires |pat| > 0
    ensures |parts| >= 1
    decreases |s|
  {
    match SplitOnce(s, pat)
    case None => [s]
    case Some((a, b)) => [a] + Split(b, pat)
  }

  /** The inverse of `Split`: the pieces glued back with the pattern in between. */
  function Join(parts: seq<string>, pat: string): string
    requires |parts| >= 1
  {
    if |parts| == 1 then parts[0] else parts[0] + pat + Join(parts[1..], pat)
  }

  /** Splitting loses nothing: joining the pieces restores the text. */
  lemma {:induction false} JoinSplit(s: string, pat: string)
    requires |pat| > 0
    ensures Join(Split(s, pat), pat) == s
    decreases |s|
  {
    match SplitOnce(s, pat)
    case None =>
    case Some((a, b)) =>
      JoinSplit(b, pat);
      assert Split(s, pat) == [a] + Split(b, pat);
      assert Split(s, pat)[1..] == Split(b, pat);
  }

  /** No piece of a split contains the pattern. */
  lemma {:induction false} SplitPiecesAvoidPattern(s: string, pat: string)
    requires |pat| > 0
    ensures forall k, j: nat :: 0 <= k < |Split(s, pat)| ==> !OccursAt(Split(s, pat)[k], pat, j)
    decreases |s|
  {
    match SplitOnce(s, pat)
    case None =>
    case Some((a, b)) =>
      SplitPiecesAvoidPattern(b, pat);
      forall j: nat
        ensures !OccursAt(a, pat, j)
      {
        if OccursAt(a, pat, j) {
          assert s[j..j + |pat|] == a[j..j + |pat|];
          assert OccursAt(s, pat, j);
        }
      }
      assert Split(s, pat) == [a] + Split(b, pat);
  }

  /** A one-character pattern occurs exactly where that character stands. */
  lemma OccursAtChar(s: string, sep: char, j: nat)
    ensures OccursAt(s, [sep], j) <==> j < |s| && s[j] == sep
  {
    if j < |s| {
      assert s[j..j + 1] == [s[j]];
    }
  }

  /** Splitting once at a character that the prefix lacks cuts right after the prefix. */
  lemma SplitOnceAtChar(a: string, sep: char, b: string)
    requires sep !in a
    ensures SplitOnce(a + [sep] + b, [sep]) == Some((a, b))
  {
    var s := a + [sep] + b;
    OccursAtChar(s, sep, |a|);
    var r := SplitOnce(s, [sep]);
    OccursAtChar(s, sep, |r.value.0|);
    assert |r.value.0| <= |a|;
    assert s[|r.value.0|] == sep;
    assert |r.value.0| == |a|;
    assert r.value.0 == s[..|a|] == a;
  }

  /** Text without the character is a single piece. */
  lemma SplitWithoutChar(s: string, sep: char)
    requires sep !in s
    ensures Split(s, [sep]) == [s]
  {
    forall j: nat ensures !OccursAt(s, [sep], j) {
      OccursAtChar(s, sep, j);
    }
  }

  /** Joining pieces that avoid a one-character pattern and splitting again gives the pieces back. */
  lemma {:induction false} SplitJoin(parts: seq<string>, sep: char)
    requires |parts| >= 1
    requires forall k :: 0 <= k < |parts| ==> sep !in parts[k]
    ensures Split(Join(parts, [sep]), [sep]) == parts
  {
    if |parts| == 1 {
      SplitWithoutChar(parts[0], sep);
    } else {
      var rest := Join(parts[1..], [sep]);
      SplitOnceAtChar(parts[0], sep, rest);
      SplitJoin(parts[1..], sep);
    }
  }

  /** Splitting once at a pattern that does not occur earlier cuts right after the prefix. */
  lemma SplitOnceBefore(a: string, pat: string, b: string)
    requires |pat| > 0
    requires forall j :: 0 <= j < |a| ==> !OccursAt(a + pat + b, pat, j)
    ensures SplitOnce(a + pat + b, pat) == Some((a, b))
  {
    var s := a + pat + b;
    assert s[|a|..|a| + |pat|] == pat;
    assert OccursAt(s, pat, |a|);
    var r := SplitOnce(s, pat);
    assert s[|r.value.0|..|r.value.0| + |pat|] == pat;
    assert |r.value.0| == |a|;
    assert r.value.0 == s[..|a|] == a;
    assert r.value.1 == s[|a| + |pat|..] == b;
  }

  /** A pattern whose first character is in no piece splits the joined pieces back apart. */
  lemma {:induction false} SplitJoinFirst(parts: seq<string>, pat: string)
    requires |parts| >= 1 && |pat| > 0
    requires forall k :: 0 <= k < |parts| ==> pat[0] !in parts[k]
    ensures Split(Join(parts, pat), pat) == parts
  {
    if |parts| == 1 {
      forall j: nat ensures !OccursAt(parts[0], pat, j) {
        if j < |parts[0]| {
          assert parts[0][j] != pat[0];
        }
      }
    } else {
      var rest := Join(parts[1..], pat);
      var s := parts[0] + pat + rest;
      forall j | 0 <= j < |parts[0]|
        ensures !OccursAt(s, pat, j)
      {
        assert s[j] == parts[0][j] != pat[0];
      }
      SplitOnceBefore(parts[0], pat, rest);
      SplitJoinFirst(parts[1..], pat);
    }
  }

  /** A character in neither the pieces nor the pattern is not in their join. */
  lemma {:induction false} NotInJoin(parts: seq<string>, pat: string, c: char)
    requires |parts| >= 1 && c !in pat
    requires forall k :: 0 <= k < |parts| ==> c !in parts[k]
    ensures c !in Join(parts, pat)
  {
    if |parts| > 1 {
      NotInJoin(parts[1..], pat, c);
    }
  }

  predicate IsDigit(c: char)
  {
    '0' <= c <= '9'
  }

  predicate AllDigits(s: string)
  {
    forall i :: 0 <= i < |s| ==> IsDigit(s[i])
  }

  /** Decimal value of a string of ASCII digits, most significant first. */
  function DigitsValue(s: string): (v: nat)
    requires AllDigits(s)
  {
    if |s| == 0 then 0
    else DigitsValue(s[..|s| - 1]) * 10 + (s[|s| - 1] as int - '0' as int)
  }

  /**
   * Rust's `from_str` for integers: an optional sign (`-` only for signed
   * types) and at least one ASCII digit, with the value inside `[lo, hi]`.
   */
  function ParseBounded(s: string, signed: bool, lo: int, hi: int): (r: Option<int>)
    ensures r.Some? ==> lo <= r.value <= hi
  {
    if |s| == 0 then None
    else if s[0] == '+' || (signed && s[0] == '-') then
      var digits := s[1..];
      if |digits| == 0 || !AllDigits(digits) then None
      else
        var n: int := DigitsValue(digits);
        var v := if s[0] == '-' then -n else n;
        if lo <= v <= hi then Some(v) else None
    else if !AllDigits(s) then None
    else if lo <= DigitsValue(s) <= hi then Some(DigitsValue(s)) else None
  }

  /** `str::parse::<i64>`. */
  function ParseI64(s: string): (r: Option<int>)
    ensures r.Some? ==> I64Min <= r.value <= I64Max
  {
    ParseBounded(s, true, I64Min, I64Max)
  }

  /** `str::parse::<usize>` on a 64-bit target. */
  function ParseUsize(s: string): (r: Option<nat>)
    ensures r.Some? ==> r.value <= UsizeMax
  {
    match ParseBounded(s, false, 0, UsizeMax)
    case None => None
    case Some(v) => Some(v)
  }

  /**
   * A character's low byte minus `'0'`: what `(c as u8) - b'0'` gives, or
   * `None` where the `u8` subtraction underflows (a panic).
   */
  function DigitOf(c: char): (r: Option<int>)
    ensures IsDigit(c) ==> r == Some(c as int - '0' as int)
    ensures r.Some? ==> 0 <= r.value < 256 - '0' as int
  {
    var byte := c as int % 256;
    if byte < '0' as int then None else Some(byte - '0' as int)
  }

  /** The decimal digits of `n`, without leading zeros. */
  function NatToDecimal(n: nat): (s: string)
    ensures |s| >= 1 && AllDigits(s)
  {
    if n < 10 then [('0' as int + n) as char]
    else NatToDecimal(n / 10) + [('0' as int + n % 10) as char]
  }

  /** `i64`'s `Display`: a minus sign for negative values. */
  function IntToDecimal(n: int): string
  {
    if n < 0 then "-" + NatToDecimal(-n) else NatToDecimal(n)
  }

  lemma {:induction false} DigitsValueOfDecimal(n: nat)
    ensures DigitsValue(NatToDecimal(n)) == n
  {
    if n >= 10 {
      DigitsValueOfDecimal(n / 10);
      var s := NatToDecimal(n);
      assert s[..|s| - 1] == NatToDecimal(n / 10);
    }
  }

  function Pow10(k: nat): (p: nat)
    ensures p >= 1
  {
    if k == 0 then 1 else 10 * Pow10(k - 1)
  }

  /** A natural prints in at most `k` digits exactly when it is below `10^k`. */
  lemma {:induction false} DecimalLength(n: nat, k: nat)
    requires k >= 1
    ensures |NatToDecimal(n)| <= k <==> n < Pow10(k)
    decreases n
  {
    if n < 10 {
      assert Pow10(k) == 10 * Pow10(k - 1);
    } else if k > 1 {
      DecimalLength(n / 10, k - 1);
      assert Pow10(k) == 10 * Pow10(k - 1);
    }
  }

  /** A printed natural starts with a zero only when it is zero itself. */
  lemma {:induction false} DecimalLeadingZero(n: nat)
    ensures NatToDecimal(n)[0] == '0' <==> n == 0
  {
    if n >= 10 {
      DecimalLeadingZero(n / 10);
    }
  }

  /** Leading zeros do not change a decimal value. */
  lemma {:induction false} DigitsValueLeadingZeros(z: string, d: string)
    requires AllDigits(z) && AllDigits(d) && forall i :: 0 <= i < |z| ==> z[i] == '0'
    ensures AllDigits(z + d) && DigitsValue(z + d) == DigitsValue(d)
    decreases |z| + |d|
  {
    if |d| > 0 {
      var zd := z + d;
      assert zd[..|zd| - 1] == z + d[..|d| - 1];
      DigitsValueLeadingZeros(z, d[..|d| - 1]);
    } else if |z| > 0 {
      assert z + d == z;
      assert z[..|z| - 1] + [] == z[..|z| - 1];
      DigitsValueLeadingZeros(z[..|z| - 1], []);
    }
  }

  /** A printed natural holds only digits. */
  lemma NonDigitNotInDecimal(n: nat, c: char)
    requires !IsDigit(c)
    ensures c !in NatToDecimal(n)
  {
    var d := NatToDecimal(n);
    assert forall i :: 0 <= i < |d| ==> IsDigit(d[i]);
  }

  /** Parsing the printed form of any `usize` gives the value back. */
  lemma ParseUsizeOfDecimal(n: nat)
    requires n <= UsizeMax
    ensures ParseUsize(NatToDecimal(n)) == Some(n)
  {
    var d := NatToDecimal(n);
    DigitsValueOfDecimal(n);
    assert IsDigit(d[0]);
  }

  /** Parsing the printed form of any `i64` gives the value back. */
  lemma ParseI64OfDecimal(n: int)
    requires I64Min <= n <= I64Max
    ensures ParseI64(IntToDecimal(n)) == Some(n)
  {
    if n < 0 {
      var d := NatToDecimal(-n);
      DigitsValueOfDecimal(-n);
      assert ("-" + d)[1..] == d;
    } else {
      var d := NatToDecimal(n);
      DigitsValueOfDecimal(n);
      assert IsDigit(d[0]);
    }
  }
}
