/**
 * Day 4: password rules over the six-digit, zero-padded decimal form of a
 * number.  Digits never decrease from left to right, and some two adjacent
 * digits are equal (part 1) or some maximal run of equal digits has length
 * exactly two (part 2).
 */
module Day04 {
  import opened Text

  /** `n` copies of `c`. */
  function Repeat(c: char, n: nat): (s: string)
    ensures |s| == n && forall i :: 0 <= i < n ==> s[i] == c
  {
    if n == 0 then [] else [c] + Repeat(c, n - 1)
  }

  /** `format!("{pw:06}")`: the decimal digits, padded on the left with zeros to six. */
  function Padded(pw: nat): (s: string)
    ensures |s| >= 6 && AllDigits(s)
  {
    var d := NatToDecimal(pw);
    if |d| < 6 then Repeat('0', 6 - |d|) + d else d
  }

  /**
   * The padded form is the decimal value of `pw`, no longer than six
   * characters unless the digits of `pw` need more, and then without a
   * leading zero.
   */
  lemma PaddedMeaning(pw: nat)
    ensures DigitsValue(Padded(pw)) == pw
    ensures |Padded(pw)| == if pw < 1000000 then 6 else |NatToDecimal(pw)|
    ensures |Padded(pw)| > 6 ==> Padded(pw)[0] != '0'
  {
    var d := NatToDecimal(pw);
    DigitsValueOfDecimal(pw);
    DecimalLeadingZero(pw);
    DecimalLength(pw, 6);
    assert Pow10(6) == 1000000;
    if |d| < 6 {
      DigitsValueLeadingZeros(Repeat('0', 6 - |d|), d);
    }
  }

  /** Every adjacent pair is in order. */
  predicate NonDecreasing(s: string)
  {
    forall i :: 0 <= i < |s| - 1 ==> s[i] <= s[i + 1]
  }

  /** Some adjacent pair is equal. */
  predicate HasDouble(s: string)
  {
    exists i :: 0 <= i < |s| - 1 && s[i] == s[i + 1]
  }

  /** `dedup_with_count`: the maximal runs of equal characters, each with its length. */
  function Runs(s: string): seq<(char, nat)>
  {
    if |s| == 0 then []
    else
      var rest := Runs(s[1..]);
      if |rest| > 0 && rest[0].0 == s[0] then [(s[0], rest[0].1 + 1)] + rest[1..]
      else [(s[0], 1)] + rest
  }

  /** The runs start with the first character, are never empty, and neighbouring runs differ. */
  lemma {:induction false} RunsShape(s: string)
    ensures |s| > 0 ==> |Runs(s)| > 0 && Runs(s)[0].0 == s[0]
    ensures forall k :: 0 <= k < |Runs(s)| ==> Runs(s)[k].1 >= 1
    ensures forall k :: 0 <= k < |Runs(s)| - 1 ==> Runs(s)[k].0 != Runs(s)[k + 1].0
  {
    if |s| > 0 {
      RunsShape(s[1..]);
    }
  }

  /** Writing each run out again. */
  function Expand(runs: seq<(char, nat)>): string
  {
    if |runs| == 0 then [] else Repeat(runs[0].0, runs[0].1) + Expand(runs[1..])
  }

  /** The runs are a decomposition of the text: expanding them gives it back. */
  lemma {:induction false} ExpandRuns(s: string)
    ensures Expand(Runs(s)) == s
  {
    if |s| > 0 {
      ExpandRuns(s[1..]);
      var rest := Runs(s[1..]);
      if |rest| > 0 && rest[0].0 == s[0] {
        assert Repeat(s[0], rest[0].1 + 1) == [s[0]] + Repeat(s[0], rest[0].1);
        assert Expand(rest) == Repeat(rest[0].0, rest[0].1) + Expand(rest[1..]);
      }
    }
  }

  /** A run of two or more characters is an equal adjacent pair. */
  lemma {:induction false} LongRunIsDouble(s: string, k: nat)
    requires k < |Runs(s)| && Runs(s)[k].1 >= 2
    ensures HasDouble(s)
  {
    var rest := Runs(s[1..]);
    if |rest| > 0 && rest[0].0 == s[0] {
      if k == 0 {
        assert s[0] == s[1];
      } else {
        assert Runs(s)[k] == rest[k];
        LongRunIsDouble(s[1..], k);
        var i :| 0 <= i < |s[1..]| - 1 && s[1..][i] == s[1..][i + 1];
        assert s[i + 1] == s[i + 2];
      }
    } else {
      assert k > 0 && Runs(s)[k] == rest[k - 1];
      LongRunIsDouble(s[1..], k - 1);
      var i :| 0 <= i < |s[1..]| - 1 && s[1..][i] == s[1..][i + 1];
      assert s[i + 1] == s[i + 2];
    }
  }

  /** `valid_password`. */
  predicate ValidPassword(pw: nat)
  {
    NonDecreasing(Padded(pw)) && HasDouble(Padded(pw))
  }

  /** `valid_password_p2`: some run has length exactly two. */
  predicate ValidPasswordP2(pw: nat)
  {
    NonDecreasing(Padded(pw)) && exists k :: 0 <= k < |Runs(Padded(pw))| && Runs(Padded(pw))[k].1 == 2
  }

  /** The second rule is the stricter one. */
  lemma P2ImpliesP1(pw: nat)
    requires ValidPasswordP2(pw)
    ensures ValidPassword(pw)
  {
    var k :| 0 <= k < |Runs(Padded(pw))| && Runs(Padded(pw))[k].1 == 2;
    LongRunIsDouble(Padded(pw), k);
  }

  /** `part1`: how many values in `lo..=hi` pass the first rule. */
  function Part1(lo: nat, hi: nat): (n: nat)
    ensures n <= if hi >= lo then hi - lo + 1 else 0
    decreases hi
  {
    if hi < lo then 0 else (if ValidPassword(hi) then 1 else 0) + (if hi == 0 then 0 else Part1(lo, hi - 1))
  }

  /** `part2`: how many values in `lo..=hi` pass the second rule. */
  function Part2(lo: nat, hi: nat): (n: nat)
    ensures n <= if hi >= lo then hi - lo + 1 else 0
    decreases hi
  {
    if hi < lo then 0 else (if ValidPasswordP2(hi) then 1 else 0) + (if hi == 0 then 0 else Part2(lo, hi - 1))
  }

  /** Every value counted in part 2 is counted in part 1. */
  lemma {:induction false} Part2AtMostPart1(lo: nat, hi: nat)
    ensures Part2(lo, hi) <= Part1(lo, hi)
    decreases hi
  {
    if hi >= lo {
      if ValidPasswordP2(hi) {
        P2ImpliesP1(hi);
      }
      if hi > 0 {
        Part2AtMostPart1(lo, hi - 1);
      }
    }
  }

  /** A password whose runs are all of another length than two fails the second rule. */
  lemma NoRunOfTwo(pw: nat, r: seq<(char, nat)>)
    requires Runs(Padded(pw)) == r
    requires forall k :: 0 <= k < |r| ==> r[k].1 != 2
    ensures !ValidPasswordP2(pw)
  {
  }

  /** `111111`: one run of six, so only the first rule holds. */
  lemma Example111111()
    ensures ValidPassword(111111) && !ValidPasswordP2(111111)
  {
    PaddedOf111111();
    RunsOf111111();
    assert Padded(111111)[0] == Padded(111111)[1];
  }

  /** One step of `Runs`: a character in front either lengthens the first run or starts a new one. */
  lemma RunsCons(c: char, t: string)
    ensures Runs([c] + t) ==
      (var rest := Runs(t);
       if |rest| > 0 && rest[0].0 == c then [(c, rest[0].1 + 1)] + rest[1..] else [(c, 1)] + rest)
  {
    assert ([c] + t)[1..] == t;
  }

  lemma PaddedOf111111()
    ensures Padded(111111) == "111111"
  {
    assert NatToDecimal(1) == "1";
    assert NatToDecimal(11) == "11";
    assert NatToDecimal(111) == "111";
    assert NatToDecimal(1111) == "1111";
    assert NatToDecimal(11111) == "11111";
  }

  lemma RunsOf111111()
    ensures Runs("111111") == [('1', 6)]
  {
    RunsCons('1', "");
    RunsCons('1', "1");
    RunsCons('1', "11");
    RunsCons('1', "111");
    RunsCons('1', "1111");
    RunsCons('1', "11111");
  }

  /** `223450`: a decreasing pair fails both rules. */
  lemma Example223450()
    ensures !ValidPassword(223450) && !ValidPasswordP2(223450)
  {
    PaddedOf223450();
    RunsOf223450();
    assert Padded(223450)[4] > Padded(223450)[5];
  }

  lemma PaddedOf223450()
    ensures Padded(223450) == "223450"
  {
    assert NatToDecimal(2) == "2";
    assert NatToDecimal(22) == "22";
    assert NatToDecimal(223) == "223";
    assert NatToDecimal(2234) == "2234";
    assert NatToDecimal(22345) == "22345";
  }

  lemma RunsOf223450()
    ensures Runs("223450") == [('2', 2), ('3', 1), ('4', 1), ('5', 1), ('0', 1)]
  {
    RunsCons('0', "");
    RunsCons('5', "0");
    RunsCons('4', "50");
    RunsCons('3', "450");
    RunsCons('2', "3450");
    RunsCons('2', "23450");
  }

  /** `123789`: no equal pair fails both rules. */
  lemma Example123789()
    ensures !ValidPassword(123789) && !ValidPasswordP2(123789)
  {
    PaddedOf123789();
    RunsOf123789();
    NoRunOfTwo(123789, [('1', 1), ('2', 1), ('3', 1), ('7', 1), ('8', 1), ('9', 1)]);
    var s := Padded(123789);
    assert forall i :: 0 <= i < |s| - 1 ==> s[i] != s[i + 1];
  }

  lemma PaddedOf123789()
    ensures Padded(123789) == "123789"
  {
    assert NatToDecimal(1) == "1";
    assert NatToDecimal(12) == "12";
    assert NatToDecimal(123) == "123";
    assert NatToDecimal(1237) == "1237";
    assert NatToDecimal(12378) == "12378";
  }

  lemma RunsOf123789()
    ensures Runs("123789") == [('1', 1), ('2', 1), ('3', 1), ('7', 1), ('8', 1), ('9', 1)]
  {
    RunsCons('9', "");
    RunsCons('8', "9");
    RunsCons('7', "89");
    RunsCons('3', "789");
    RunsCons('2', "3789");
    RunsCons('1', "23789");
  }

  /** `112233`: three runs of two pass both rules. */
  lemma Example112233()
    ensures ValidPassword(112233) && ValidPasswordP2(112233)
  {
    PaddedOf112233();
    RunsOf112233();
    assert Runs(Padded(112233))[0].1 == 2;
    assert Padded(112233)[0] == Padded(112233)[1];
  }

  lemma PaddedOf112233()
    ensures Padded(112233) == "112233"
  {
    assert NatToDecimal(1) == "1";
    assert NatToDecimal(11) == "11";
    assert NatToDecimal(112) == "112";
    assert NatToDecimal(1122) == "1122";
    assert NatToDecimal(11223) == "11223";
  }

  lemma RunsOf112233()
    ensures Runs("112233") == [('1', 2), ('2', 2), ('3', 2)]
  {
    RunsCons('3', "");
    RunsCons('3', "3");
    RunsCons('2', "33");
    RunsCons('2', "233");
    RunsCons('1', "2233");
    RunsCons('1', "12233");
  }

  /** `123444`: a run of three is no pair. */
  lemma Example123444()
    ensures ValidPassword(123444) && !ValidPasswordP2(123444)
  {
    PaddedOf123444();
    RunsOf123444();
    assert Padded(123444)[3] == Padded(123444)[4];
    NoRunOfTwo(123444, [('1', 1), ('2', 1), ('3', 1), ('4', 3)]);
  }

  lemma PaddedOf123444()
    ensures Padded(123444) == "123444"
  {
    assert NatToDecimal(1) == "1";
    assert NatToDecimal(12) == "12";
    assert NatToDecimal(123) == "123";
    assert NatToDecimal(1234) == "1234";
    assert NatToDecimal(12344) == "12344";
  }

  lemma RunsOf123444()
    ensures Runs("123444") == [('1', 1), ('2', 1), ('3', 1), ('4', 3)]
  {
    RunsCons('4', "");
    RunsCons('4', "4");
    RunsCons('4', "44");
    RunsCons('3', "444");
    RunsCons('2', "3444");
    RunsCons('1', "23444");
  }

  /** `111122`: the final run of two passes the second rule. */
  lemma Example111122()
    ensures ValidPassword(111122) && ValidPasswordP2(111122)
  {
    PaddedOf111122();
    RunsOf111122();
    assert Runs(Padded(111122))[1].1 == 2;
    assert Padded(111122)[0] == Padded(111122)[1];
  }

  lemma PaddedOf111122()
    ensures Padded(111122) == "111122"
  {
    assert NatToDecimal(1) == "1";
    assert NatToDecimal(11) == "11";
    assert NatToDecimal(111) == "111";
    assert NatToDecimal(1111) == "1111";
    assert NatToDecimal(11112) == "11112";
  }

  lemma RunsOf111122()
    ensures Runs("111122") == [('1', 4), ('2', 2)]
  {
    RunsCons('2', "");
    RunsCons('2', "2");
    RunsCons('1', "22");
    RunsCons('1', "122");
    RunsCons('1', "1122");
    RunsCons('1', "11122");
  }
}
