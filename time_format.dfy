/** The "M:SS" clock rendering shared by the assistant, the chat panel and the player. */
module TimeFormat {
  import opened Text

  /** Whole minutes, a colon, and the remaining seconds padded to two digits. */
  function FormatTime(seconds: nat): (r: string)
  {
    NatToString(seconds / 60) + ":" + PadStart2(NatToString(seconds % 60))
  }

  /** Leading zeros do not change the value of a digit string. */
  lemma {:induction false} DigitsValueLeadingZero(s: string)
    requires forall i :: 0 <= i < |s| ==> IsDigit(s[i])
    ensures DigitsValue("0" + s) == DigitsValue(s)
    decreases |s|
  {
    if s != [] {
      var z := "0" + s;
      assert z[..|z| - 1] == "0" + s[..|s| - 1];
      assert z[|z| - 1] == s[|s| - 1];
      DigitsValueLeadingZero(s[..|s| - 1]);
    } else {
      assert ("0" + s)[..0] == [];
    }
  }

  /** The rendering reads back: the text before the colon is the minutes, the two digits after
      it are the seconds within the minute, and nothing else is in it. */
  lemma FormatTimeParts(seconds: nat)
    ensures var parts := SplitBy(FormatTime(seconds), ":");
      |parts| == 2 && |parts[1]| == 2 &&
      (forall i :: 0 <= i < |parts[0]| ==> IsDigit(parts[0][i])) &&
      (forall i :: 0 <= i < 2 ==> IsDigit(parts[1][i])) &&
      DigitsValue(parts[0]) == seconds / 60 && DigitsValue(parts[1]) == seconds % 60
  {
    var m := NatToString(seconds / 60);
    var sec := PadStart2(NatToString(seconds % 60));
    assert ':' !in m;
    SplitAfterPlainPrefix(m, ":", sec);
    assert FormatTime(seconds) == m + ":" + sec;
    assert ':' !in sec;
    ContainsChar(sec, ':');
    SplitWithoutSeparator(sec, ":");
    DigitsOfNat(seconds / 60);
    DigitsOfNat(seconds % 60);
    var d := NatToString(seconds % 60);
    if |d| == 1 {
      DigitsValueLeadingZero(d);
      assert sec == "0" + d;
    }
  }

  /** Different times render differently. */
  lemma FormatTimeInjective(a: nat, b: nat)
    requires FormatTime(a) == FormatTime(b)
    ensures a == b
  {
    FormatTimeParts(a);
    FormatTimeParts(b);
  }

  /** A time under 100 minutes written out digit by digit. */
  function Clock(seconds: nat): string
    requires seconds < 6000
  {
    var m, s := seconds / 60, seconds % 60;
    (if m < 10 then [DigitChar(m)] else [DigitChar(m / 10), DigitChar(m % 10)])
    + [':', DigitChar(s / 10), DigitChar(s % 10)]
  }

  /** A number below 100 prints as one or two digits. */
  lemma NatToStringBelow100(n: nat)
    requires n < 100
    ensures NatToString(n) == if n < 10 then [DigitChar(n)] else [DigitChar(n / 10), DigitChar(n % 10)]
  {
    if n >= 10 {
      assert NatToString(n) == NatToString(n / 10) + [DigitChar(n % 10)];
    }
  }

  /** A number below 100, padded to two places, is its two decimal digits. */
  lemma PaddedBelow100(n: nat)
    requires n < 100
    ensures PadStart2(NatToString(n)) == [DigitChar(n / 10), DigitChar(n % 10)]
  {
    NatToStringBelow100(n);
    if n < 10 {
      assert DigitChar(n / 10) == '0';
      assert n % 10 == n;
    }
  }

  /** The clock of `m` minutes and `s` seconds, printed and padded, is its digits. */
  lemma ClockOfParts(m: nat, s: nat)
    requires m < 100 && s < 60
    ensures NatToString(m) + ":" + PadStart2(NatToString(s)) ==
      (if m < 10 then [DigitChar(m)] else [DigitChar(m / 10), DigitChar(m % 10)])
      + [':', DigitChar(s / 10), DigitChar(s % 10)]
  {
    NatToStringBelow100(m);
    PaddedBelow100(s);
  }

  /** Below 100 minutes the rendering is the digit-by-digit clock. */
  lemma FormatTimeDigits(seconds: nat)
    requires seconds < 6000
    ensures FormatTime(seconds) == Clock(seconds)
  {
    ClockOfParts(seconds / 60, seconds % 60);
  }
}
