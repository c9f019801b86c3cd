/** The `roman` pipe: an episode number 1..7 shown as its Roman numeral via
    the reverse mapping of the numeric enum `EpisodeEnum { I = 1, II, ..., VII }`,
    any other number shown in decimal. */
module RomanPipe {
  import Decimal

  /** The enum's member names, in value order from 1. */
  const Numerals: seq<string> := ["I", "II", "III", "IV", "V", "VI", "VII"]

  /** `EpisodeEnum[n] ?? String(n)`: an episode number is shown as the
      standard numeral for it, any other number in decimal. */
  function Transform(n: int): (r: string)
    ensures 1 <= n <= 7 ==> CanonicalNumeral(r) && RomanValue(r) == n
  {
    if 1 <= n <= 7 then Numerals[n - 1] else Decimal.IntToString(n)
  }

  /** The value of one Roman symbol (0 for anything else). */
  function SymbolValue(c: char): nat
  {
    if c == 'I' then 1 else if c == 'V' then 5 else if c == 'X' then 10 else 0
  }

  /** The usual reading of a numeral: a symbol followed by a larger one is
      subtracted, every other symbol added. */
  function RomanValue(s: string): int
  {
    if s == [] then 0
    else if |s| >= 2 && SymbolValue(s[0]) < SymbolValue(s[1]) then RomanValue(s[1..]) - SymbolValue(s[0])
    else RomanValue(s[1..]) + SymbolValue(s[0])
  }

  predicate RomanLetters(s: string) {
    forall i :: 0 <= i < |s| ==> s[i] == 'I' || s[i] == 'V'
  }

  /** The standard form of a numeral below 9: "IV", or an optional 'V'
      followed by at most three 'I's. So there is at most one 'V', never more
      than three 'I's in a row, and an 'I' stands before a 'V' only as "IV". */
  predicate CanonicalNumeral(s: string) {
    || s == "IV"
    || (&& s != []
        && (s[0] == 'I' || s[0] == 'V')
        && (forall i :: 1 <= i < |s| ==> s[i] == 'I')
        && |s| - (if s[0] == 'V' then 1 else 0) <= 3)
  }

  /** A run of 'I's is worth its length. */
  lemma {:induction false} OnesValue(s: string)
    requires forall i :: 0 <= i < |s| ==> s[i] == 'I'
    ensures RomanValue(s) == |s|
  {
    if s != [] {
      OnesValue(s[1..]);
    }
  }

  /** A standard numeral other than "IV" is worth its number of 'I's, plus 5
      for a leading 'V'. */
  lemma CanonicalValue(s: string)
    requires CanonicalNumeral(s) && s != "IV"
    ensures RomanValue(s) == |s| + (if s[0] == 'V' then 4 else 0)
  {
    if s[0] == 'V' {
      OnesValue(s[1..]);
    } else {
      OnesValue(s);
    }
  }

  /** The numeral shown for an episode 1..7 is the only standard numeral with
      that value, so the pipe shows exactly "I", "II", ..., "VII", the
      `EpisodeEnum` member names. */
  lemma EpisodeNumeralUnique(n: int, s: string)
    requires 1 <= n <= 7 && CanonicalNumeral(s) && RomanValue(s) == n
    ensures s == Transform(n)
  {
    var t := Transform(n);
    if s != "IV" {
      CanonicalValue(s);
      if s[0] == 'V' {
        assert n >= 5 && |s| == n - 4;
      } else {
        assert n <= 3 && |s| == n;
      }
      assert |s| == |t|;
      assert forall i :: 0 <= i < |s| ==> s[i] == t[i];
    }
  }

  /** Any other number is shown as its decimal string, which reads back as it. */
  lemma TransformOther(n: int)
    requires !(1 <= n <= 7)
    ensures var s := Transform(n);
      (if s[0] == '-' then Decimal.AllDigits(s[1..]) else Decimal.AllDigits(s))
      && Decimal.ParseInt(s) == n
  {
    Decimal.IntRoundTrip(n);
  }

  /** Distinct numbers are shown differently: numerals of distinct values
      differ, numerals have no digit and a decimal string ends in one. */
  lemma TransformInjective(a: int, b: int)
    ensures a != b ==> Transform(a) != Transform(b)
  {
    if a != b {
      if !(1 <= a <= 7) && !(1 <= b <= 7) {
        Decimal.IntToStringInjective(a, b);
      } else if !(1 <= a <= 7 && 1 <= b <= 7) {
        var roman := if 1 <= a <= 7 then a else b;
        var other := if 1 <= a <= 7 then b else a;
        TransformOther(other);
        var r, d := Transform(roman), Transform(other);
        assert !Decimal.IsDigit(r[|r| - 1]);
        assert Decimal.IsDigit(d[|d| - 1]);
      }
    }
  }
}
