/** The text held by the two id fields of the recorder screen, read as a
    number the way Kotlin's `String.toInt()` reads a digit-only string, and
    a number written back the way `Int.toString()` writes a non-negative one. */
module Decimal {

  predicate IsDigit(c: char) {
    '0' <= c <= '9'
  }

  /** What the fields' digit key listener lets through */
  predicate IsDigits(s: string) {
    forall i :: 0 <= i < |s| ==> IsDigit(s[i])
  }

  /** Some digit other than '0' occurs in `s` */
  predicate HasNonZeroDigit(s: string) {
    exists i :: 0 <= i < |s| && s[i] != '0'
  }

  /** Decimal text without leading zeros: what `Int.toString()` produces */
  predicate Canonical(s: string) {
    IsDigits(s) && s != [] && (s[0] == '0' ==> |s| == 1)
  }

  function DigitValue(c: char): (v: nat)
    requires IsDigit(c)
    ensures v < 10
    ensures v == 0 <==> c == '0'
  {
    c as int - '0' as int
  }

  function DigitChar(v: nat): (c: char)
    requires v < 10
    ensures IsDigit(c) && DigitValue(c) == v
  {
    ('0' as int + v) as char
  }

  /** The value of a digit string, most significant digit first; leading
      zeros are allowed. The empty text, which `toInt()` refuses, is read
      as 0 and is kept away by the validator. */
  function Parse(s: string): nat
    requires IsDigits(s)
  {
    if s == [] then 0 else Parse(s[..|s| - 1]) * 10 + DigitValue(s[|s| - 1])
  }

  /** The decimal text of `n` */
  function Show(n: nat): (r: string)
    ensures Canonical(r)
    ensures r == "0" <==> n == 0
  {
    if n < 10 then [DigitChar(n)] else Show(n / 10) + [DigitChar(n % 10)]
  }

  /** Reading back what was written gives the number again */
  lemma {:induction false} ParseShow(n: nat)
    ensures Parse(Show(n)) == n
  {
    var s := Show(n);
    if n >= 10 {
      ParseShow(n / 10);
      assert s[..|s| - 1] == Show(n / 10);
    }
  }

  /** A digit string parses to a positive number exactly when it holds a
      digit other than '0' */
  lemma {:induction false} ParsePositive(s: string)
    requires IsDigits(s)
    ensures Parse(s) > 0 <==> HasNonZeroDigit(s)
  {
    if s != [] {
      var t := s[..|s| - 1];
      ParsePositive(t);
      if HasNonZeroDigit(t) {
        var i :| 0 <= i < |t| && t[i] != '0';
        assert s[i] != '0';
      }
      if HasNonZeroDigit(s) && s[|s| - 1] == '0' {
        var i :| 0 <= i < |s| && s[i] != '0';
        assert t[i] != '0';
      }
    }
  }

  /** A leading zero does not change the value: "007" reads as 7 */
  lemma {:induction false} LeadingZero(s: string)
    requires IsDigits(s)
    ensures Parse("0" + s) == Parse(s)
  {
    if s != [] {
      var t := s[..|s| - 1];
      LeadingZero(t);
      assert ("0" + s)[..|"0" + s| - 1] == "0" + t;
    }
  }

  /** Writing back what was read gives the same text when there were no
      leading zeros: `toInt().toString()` changes only non-canonical text */
  lemma {:induction false} ShowParse(s: string)
    requires Canonical(s)
    ensures Show(Parse(s)) == s
  {
    var t := s[..|s| - 1];
    if t != [] {
      assert Canonical(t);
      assert t[0] != '0' by { assert t[0] == s[0]; }
      assert HasNonZeroDigit(t);
      ParsePositive(t);
      ShowParse(t);
      var n := Parse(s);
      assert n / 10 == Parse(t) && n % 10 == DigitValue(s[|s| - 1]);
      assert Show(n) == Show(Parse(t)) + [DigitChar(n % 10)];
      assert DigitChar(DigitValue(s[|s| - 1])) == s[|s| - 1];
      assert s == t + [s[|s| - 1]];
    } else {
      assert s == [s[0]];
      assert DigitChar(DigitValue(s[0])) == s[0];
    }
  }

  /** Text with leading zeros is normalised when it is written back */
  lemma NormaliseExample()
    ensures Show(Parse("007")) == "7"
  {
    LeadingZero("07");
    LeadingZero("7");
    assert "0" + "07" == "007" && "0" + "7" == "07";
  }
}
