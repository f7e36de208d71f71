/**
  Sequential identifiers of the form `f"{prefix}{n:03d}"`: a prefix followed by
  the decimal digits of `n`, padded on the left with zeros to at least three
  digits. The task store uses prefix "task_", the user-story store "story_",
  and the gRPC update stream "task_" as well.
 */
module Ids {

  predicate IsDigit(c: char) { '0' <= c <= '9' }

  predicate AllDigits(s: string) { forall i :: 0 <= i < |s| ==> IsDigit(s[i]) }

  function DigitChar(d: nat): char
    requires d < 10
  {
    (('0' as int) + d) as char
  }

  /** The number a string of decimal digits denotes (leading zeros allowed). */
  function ParseDecimal(s: string): nat
    requires AllDigits(s)
  {
    if s == [] then 0
    else ParseDecimal(s[..|s| - 1]) * 10 + ((s[|s| - 1] as int) - ('0' as int))
  }

  /** `str(n)` for a natural number: its shortest decimal representation. */
  function Decimal(n: nat): string {
    if n < 10 then [DigitChar(n)] else Decimal(n / 10) + [DigitChar(n % 10)]
  }

  /** `f"{n:03d}"`: `n` in decimal, zero-padded to at least three digits. */
  function Pad3(n: nat): (s: string)
    ensures |s| >= 3 && |s| >= |Decimal(n)|
    ensures s[|s| - |Decimal(n)|..] == Decimal(n)
    ensures forall i :: 0 <= i < |s| - |Decimal(n)| ==> s[i] == '0'
  {
    var d := Decimal(n);
    if |d| >= 3 then d else if |d| == 2 then "0" + d else "00" + d
  }

  /** `f"{prefix}{n:03d}"`. */
  function FormatId(prefix: string, n: nat): (id: string)
    ensures |id| >= |prefix| + 3 && id[..|prefix|] == prefix && id[|prefix|..] == Pad3(n)
  {
    prefix + Pad3(n)
  }

  function TaskId(n: nat): string { FormatId("task_", n) }

  function StoryId(n: nat): string { FormatId("story_", n) }

  /** `Decimal` writes digits that denote `n` again, without leading zeros. */
  lemma {:induction false} DecimalRoundTrip(n: nat)
    ensures |Decimal(n)| >= 1 && AllDigits(Decimal(n))
    ensures ParseDecimal(Decimal(n)) == n
    ensures |Decimal(n)| > 1 ==> Decimal(n)[0] != '0'
  {
    if n >= 10 {
      DecimalRoundTrip(n / 10);
      var s := Decimal(n);
      assert s[..|s| - 1] == Decimal(n / 10);
    }
  }

  /** A leading zero does not change the number a digit string denotes. */
  lemma {:induction false} LeadingZero(s: string)
    requires AllDigits(s)
    ensures AllDigits("0" + s) && ParseDecimal("0" + s) == ParseDecimal(s)
  {
    var t := "0" + s;
    if s != [] {
      var s' := s[..|s| - 1];
      assert t[..|t| - 1] == "0" + s';
      LeadingZero(s');
    } else {
      assert t[..|t| - 1] == [];
    }
  }

  /** Padding keeps the value and yields at least three digits. */
  lemma Pad3RoundTrip(n: nat)
    ensures AllDigits(Pad3(n)) && ParseDecimal(Pad3(n)) == n
    ensures |Pad3(n)| == if |Decimal(n)| < 3 then 3 else |Decimal(n)|
  {
    var d := Decimal(n);
    DecimalRoundTrip(n);
    if |d| < 3 {
      LeadingZero(d);
      if |d| == 1 {
        LeadingZero("0" + d);
        assert "0" + ("0" + d) == "00" + d;
      }
    }
  }

  /** An identifier is its prefix followed by at least three digits that denote `n`. */
  lemma FormatIdRoundTrip(prefix: string, n: nat)
    ensures var id := FormatId(prefix, n);
            && |id| >= |prefix| + 3 && id[..|prefix|] == prefix
            && AllDigits(id[|prefix|..]) && ParseDecimal(id[|prefix|..]) == n
  {
    Pad3RoundTrip(n);
    assert FormatId(prefix, n)[|prefix|..] == Pad3(n);
  }

  /** Different numbers never give the same identifier. */
  lemma FormatIdInjective(prefix: string, n: nat, m: nat)
    requires FormatId(prefix, n) == FormatId(prefix, m)
    ensures n == m
  {
    FormatIdRoundTrip(prefix, n);
    FormatIdRoundTrip(prefix, m);
  }

  /** Below ten, the identifier is the prefix, two zeros and the digit. */
  lemma SingleDigitId(prefix: string, n: nat)
    requires n < 10
    ensures FormatId(prefix, n) == prefix + "00" + [DigitChar(n)]
  {
  }

  /** The first task identifiers, as the seed data and the update stream spell them. */
  lemma FirstTaskIds()
    ensures TaskId(1) == "task_001" && TaskId(2) == "task_002" && TaskId(3) == "task_003"
    ensures TaskId(4) == "task_004" && TaskId(5) == "task_005"
  {
    SingleDigitId("task_", 1);
    SingleDigitId("task_", 2);
    SingleDigitId("task_", 3);
    SingleDigitId("task_", 4);
    SingleDigitId("task_", 5);
  }

  /** Padding stops at three digits; wider numbers are written in full. */
  lemma WideIdExamples()
    ensures TaskId(42) == "task_042" && StoryId(3) == "story_003" && TaskId(1234) == "task_1234"
  {
  }
}
