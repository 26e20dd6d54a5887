/** Decimal rendering of numbers, and the task IDs built from it. */
module Decimals {
  import opened Prelude

  function Digit(d: nat): (c: char)
    requires d < 10
    ensures DigitValue(c) == d && IsDigit(c)
  {
    ['0', '1', '2', '3', '4', '5', '6', '7', '8', '9'][d]
  }

  predicate IsDigit(c: char)
  {
    '0' <= c <= '9'
  }

  function DigitValue(c: char): int
  {
    c as int - '0' as int
  }

  /** The number in decimal, without leading zeros. */
  function Decimal(n: nat): (s: string)
    ensures s != [] && forall i :: 0 <= i < |s| ==> IsDigit(s[i])
  {
    if n < 10 then [Digit(n)] else Decimal(n / 10) + [Digit(n % 10)]
  }

  function Value(s: string): int
  {
    if s == [] then 0 else 10 * Value(s[..|s| - 1]) + DigitValue(s[|s| - 1])
  }

  lemma {:induction false} ValueOfDecimal(n: nat)
    ensures Value(Decimal(n)) == n
  {
    var s := Decimal(n);
    if n < 10 {
      assert s[..0] == [];
      assert Value(s) == 10 * Value([]) + n;
    } else {
      assert s[..|s| - 1] == Decimal(n / 10);
      ValueOfDecimal(n / 10);
    }
  }

  /** The ID generateTaskID renders from the counter. */
  function GeneratedID(n: nat): Text
  {
    Text("task-" + Decimal(n))
  }

  /** Different counter values give different task IDs. */
  lemma GeneratedIDInjective(m: nat, n: nat)
    requires GeneratedID(m) == GeneratedID(n)
    ensures m == n
  {
    assert GeneratedID(m).chars[5..] == Decimal(m) && GeneratedID(n).chars[5..] == Decimal(n);
    ValueOfDecimal(m);
    ValueOfDecimal(n);
  }

  /** The first generated ID, and one with several digits. */
  lemma GeneratedExamples()
    ensures GeneratedID(1) == Text("task-1") && GeneratedID(120) == Text("task-120")
  {
    assert Decimal(1) == "1" && Decimal(12) == "12" && Decimal(120) == "120";
  }
}
