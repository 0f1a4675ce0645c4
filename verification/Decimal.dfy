/** Decimal text of natural numbers, as `String(n)` and `BigInt(text)` write and read it. */
module Decimal {

  predicate IsDigit(c: char) {
    '0' <= c <= '9'
  }

  function DigitValue(c: char): nat {
    if IsDigit(c) then c as int - '0' as int else 0
  }

  function Digit(d: nat): (c: char)
    requires d < 10
    ensures IsDigit(c) && DigitValue(c) == d
  {
    ('0' as int + d) as char
  }

  /** One digit or more, and nothing else. */
  predicate IsDecimal(s: string) {
    s != "" && forall c | c in s :: IsDigit(c)
  }

  function Print(n: nat): (s: string)
    ensures s != ""
  {
    if n < 10 then [Digit(n)] else Print(n / 10) + [Digit(n % 10)]
  }

  function Value(s: string): nat {
    if s == "" then 0 else 10 * Value(s[..|s| - 1]) + DigitValue(s[|s| - 1])
  }

  /** Reading back what was printed gives the number; only zero is printed with a leading zero. */
  lemma {:induction false} ValueOfPrint(n: nat)
    ensures IsDecimal(Print(n)) && Value(Print(n)) == n
    ensures Print(n)[0] == '0' ==> n == 0
  {
    if n < 10 {
      assert Print(n)[..0] == "";
    } else {
      ValueOfPrint(n / 10);
      assert Print(n)[..|Print(n)| - 1] == Print(n / 10);
    }
  }

  /** Every decimal text without a leading zero is what its value prints as. */
  lemma {:induction false} PrintOfValue(s: string)
    requires IsDecimal(s) && (s[0] == '0' ==> |s| == 1)
    ensures Print(Value(s)) == s
    ensures s[0] != '0' ==> Value(s) > 0
  {
    if |s| == 1 {
      assert s[..0] == "";
      assert Value(s) == DigitValue(s[0]);
    } else {
      var init := s[..|s| - 1];
      assert forall c | c in init :: c in s;
      PrintOfValue(init);
      assert s[|s| - 1] in s;
      assert Value(s) / 10 == Value(init) && Value(s) % 10 == DigitValue(s[|s| - 1]);
      assert s == init + [s[|s| - 1]];
    }
  }
}
