/** Decimal text: String(number) and Number(text) on non-negative integers written in ASCII digits. */
module Decimal {
  predicate IsDigit(c: char)
  {
    '0' <= c <= '9'
  }

  /** /^\d*$/ */
  predicate AllDigits(s: string)
  {
    forall i | 0 <= i < |s| :: IsDigit(s[i])
  }

  /** The texts `Print` can produce: no leading zero except in "0" itself. */
  predicate Canonical(s: string)
  {
    |s| > 0 && AllDigits(s) && (|s| > 1 ==> s[0] != '0')
  }

  function Print(n: nat): string
  {
    if n < 10 then ['0' + n as char] else Print(n / 10) + ['0' + (n % 10) as char]
  }

  function Value(s: string): nat
    requires AllDigits(s)
  {
    if s == "" then 0 else 10 * Value(s[..|s| - 1]) + (s[|s| - 1] - '0') as nat
  }

  lemma {:induction false} PrintedValue(n: nat)
    ensures Canonical(Print(n)) && Value(Print(n)) == n
    ensures n > 0 ==> Print(n)[0] != '0'
  {
    if n >= 10 {
      PrintedValue(n / 10);
      assert Print(n)[..|Print(n)| - 1] == Print(n / 10);
    } else {
      assert Print(n)[..0] == "";
    }
  }

  lemma {:induction false} PositiveValue(s: string)
    requires AllDigits(s) && |s| > 0 && s[0] != '0'
    ensures Value(s) > 0
  {
    if |s| > 1 {
      PositiveValue(s[..|s| - 1]);
    }
  }

  lemma {:induction false} CanonicalReprints(s: string)
    requires Canonical(s)
    ensures Print(Value(s)) == s
  {
    var init := s[..|s| - 1];
    if |s| == 1 {
      assert Value(init) == 0;
    } else {
      CanonicalReprints(init);
      PositiveValue(init);
      assert s == init + [s[|s| - 1]];
      assert Value(s) / 10 == Value(init);
    }
  }

  /** Two texts of one number print alike only when both are canonical. */
  lemma CanonicalExactly(s: string)
    requires AllDigits(s)
    ensures Canonical(s) <==> Print(Value(s)) == s
  {
    if Canonical(s) {
      CanonicalReprints(s);
    } else {
      PrintedValue(Value(s));
    }
  }

  lemma {:induction false} PrintedLength(n: nat, digits: nat, bound: nat)
    requires digits > 0 && bound == Power10(digits) && n < bound
    ensures |Print(n)| <= digits
  {
    if n >= 10 {
      PrintedLength(n / 10, digits - 1, bound / 10);
    }
  }

  function Power10(k: nat): (p: nat)
    ensures p > 0
  {
    if k == 0 then 1 else 10 * Power10(k - 1)
  }
}
