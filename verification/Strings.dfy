/** Splitting strings at a separator, and decimal numerals. */
module Strings {

  function Split(s: string, sep: char): (parts: seq<string>)
    ensures |parts| >= 1
  {
    if s == "" then [""]
    else
      var rest := Split(s[1..], sep);
      if s[0] == sep then [""] + rest else [[s[0]] + rest[0]] + rest[1..]
  }

  lemma {:induction false} SplitNone(s: string, sep: char)
    requires sep !in s
    ensures Split(s, sep) == [s]
  {
    if s != "" {
      SplitNone(s[1..], sep);
      assert s == [s[0]] + s[1..];
    }
  }

  lemma {:induction false} SplitFirst(a: string, sep: char, b: string)
    requires sep !in a
    ensures Split(a + [sep] + b, sep) == [a] + Split(b, sep)
  {
    var s := a + [sep] + b;
    if a == "" {
      assert s[1..] == b;
    } else {
      SplitFirst(a[1..], sep, b);
      assert s[1..] == a[1..] + [sep] + b;
      assert a == [a[0]] + a[1..];
    }
  }

  /** Every string is its first part, followed by nothing or by the separator and the rest. */
  lemma {:induction false} SplitInverts(s: string, sep: char) returns (a: string, b: string)
    ensures sep !in a
    ensures (s == a && Split(s, sep) == [a]) || (s == a + [sep] + b && Split(s, sep) == [a] + Split(b, sep))
  {
    if sep in s {
      if s[0] == sep {
        a, b := "", s[1..];
        assert s == a + [sep] + b;
      } else {
        var a', b' := SplitInverts(s[1..], sep);
        a, b := [s[0]] + a', b';
        assert s == [s[0]] + s[1..];
        if s[1..] == a' + [sep] + b' {
          assert s == a + [sep] + b;
        }
      }
    } else {
      a, b := s, "";
      SplitNone(s, sep);
    }
  }

  function Digit(d: nat): char
    requires d < 10
  {
    "0123456789"[d]
  }

  function Decimal(n: nat): (s: string)
    ensures |s| >= 1
    ensures forall i :: 0 <= i < |s| ==> '0' <= s[i] <= '9'
  {
    if n < 10 then [Digit(n)] else Decimal(n / 10) + [Digit(n % 10)]
  }

  function Pow10(k: nat): nat {
    if k == 0 then 1 else 10 * Pow10(k - 1)
  }

  lemma {:induction false} DecimalLength(n: nat, k: nat)
    requires k >= 1
    ensures |Decimal(n)| <= k <==> n < Pow10(k)
  {
    if k == 1 {
      assert Pow10(1) == 10;
    } else {
      if n < 10 {
        Pow10Grows(k);
      } else {
        DecimalLength(n / 10, k - 1);
      }
    }
  }

  lemma {:induction false} Pow10Grows(k: nat)
    requires k >= 1
    ensures Pow10(k) >= 10
  {
    if k > 1 {
      Pow10Grows(k - 1);
    }
  }

  function Value(s: string): int {
    if s == "" then 0 else 10 * Value(s[..|s| - 1]) + (s[|s| - 1] as int - '0' as int)
  }

  lemma ValueAppend(s: string, c: char)
    ensures Value(s + [c]) == 10 * Value(s) + (c as int - '0' as int)
  {
    assert (s + [c])[..|s|] == s;
  }

  lemma DigitValue(d: nat)
    requires d < 10
    ensures Digit(d) as int - '0' as int == d
  {
  }

  lemma {:induction false} ValueOfDecimal(n: nat)
    ensures Value(Decimal(n)) == n
  {
    if n >= 10 {
      ValueOfDecimal(n / 10);
      ValueAppend(Decimal(n / 10), Digit(n % 10));
      DigitValue(n % 10);
    } else {
      ValueAppend("", Digit(n));
      DigitValue(n);
      assert "" + [Digit(n)] == [Digit(n)];
    }
  }
}
