/** Text helpers used by the account logic: splitting at a separator,
    decimal digits and decimal rendering of primary keys. */
module Strings {

  /** One decimal digit, the range of `random.randint(0, 9)`. */
  type Digit = d: int | 0 <= d <= 9

  predicate IsDigit(c: char) {
    '0' <= c <= '9'
  }

  predicate IsDigitString(s: string) {
    forall i :: 0 <= i < |s| ==> IsDigit(s[i])
  }

  /** `str(d)` for a single digit. */
  function DigitChar(d: Digit): (c: char)
    ensures IsDigit(c)
    ensures c as int - '0' as int == d
  {
    ('0' as int + d) as char
  }

  /** The value of a digit character. */
  function DigitValue(c: char): (d: Digit)
    requires IsDigit(c)
    ensures DigitChar(d) == c
  {
    c as int - '0' as int
  }

  /** `s.split(sep)[0]`: the text before the first `sep`, or all of `s`
      when `sep` does not occur. */
  function TakeUntil(s: string, sep: char): (r: string)
    ensures IsSplitHead(s, sep, r)
  {
    if s == [] then []
    else if s[0] == sep then []
    else [s[0]] + TakeUntil(s[1..], sep)
  }

  /** `r` is a prefix of `s` without `sep`, and is followed in `s` by `sep`
      unless it is the whole of `s`. */
  predicate IsSplitHead(s: string, sep: char, r: string) {
    && r <= s
    && sep !in r
    && (|r| < |s| ==> s[|r|] == sep)
  }

  /** The split head is the only string with the properties above. */
  lemma {:induction false} SplitHeadUnique(s: string, sep: char, r: string)
    requires IsSplitHead(s, sep, r)
    ensures r == TakeUntil(s, sep)
  {
    if s != [] && s[0] != sep {
      assert r != [] by {
        assert |r| < |s| ==> s[|r|] == sep;
      }
      assert r[0] == s[0];
      assert r[1..] <= s[1..];
      assert sep !in r[1..] by {
        forall k | 0 <= k < |r| - 1 ensures r[1..][k] != sep {
          assert r[1..][k] == r[k + 1];
        }
      }
      SplitHeadUnique(s[1..], sep, r[1..]);
      assert r == [r[0]] + r[1..];
    }
  }

  /** When `s` is `a + [sep] + b` and `a` has no `sep`, the split head is `a`. */
  lemma SplitHeadOfJoin(a: string, sep: char, b: string)
    requires sep !in a
    ensures TakeUntil(a + [sep] + b, sep) == a
  {
    var s := a + [sep] + b;
    assert a <= s;
    assert s[|a|] == sep;
    SplitHeadUnique(s, sep, a);
  }

  /** `str(n)` for a non-negative integer, such as a primary key. */
  function NatToString(n: nat): (s: string)
    ensures |s| >= 1
    ensures IsDigitString(s)
    ensures |s| > 1 ==> s[0] != '0'
    decreases n
  {
    if n < 10 then [DigitChar(n)]
    else NatToString(n / 10) + [DigitChar(n % 10)]
  }

  /** Reads a string of decimal digits back as a number. */
  function ParseNat(s: string): (n: nat)
    requires IsDigitString(s)
    decreases |s|
  {
    if s == [] then 0
    else 10 * ParseNat(s[..|s| - 1]) + DigitValue(s[|s| - 1])
  }

  /** Decimal rendering is read back as the number it renders. */
  lemma {:induction false} ParseNatToString(n: nat)
    ensures ParseNat(NatToString(n)) == n
    decreases n
  {
    var s := NatToString(n);
    if n < 10 {
      assert s[..|s| - 1] == [];
    } else {
      var t := NatToString(n / 10);
      assert s == t + [DigitChar(n % 10)];
      assert s[..|s| - 1] == t;
      ParseNatToString(n / 10);
    }
  }
}
