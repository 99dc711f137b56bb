/**
 * The `fmt.Sprintf` verbs the generator uses to build identifying fields:
 * `%d` (decimal) and `%0Nd` (decimal left-padded with zeros to width N).
 * Every field built as prefix + `%0Nd` + suffix gives its index back
 * (Unformat), which is what makes those fields unique per index.
 */
module GoFormat {

  predicate IsDigit(c: char) {
    '0' <= c <= '9'
  }

  predicate AllDigits(s: string) {
    forall i :: 0 <= i < |s| ==> IsDigit(s[i])
  }

  function DigitChar(d: nat): (c: char)
    requires d < 10
    ensures IsDigit(c) && (c as int) - ('0' as int) == d
  {
    "0123456789"[d]
  }

  function DigitValue(c: char): (d: nat)
    requires IsDigit(c)
    ensures d < 10 && DigitChar(d) == c
  {
    (c as int) - ('0' as int)
  }

  /** `%d` of a non-negative value: decimal digits, no leading zero. */
  function Dec(n: nat): (s: string)
    ensures |s| >= 1 && AllDigits(s)
    ensures |s| > 1 ==> s[0] != '0'
  {
    if n < 10 then [DigitChar(n)] else Dec(n / 10) + [DigitChar(n % 10)]
  }

  /** The value of a string of decimal digits (leading zeros allowed). */
  function Parse(s: string): nat
    requires AllDigits(s)
  {
    if s == [] then 0 else Parse(s[..|s| - 1]) * 10 + DigitValue(s[|s| - 1])
  }

  function Zeros(k: nat): (s: string)
    ensures |s| == k && AllDigits(s)
  {
    if k == 0 then [] else Zeros(k - 1) + ['0']
  }

  /** `%0Nd` of a non-negative value: `Dec(n)` left-padded with zeros to `width`. */
  function Padded(n: nat, width: nat): (s: string)
    ensures AllDigits(s)
    ensures |s| == if |Dec(n)| < width then width else |Dec(n)|
  {
    var d := Dec(n);
    if |d| < width then Zeros(width - |d|) + d else d
  }

  /** `%0Nd` of a possibly negative value: Go writes the sign first and pads after it. */
  function PaddedInt(i: int, width: nat): (s: string)
    ensures i >= 0 ==> s == Padded(i, width)
    ensures i < 0 ==> |s| >= 2 && s[0] == '-' && s[1..] == Padded(-i, if width > 0 then width - 1 else 0)
  {
    if i >= 0 then Padded(i, width) else "-" + Padded(-i, if width > 0 then width - 1 else 0)
  }

  /** `%d` (and `%v`) of a possibly negative value. */
  function Itoa(i: int): (s: string)
    ensures i >= 0 ==> s == Dec(i)
  {
    PaddedInt(i, 0)
  }

  lemma {:induction false} ParseDec(n: nat)
    ensures Parse(Dec(n)) == n
  {
    if n >= 10 {
      ParseDec(n / 10);
      var s := Dec(n);
      assert s[..|s| - 1] == Dec(n / 10);
    }
  }

  lemma {:induction false} ParseZeros(k: nat)
    ensures Parse(Zeros(k)) == 0
  {
    if k > 0 {
      ParseZeros(k - 1);
      assert Zeros(k)[..k - 1] == Zeros(k - 1);
    }
  }

  lemma {:induction false} ParseLeadingZeros(k: nat, s: string)
    requires AllDigits(s)
    ensures AllDigits(Zeros(k) + s) && Parse(Zeros(k) + s) == Parse(s)
  {
    var t := Zeros(k) + s;
    if s == [] {
      assert t == Zeros(k);
      ParseZeros(k);
    } else {
      var s' := s[..|s| - 1];
      ParseLeadingZeros(k, s');
      assert t[..|t| - 1] == Zeros(k) + s';
    }
  }

  /** Parsing undoes `%0Nd`. */
  lemma ParsePadded(n: nat, width: nat)
    ensures Parse(Padded(n, width)) == n
  {
    var d := Dec(n);
    ParseDec(n);
    if |d| < width {
      assert Padded(n, width) == Zeros(width - |d|) + d;
      ParseLeadingZeros(width - |d|, d);
    } else {
      assert Padded(n, width) == d;
    }
  }

  /** A field `prefix + %0Nd + suffix` gives back its value from between the two fixed parts. */
  lemma Unformat(prefix: string, n: nat, width: nat, suffix: string)
    ensures var s := prefix + Padded(n, width) + suffix;
      |prefix| + |suffix| <= |s|
      && AllDigits(s[|prefix|..|s| - |suffix|])
      && Parse(s[|prefix|..|s| - |suffix|]) == n
  {
    var s := prefix + Padded(n, width) + suffix;
    assert s[|prefix|..|s| - |suffix|] == Padded(n, width);
    ParsePadded(n, width);
  }

  /** Distinct values give distinct fields, for any fixed prefix, width and suffix. */
  lemma FieldInjective(prefix: string, width: nat, suffix: string, i: nat, j: nat)
    requires prefix + Padded(i, width) + suffix == prefix + Padded(j, width) + suffix
    ensures i == j
  {
    Unformat(prefix, i, width, suffix);
    Unformat(prefix, j, width, suffix);
  }
}
