/** The few pieces of Go's standard library that the commands lean on, written
    out so that the rest of the model has concrete text to reason about:
    strings.Replace and strings.LastIndex with a one-character pattern, and
    fmt's %d and %2d verbs. Strings stand for Go byte strings, one char per byte. */
module GoStrings {

  /** strings.Replace(s, [c], rep, -1): every occurrence of c, left to right,
      replaced by rep. */
  function ReplaceAll(s: string, c: char, rep: string): (r: string)
    ensures c !in s ==> r == s
    ensures c !in rep ==> c !in r
    ensures forall x :: x in r ==> x in s || x in rep
    ensures |rep| >= 1 ==> |r| >= |s|
    decreases |s|
  {
    if |s| == 0 then ""
    else (if s[0] == c then rep else [s[0]]) + ReplaceAll(s[1..], c, rep)
  }

  /** Replacing is done piecewise: it distributes over concatenation. */
  lemma {:induction false} ReplaceAllAppend(a: string, b: string, c: char, rep: string)
    ensures ReplaceAll(a + b, c, rep) == ReplaceAll(a, c, rep) + ReplaceAll(b, c, rep)
    decreases |a|
  {
    if |a| == 0 {
      assert a + b == b;
    } else {
      assert (a + b)[0] == a[0];
      assert (a + b)[1..] == a[1..] + b;
      ReplaceAllAppend(a[1..], b, c, rep);
    }
  }

  /** strings.LastIndex(s, [c]): the index of the last c in s, or -1. */
  function LastIndex(s: string, c: char): (k: int)
    ensures -1 <= k < |s|
    ensures k >= 0 ==> s[k] == c
    ensures forall i :: k < i < |s| ==> s[i] != c
    ensures k == -1 <==> c !in s
    decreases |s|
  {
    if |s| == 0 then -1
    else if s[|s| - 1] == c then |s| - 1
    else LastIndex(s[..|s| - 1], c)
  }

  predicate IsDigit(ch: char) {
    '0' <= ch <= '9'
  }

  function DigitChar(d: nat): (ch: char)
    requires d < 10
    ensures IsDigit(ch)
    ensures ch as int - '0' as int == d
  {
    ('0' as int + d) as char
  }

  /** %d of a non-negative value: decimal digits without leading zeros. */
  function NatDigits(n: nat): (r: string)
    ensures |r| >= 1
    decreases n
  {
    if n < 10 then [DigitChar(n)] else NatDigits(n / 10) + [DigitChar(n % 10)]
  }

  /** NatDigits writes only digits, and a leading zero only for zero itself. */
  lemma {:induction false} NatDigitsText(n: nat)
    ensures AllDigits(NatDigits(n))
    ensures |NatDigits(n)| == 1 <==> n < 10
    ensures NatDigits(n)[0] == '0' <==> n == 0
    decreases n
  {
    if n >= 10 {
      NatDigitsText(n / 10);
    }
  }

  /** The value a string of decimal digits denotes. */
  function DigitsValue(s: string): nat
    requires AllDigits(s)
    decreases |s|
  {
    if |s| == 0 then 0
    else
      assert IsDigit(s[|s| - 1]);
      DigitsValue(s[..|s| - 1]) * 10 + (s[|s| - 1] as int - '0' as int)
  }

  /** The digits NatDigits writes read back as the number written. */
  lemma {:induction false} NatDigitsRoundTrip(n: nat)
    ensures AllDigits(NatDigits(n)) && DigitsValue(NatDigits(n)) == n
    decreases n
  {
    var r := NatDigits(n);
    NatDigitsText(n);
    if n >= 10 {
      NatDigitsText(n / 10);
      assert r[..|r| - 1] == NatDigits(n / 10);
      NatDigitsRoundTrip(n / 10);
    }
  }

  /** What %d writes: an optional minus sign followed by decimal digits. */
  predicate IntText(s: string) {
    && |s| >= 1
    && (s[0] == '-' ==> |s| >= 2)
    && forall i :: (if s[0] == '-' then 1 else 0) <= i < |s| ==> IsDigit(s[i])
  }

  predicate AllDigits(s: string) {
    forall i :: 0 <= i < |s| ==> IsDigit(s[i])
  }

  /** fmt's %d on a Go int: an optional minus sign, then the digits. */
  function FormatInt(n: int): (r: string)
    ensures |r| >= 1
  {
    if n < 0 then "-" + NatDigits(-n) else NatDigits(n)
  }

  /** %d writes a sign exactly for negative values, and digits otherwise. */
  lemma FormatIntText(n: int)
    ensures IntText(FormatInt(n))
    ensures FormatInt(n)[0] == '-' <==> n < 0
  {
    if n >= 0 {
      NatDigitsText(n);
    }
    if n < 0 {
      var d := NatDigits(-n);
      NatDigitsText(-n);
      assert forall i :: 1 <= i < |d| + 1 ==> ("-" + d)[i] == d[i - 1];
    }
  }

  /** The value a %d rendering denotes. */
  function ParseInt(s: string): int
    requires IntText(s)
  {
    if s[0] == '-' then
      assert forall i :: 0 <= i < |s| - 1 ==> s[1..][i] == s[i + 1];
      0 - DigitsValue(s[1..])
    else DigitsValue(s)
  }

  /** %d loses nothing: reading the rendering back gives the number. */
  lemma {:induction false} FormatIntRoundTrip(n: int)
    ensures IntText(FormatInt(n)) && ParseInt(FormatInt(n)) == n
  {
    var r := FormatInt(n);
    FormatIntText(n);
    if n < 0 {
      var d := NatDigits(-n);
      assert r == "-" + d;
      assert r[1..] == d;
      NatDigitsRoundTrip(-n);
      assert ParseInt(r) == 0 - DigitsValue(d);
    } else {
      NatDigitsText(n);
      NatDigitsRoundTrip(n);
    }
  }

  /** Right-justifies s in a field of the given width, padding with spaces. */
  function PadLeft(s: string, width: nat): (r: string)
    ensures |r| == if |s| < width then width else |s|
  {
    var pad := if |s| < width then width - |s| else 0;
    seq(pad, _ => ' ') + s
  }

  /** PadLeft keeps s as the tail and puts only spaces before it. */
  lemma PadLeftShape(s: string, width: nat)
    ensures PadLeft(s, width)[|PadLeft(s, width)| - |s|..] == s
    ensures forall i :: 0 <= i < |PadLeft(s, width)| - |s| ==> PadLeft(s, width)[i] == ' '
  {
  }

  /** fmt's %<width>d: the %d rendering right-justified with spaces. */
  function FormatIntWidth(n: int, width: nat): (r: string)
    ensures |r| >= width
  {
    PadLeft(FormatInt(n), width)
  }
}
