/** The pieces of Go's `fmt` and `strings` packages that the model needs:
    decimal rendering of integers (`%d`), prefix, suffix and substring tests,
    `strings.Join`, `strings.Repeat` and the concatenation of built lines. */
module Strs {

  /** The decimal digit character for d. */
  function DigitChar(d: nat): (c: char)
    requires d < 10
    ensures '0' <= c <= '9' && c as int - '0' as int == d
  {
    (('0' as int) + d) as char
  }

  /** `%d` of a non-negative integer: most significant digit first, no leading zeros. */
  function NatToString(n: nat): (s: string)
    ensures |s| > 0 && forall i :: 0 <= i < |s| ==> '0' <= s[i] <= '9'
    decreases n
  {
    if n < 10 then [DigitChar(n)] else NatToString(n / 10) + [DigitChar(n % 10)]
  }

  /** A non-empty run of decimal digits. */
  predicate IsDecimal(s: string)
  {
    |s| > 0 && forall i :: 0 <= i < |s| ==> '0' <= s[i] <= '9'
  }

  /** The value of a run of decimal digits, read most significant first. */
  function DecimalValue(s: string): nat
    requires forall i :: 0 <= i < |s| ==> '0' <= s[i] <= '9'
  {
    if s == [] then 0
    else DecimalValue(s[..|s| - 1]) * 10 + (s[|s| - 1] as int - '0' as int)
  }

  /** Reading back what `%d` wrote gives the number again. */
  lemma {:induction false} NatToStringRoundTrip(n: nat)
    ensures IsDecimal(NatToString(n))
    ensures DecimalValue(NatToString(n)) == n
    decreases n
  {
    if n >= 10 {
      NatToStringRoundTrip(n / 10);
      var s := NatToString(n / 10) + [DigitChar(n % 10)];
      assert s[..|s| - 1] == NatToString(n / 10);
    }
  }

  /** `%d` of any integer: a minus sign before the magnitude of a negative number. */
  function IntToString(i: int): (s: string)
    ensures |s| > 0
    ensures i < 0 <==> s[0] == '-'
  {
    if i < 0 then "-" + NatToString(-i) else NatToString(i)
  }

  predicate HasPrefix(s: string, p: string)
  {
    |p| <= |s| && s[..|p|] == p
  }

  predicate HasSuffix(s: string, p: string)
  {
    |p| <= |s| && s[|s| - |p|..] == p
  }

  /** `strings.Contains(s, sub)`. */
  predicate Contains(s: string, sub: string)
    decreases |s|
  {
    HasPrefix(s, sub) || (|s| > 0 && Contains(s[1..], sub))
  }

  /** Every string contains its own prefix, suffix and any middle part. */
  lemma {:induction false} ContainsMiddle(a: string, b: string, c: string)
    ensures Contains(a + b + c, b)
    decreases |a|
  {
    if a == [] {
      assert (a + b + c)[..|b|] == b;
    } else {
      assert (a + b + c)[1..] == a[1..] + b + c;
      ContainsMiddle(a[1..], b, c);
    }
  }

  /** `strings.Join(parts, sep)`. */
  function Join(parts: seq<string>, sep: string): string
  {
    if |parts| == 0 then ""
    else if |parts| == 1 then parts[0]
    else parts[0] + sep + Join(parts[1..], sep)
  }

  /** Joining one more part adds exactly one separator and that part. */
  lemma {:induction false} JoinSnoc(parts: seq<string>, last: string, sep: string)
    requires |parts| > 0
    ensures Join(parts + [last], sep) == Join(parts, sep) + sep + last
    decreases |parts|
  {
    if |parts| == 1 {
      assert (parts + [last])[1..] == [last];
    } else {
      assert (parts + [last])[1..] == parts[1..] + [last];
      JoinSnoc(parts[1..], last, sep);
    }
  }

  /** The length of a join: every part once and one separator between neighbours. */
  function TotalLength(parts: seq<string>): nat
  {
    if parts == [] then 0 else |parts[0]| + TotalLength(parts[1..])
  }

  lemma {:induction false} JoinLength(parts: seq<string>, sep: string)
    requires |parts| > 0
    ensures |Join(parts, sep)| == TotalLength(parts) + (|parts| - 1) * |sep|
    decreases |parts|
  {
    if |parts| > 1 {
      JoinLength(parts[1..], sep);
    }
  }

  /** `strings.Repeat(string(c), n)`. */
  function Repeat(c: char, n: nat): (r: string)
    ensures |r| == n
    ensures forall i :: 0 <= i < n ==> r[i] == c
  {
    if n == 0 then "" else Repeat(c, n - 1) + [c]
  }

  /** The text made of the given pieces one after another. */
  function Concat(pieces: seq<string>): string
  {
    if pieces == [] then "" else pieces[0] + Concat(pieces[1..])
  }

  lemma {:induction false} ConcatAppend(a: seq<string>, b: seq<string>)
    ensures Concat(a + b) == Concat(a) + Concat(b)
    decreases |a|
  {
    if a == [] {
      assert a + b == b;
    } else {
      assert (a + b)[1..] == a[1..] + b;
      ConcatAppend(a[1..], b);
    }
  }

  /** How many times c occurs in s. */
  function CountChar(s: string, c: char): nat
  {
    if s == [] then 0 else (if s[0] == c then 1 else 0) + CountChar(s[1..], c)
  }

  lemma {:induction false} CountCharAppend(a: string, b: string, c: char)
    ensures CountChar(a + b, c) == CountChar(a, c) + CountChar(b, c)
    decreases |a|
  {
    if a == [] {
      assert a + b == b;
    } else {
      assert (a + b)[1..] == a[1..] + b;
      CountCharAppend(a[1..], b, c);
    }
  }

  /** A string that does not mention c has no occurrence of it. */
  lemma {:induction false} CountCharAbsent(s: string, c: char)
    requires forall i :: 0 <= i < |s| ==> s[i] != c
    ensures CountChar(s, c) == 0
    decreases |s|
  {
    if s != [] {
      CountCharAbsent(s[1..], c);
    }
  }

  /** Splits s at every occurrence of sep, as `strings.Split` does. */
  function SplitOn(s: string, sep: char): (parts: seq<string>)
    ensures |parts| > 0
    decreases |s|
  {
    if s == [] then [""]
    else
      var rest := SplitOn(s[1..], sep);
      if s[0] == sep then [""] + rest else [[s[0]] + rest[0]] + rest[1..]
  }

  lemma {:induction false} SplitOnNoSep(x: string, sep: char)
    requires forall i :: 0 <= i < |x| ==> x[i] != sep
    ensures SplitOn(x, sep) == [x]
    decreases |x|
  {
    if x != [] {
      SplitOnNoSep(x[1..], sep);
      assert [x[0]] + x[1..] == x;
    }
  }

  lemma {:induction false} SplitOnField(x: string, sep: char, y: string)
    requires forall i :: 0 <= i < |x| ==> x[i] != sep
    ensures SplitOn(x + [sep] + y, sep) == [x] + SplitOn(y, sep)
    decreases |x|
  {
    if x == [] {
      assert x + [sep] + y == [sep] + y;
      assert ([sep] + y)[1..] == y;
    } else {
      assert (x + [sep] + y)[1..] == x[1..] + [sep] + y;
      SplitOnField(x[1..], sep, y);
      assert [x[0]] + x[1..] == x;
    }
  }
}
