/** Sequence and string operations of the Python runtime that the job
    generator relies on: slicing, `str.join` and `str(int)`. */
module Text {

  /** Python's `s[lo:hi]` for non-negative bounds: both ends are clamped to
      the length of `s`, and a window that starts past the end is empty. */
  function Slice<T>(s: seq<T>, lo: nat, hi: nat): (r: seq<T>)
    ensures |r| == (if hi <= lo || |s| <= lo then 0 else if hi <= |s| then hi - lo else |s| - lo)
    ensures forall i :: 0 <= i < |r| ==> r[i] == s[lo + i]
    ensures lo <= hi <= |s| ==> r == s[lo..hi]
  {
    var h := if hi < |s| then hi else |s|;
    if lo < h then s[lo..h] else []
  }

  /** Python's `sep.join(parts)`: it starts with the first part and ends with the last. */
  function Join(sep: string, parts: seq<string>): (r: string)
    ensures |parts| == 0 ==> r == ""
    ensures |parts| >= 1 ==> |parts[0]| <= |r| && r[..|parts[0]|] == parts[0]
    ensures |parts| >= 1 ==> EndsWith(r, parts[|parts| - 1])
  {
    if |parts| == 0 then ""
    else if |parts| == 1 then parts[0]
    else
      var rest := Join(sep, parts[1..]);
      assert EndsWith(parts[0] + sep + rest, rest);
      parts[0] + sep + rest
  }

  /** Joining one name gives the name itself, two names are separated by exactly
      one separator, and joining nothing gives the empty string. */
  lemma JoinSmall(sep: string, parts: seq<string>)
    requires |parts| <= 2
    ensures |parts| == 0 ==> Join(sep, parts) == ""
    ensures |parts| == 1 ==> Join(sep, parts) == parts[0]
    ensures |parts| == 2 ==> Join(sep, parts) == parts[0] + sep + parts[1]
  {
    if |parts| == 2 {
      assert parts[1..] == [parts[1]];
    }
  }

  /** The concatenation of a sequence of sequences, left to right. */
  function Concat<T>(ss: seq<seq<T>>): seq<T>
  {
    if |ss| == 0 then [] else Concat(ss[..|ss| - 1]) + ss[|ss| - 1]
  }

  predicate IsDigit(c: char)
  {
    '0' <= c <= '9'
  }

  predicate AllDigits(s: string)
  {
    forall i :: 0 <= i < |s| ==> IsDigit(s[i])
  }

  function DigitChar(d: nat): (c: char)
    requires d < 10
    ensures IsDigit(c) && c as int - '0' as int == d
  {
    "0123456789"[d]
  }

  /** Python's `str(n)` for a non-negative integer: decimal digits, most
      significant first, and no leading zero except for `0` itself. */
  function NatToString(n: nat): (s: string)
    ensures |s| >= 1 && AllDigits(s)
    ensures (s[0] == '0') == (n == 0)
    ensures n < 10 <==> |s| == 1
    decreases n
  {
    if n < 10 then [DigitChar(n)] else NatToString(n / 10) + [DigitChar(n % 10)]
  }

  /** Python's `str(i)` for any integer: a minus sign before the digits of |i|. */
  function IntToString(i: int): (s: string)
    ensures |s| >= 1
    ensures (s[0] == '-') == (i < 0)
    ensures i >= 0 ==> AllDigits(s)
  {
    if i < 0 then "-" + NatToString(-i) else NatToString(i)
  }

  /** Reading back the printed thread count gives the count: the digits after
      the sign are those of its magnitude. */
  lemma IntToStringDigits(i: int)
    ensures i >= 0 ==> ParseDigits(IntToString(i)) == i
    ensures i < 0 ==> IntToString(i)[1..] == NatToString(-i)
                      && ParseDigits(IntToString(i)[1..]) == -i
  {
    if i >= 0 {
      ParseNatToString(i);
    } else {
      var digits := NatToString(-i);
      assert ("-" + digits)[1..] == digits;
      ParseNatToString(-i);
    }
  }

  /** Reads a string of decimal digits back as a number (the inverse of NatToString). */
  function ParseDigits(s: string): nat
    requires AllDigits(s)
  {
    if |s| == 0 then 0
    else ParseDigits(s[..|s| - 1]) * 10 + (s[|s| - 1] as int - '0' as int)
  }

  lemma {:induction false} ParseNatToString(n: nat)
    ensures ParseDigits(NatToString(n)) == n
    decreases n
  {
    var s := NatToString(n);
    if n >= 10 {
      ParseNatToString(n / 10);
      assert s[..|s| - 1] == NatToString(n / 10);
    }
  }

  /** Distinct numbers print differently, so replicate tags never collide. */
  lemma NatToStringInjective(a: nat, b: nat)
    ensures NatToString(a) == NatToString(b) ==> a == b
  {
    ParseNatToString(a);
    ParseNatToString(b);
  }

  predicate EndsWith(s: string, suffix: string)
  {
    |suffix| <= |s| && s[|s| - |suffix|..] == suffix
  }
}
