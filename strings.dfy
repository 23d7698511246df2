/**
 * String operations with the semantics of the JavaScript built-ins the control panel
 * calls: `split` on a one-character separator, `replace` with a one-character pattern
 * (which replaces the first occurrence only), `String(n)` and `padStart(2, '0')`.
 */
module Strings {

  /**
   * `s.split(sep)`: the pieces of `s` between occurrences of `sep`, in order. There is
   * always at least one piece; the first one is the longest prefix of `s` without `sep`.
   */
  function Split(s: string, sep: char): (parts: seq<string>)
    ensures |parts| >= 1
    ensures parts[0] <= s && sep !in parts[0]
    ensures |parts[0]| < |s| ==> s[|parts[0]|] == sep
    decreases |s|
  {
    if s == [] then [""]
    else
      var rest := Split(s[1..], sep);
      if s[0] == sep then [""] + rest
      else [[s[0]] + rest[0]] + rest[1..]
  }

  /** The inverse of `Split`: the pieces glued back together with the separator. */
  function Join(parts: seq<string>, sep: char): string
    decreases |parts|
  {
    if |parts| <= 1 then (if parts == [] then "" else parts[0])
    else parts[0] + [sep] + Join(parts[1..], sep)
  }

  /** Splitting loses nothing: joining the pieces gives back the string. */
  lemma {:induction false} JoinSplit(s: string, sep: char)
    ensures Join(Split(s, sep), sep) == s
    decreases |s|
  {
    if s != [] {
      JoinSplit(s[1..], sep);
      var rest := Split(s[1..], sep);
      if s[0] != sep {
        if |rest| > 1 {
          assert [[s[0]] + rest[0]] + rest[1..] == [[s[0]] + rest[0]] + rest[1..];
          assert ([[s[0]] + rest[0]] + rest[1..])[1..] == rest[1..];
        }
        assert s == [s[0]] + s[1..];
      } else {
        assert ([""] + rest)[1..] == rest;
        assert s == [s[0]] + s[1..];
      }
    }
  }

  /** Any prefix without `sep` that is followed by `sep` (or is all of `s`) is the first piece. */
  lemma FirstPieceUnique(s: string, sep: char, p: string)
    requires p <= s && sep !in p
    requires |p| < |s| ==> s[|p|] == sep
    ensures Split(s, sep)[0] == p
  {
  }

  /** The pieces of `a + [sep] + b` when `a` has no separator: `a`, then the pieces of `b`. */
  lemma {:induction false} SplitAfterFirst(a: string, sep: char, b: string)
    requires sep !in a
    ensures Split(a + [sep] + b, sep) == [a] + Split(b, sep)
    decreases |a|
  {
    if a == [] {
      assert [] + [sep] + b == [sep] + b;
      assert ([sep] + b)[1..] == b;
    } else {
      var s := a + [sep] + b;
      SplitAfterFirst(a[1..], sep, b);
      assert s[1..] == a[1..] + [sep] + b;
      assert s[0] == a[0] != sep;
      var rest := Split(s[1..], sep);
      assert rest[0] == a[1..] && rest[1..] == Split(b, sep);
      assert [s[0]] + rest[0] == a;
    }
  }

  /** A string without the separator splits into itself alone. */
  lemma SplitWithoutSep(s: string, sep: char)
    requires sep !in s
    ensures Split(s, sep) == [s]
  {
    FirstPieceUnique(s, sep, s);
  }

  /**
   * `s.replace(from, to)` with a one-character pattern: only the first occurrence of
   * `from` is replaced; a string without `from` is returned as it is.
   */
  function ReplaceFirst(s: string, from: char, to: char): (r: string)
    ensures |r| == |s|
    ensures from !in s ==> r == s
    decreases |s|
  {
    if s == [] then []
    else if s[0] == from then [to] + s[1..]
    else [s[0]] + ReplaceFirst(s[1..], from, to)
  }

  /** The occurrence replaced is the first one: the one right after the `from`-free prefix `p`. */
  lemma {:induction false} ReplaceFirstAt(s: string, from: char, to: char, p: string)
    requires p <= s && from !in p && |p| < |s| && s[|p|] == from
    ensures ReplaceFirst(s, from, to) == p + [to] + s[|p| + 1..]
    decreases |p|
  {
    if p != [] {
      ReplaceFirstAt(s[1..], from, to, p[1..]);
      assert s[1..][|p| - 1 + 1..] == s[|p| + 1..];
      assert [p[0]] + (p[1..] + [to] + s[|p| + 1..]) == p + [to] + s[|p| + 1..];
    }
  }

  /** In terms of `split`: the first piece, then `to`, then everything after the first `from`. */
  lemma ReplaceFirstSplit(s: string, from: char, to: char)
    requires from in s
    ensures var p := Split(s, from)[0];
      ReplaceFirst(s, from, to) == p + [to] + s[|p| + 1..]
  {
    var p := Split(s, from)[0];
    ReplaceFirstAt(s, from, to, p);
  }

  /** The round trip below on a string already cut at its first `a`. */
  lemma SwapBackAt(p: string, rest: string, a: char, b: char)
    requires a != b && a !in p && b !in p
    ensures ReplaceFirst(ReplaceFirst(p + [a] + rest, a, b), b, a) == p + [a] + rest
  {
    var s := p + [a] + rest;
    assert s[..|p|] == p && s[|p| + 1..] == rest;
    ReplaceFirstAt(s, a, b, p);
    var r := p + [b] + rest;
    assert r[..|p|] == p && r[|p| + 1..] == rest;
    ReplaceFirstAt(r, b, a, p);
  }

  /**
   * Swapping the first `a` for `b` and then the first `b` back for `a` restores the
   * string, provided no `b` comes before the first `a`.
   */
  lemma ReplaceFirstRoundTrip(s: string, a: char, b: char)
    requires a != b
    requires b !in Split(s, a)[0]
    ensures ReplaceFirst(ReplaceFirst(s, a, b), b, a) == s
  {
    var p := Split(s, a)[0];
    if a in s {
      assert s == p + [a] + s[|p| + 1..] by {
        assert s == s[..|p|] + [s[|p|]] + s[|p| + 1..];
      }
      SwapBackAt(p, s[|p| + 1..], a, b);
    } else {
      SplitWithoutSep(s, a);
    }
  }

  predicate IsDigit(c: char) {
    '0' <= c <= '9'
  }

  /** The decimal digit of a value below ten. */
  function DigitChar(d: nat): (c: char)
    requires d < 10
    ensures IsDigit(c) && DigitValue(c) == d
  {
    ('0' as int + d) as char
  }

  /** The value of a decimal digit. */
  function DigitValue(c: char): nat
    requires IsDigit(c)
  {
    (c as int - '0' as int) as nat
  }

  /** `String(n)` for a non-negative integer: decimal digits, no leading zeros. */
  function NatToString(n: nat): (s: string)
    ensures 1 <= |s| && AllDigits(s)
    ensures s[0] == '0' <==> n == 0
    decreases n
  {
    if n < 10 then [DigitChar(n)] else NatToString(n / 10) + [DigitChar(n % 10)]
  }

  /** `String(n)` for any integer. */
  function IntToString(n: int): string {
    if n < 0 then "-" + NatToString(-n) else NatToString(n)
  }

  /** Every character is a decimal digit. */
  predicate AllDigits(s: string) {
    forall k :: 0 <= k < |s| ==> IsDigit(s[k])
  }

  /** A string of digits contains no other character. */
  lemma DigitsExclude(s: string, c: char)
    requires AllDigits(s) && !IsDigit(c)
    ensures c !in s
  {
  }

  /** `s.padStart(2, '0')`: `s` itself, after as many `'0'`s as bring it to length two. */
  function PadStart2(s: string): (r: string)
    ensures |r| == if |s| < 2 then 2 else |s|
    ensures r[|r| - |s|..] == s && forall k :: 0 <= k < |r| - |s| ==> r[k] == '0'
    ensures AllDigits(s) ==> AllDigits(r)
  {
    if |s| == 0 then "00" else if |s| == 1 then "0" + s else s
  }

  /** The value of a string of decimal digits (the empty string reads as 0). */
  function ParseNat(s: string): nat
    requires AllDigits(s)
    decreases |s|
  {
    if s == [] then 0 else ParseNat(s[..|s| - 1]) * 10 + DigitValue(s[|s| - 1])
  }

  /** `String(n)` is read back as `n`. */
  lemma {:induction false} ParseNatToString(n: nat)
    ensures ParseNat(NatToString(n)) == n
    decreases n
  {
    if n >= 10 {
      var s := NatToString(n);
      assert s[..|s| - 1] == NatToString(n / 10);
      ParseNatToString(n / 10);
    }
  }

  /**
   * `String(n).padStart(2, '0')` for `n < 100` is exactly two digits, the tens and the
   * units of `n`.
   */
  lemma Pad2Digits(n: nat)
    requires n < 100
    ensures var s := PadStart2(NatToString(n));
      |s| == 2 && IsDigit(s[0]) && IsDigit(s[1]) && DigitValue(s[0]) * 10 + DigitValue(s[1]) == n
  {
    if n < 10 {
      assert NatToString(n) == [DigitChar(n)];
    } else {
      assert NatToString(n / 10) == [DigitChar(n / 10)];
      assert NatToString(n) == [DigitChar(n / 10), DigitChar(n % 10)];
    }
  }
}
