/**
 * String helpers shared by the model: Kotlin's `split` and `joinToString`, `Int.toString()`,
 * `String.toIntOrNull()` / `toInt()` and `isBlank()`, together with the facts that tie
 * them to each other (splitting a join gives the parts back, parsing a rendered integer
 * gives the integer back).
 */
module Text {
  import opened Wrappers

  /** Kotlin's `Int`: a 32-bit signed integer. */
  type Int32 = x: int | -0x8000_0000 <= x < 0x8000_0000

  predicate IsInt32(x: int) { -0x8000_0000 <= x < 0x8000_0000 }

  predicate IsDigit(c: char) { '0' <= c <= '9' }

  function DigitValue(c: char): (d: nat)
    requires IsDigit(c)
    ensures d < 10
  {
    (c as int) - ('0' as int)
  }

  function DigitChar(d: nat): (c: char)
    requires d < 10
    ensures IsDigit(c) && DigitValue(c) == d
  {
    (('0' as int) + d) as char
  }

  predicate AllDigits(s: string) {
    forall i | 0 <= i < |s| :: IsDigit(s[i])
  }

  /** The number a non-empty run of decimal digits denotes, read most significant digit first. */
  function DigitsValue(s: string): nat
    requires AllDigits(s)
    decreases |s|
  {
    if |s| == 0 then 0 else 10 * DigitsValue(s[..|s| - 1]) + DigitValue(s[|s| - 1])
  }

  /** Decimal rendering of a natural number, without sign or leading zeros. */
  function NatToString(n: nat): (s: string)
    ensures |s| >= 1 && AllDigits(s)
    ensures DigitsValue(s) == n
    ensures n < 10 ==> s == [DigitChar(n)]
  {
    if n < 10 then [DigitChar(n)]
    else
      var prefix := NatToString(n / 10);
      var s := prefix + [DigitChar(n % 10)];
      assert s[..|s| - 1] == prefix;
      s
  }

  /** Kotlin's `Int.toString()`: a minus sign for negative values, then the decimal digits. */
  function IntToString(i: int): (s: string)
    ensures |s| >= 1
    ensures forall k | 0 <= k < |s| :: IsDigit(s[k]) || (k == 0 && s[k] == '-')
    ensures i >= 0 ==> AllDigits(s)
  {
    if i < 0 then "-" + NatToString(-i) else NatToString(i)
  }

  /**
   * Kotlin's `String.toIntOrNull()` (radix 10): an optional leading `+` or `-`, then at least
   * one digit and nothing else; null when the text is malformed or the value does not fit
   * in 32 bits. `toInt()` accepts exactly the same strings and throws where this gives null.
   */
  function ToIntOrNull(s: string): (r: Option<Int32>)
    ensures r.Some? ==> |s| >= 1
    ensures r.Some? && r.value < 0 ==> s[0] == '-'
    ensures r.Some? && s[0] != '-' && s[0] != '+' ==> AllDigits(s) && r.value == DigitsValue(s)
  {
    if |s| == 0 then None
    else
      var signed := s[0] == '-' || s[0] == '+';
      var digits := if signed then s[1..] else s;
      if |digits| == 0 || !AllDigits(digits) then None
      else
        var v: int := if s[0] == '-' then 0 - (DigitsValue(digits) as int) else DigitsValue(digits);
        if IsInt32(v) then Some(v) else None
  }

  /** Parsing what `Int.toString()` printed gives the integer back. */
  lemma {:induction false} ParseRendered(i: Int32)
    ensures ToIntOrNull(IntToString(i)) == Some(i)
  {
    if i < 0 {
      var n: nat := -(i as int);
      var digits := NatToString(n);
      assert IntToString(i)[1..] == digits;
    }
  }

  /** Text starting with neither a sign nor a digit is not an Int. */
  lemma {:induction false} NotANumber(s: string)
    requires |s| >= 1 && !IsDigit(s[0]) && s[0] != '-' && s[0] != '+'
    ensures ToIntOrNull(s).None?
  {
    assert !AllDigits(s);
  }

  /** Kotlin's `Char.isWhitespace()`: Java whitespace plus the Unicode space separators. */
  predicate IsWhitespace(c: char) {
    c == ' ' || c == '\t' || c == '\n' || c == '\r' || c == '\U{000B}' || c == '\U{000C}'
    || ('\U{001C}' <= c <= '\U{001F}') || c == '\U{00A0}' || c == '\U{1680}'
    || ('\U{2000}' <= c <= '\U{200A}') || c == '\U{2028}' || c == '\U{2029}' || c == '\U{202F}'
    || c == '\U{205F}' || c == '\U{3000}'
  }

  /** Kotlin's `isBlank()`: empty or whitespace only. */
  predicate IsBlank(s: string) {
    forall i | 0 <= i < |s| :: IsWhitespace(s[i])
  }

  /** No character of `s` is one of `delims`. */
  predicate Free(s: string, delims: set<char>) {
    forall i | 0 <= i < |s| :: s[i] !in delims
  }

  /**
   * Kotlin's `split` with single-character delimiters: the maximal delimiter-free pieces,
   * empty pieces included (a leading, trailing or doubled delimiter yields an empty piece).
   */
  function Split(s: string, delims: set<char>): (parts: seq<string>)
    ensures |parts| >= 1
    ensures forall k | 0 <= k < |parts| :: Free(parts[k], delims)
    decreases |s|
  {
    if |s| == 0 then [""]
    else
      var rest := Split(s[1..], delims);
      if s[0] in delims then [""] + rest
      else [[s[0]] + rest[0]] + rest[1..]
  }

  /** Kotlin's `joinToString(separator)`. */
  function Join(parts: seq<string>, sep: string): string
    decreases |parts|
  {
    if |parts| == 0 then ""
    else if |parts| == 1 then parts[0]
    else parts[0] + sep + Join(parts[1..], sep)
  }

  /** A delimiter-free string is one piece. */
  lemma {:induction false} SplitFree(s: string, delims: set<char>)
    requires Free(s, delims)
    ensures Split(s, delims) == [s]
    decreases |s|
  {
    if |s| > 0 {
      SplitFree(s[1..], delims);
      assert [s[0]] + s[1..] == s;
    }
  }

  /** Splitting at a delimiter splits both sides independently. */
  lemma {:induction false} SplitConcat(a: string, d: char, b: string, delims: set<char>)
    requires d in delims
    ensures Split(a + [d] + b, delims) == Split(a, delims) + Split(b, delims)
    decreases |a|
  {
    var s := a + [d] + b;
    if |a| == 0 {
      assert s[1..] == b;
    } else {
      assert s[1..] == a[1..] + [d] + b;
      SplitConcat(a[1..], d, b, delims);
      if a[0] !in delims {
        var left := Split(a[1..], delims);
        assert [a[0]] + left[0] == ([a[0]] + left[0]);
      }
    }
  }

  /** A delimiter-free head followed by a delimiter is the first piece; the rest splits on its own. */
  lemma {:induction false} SplitHead(a: string, d: char, rest: string, delims: set<char>)
    requires Free(a, delims) && d in delims
    ensures Split(a + [d] + rest, delims) == [a] + Split(rest, delims)
  {
    SplitConcat(a, d, rest, delims);
    SplitFree(a, delims);
  }

  /** Splitting a join on its own one-character separator gives the delimiter-free parts back. */
  lemma {:induction false} SplitJoin(parts: seq<string>, d: char, delims: set<char>)
    requires |parts| >= 1 && d in delims
    requires forall k | 0 <= k < |parts| :: Free(parts[k], delims)
    ensures Split(Join(parts, [d]), delims) == parts
    decreases |parts|
  {
    if |parts| == 1 {
      SplitFree(parts[0], delims);
    } else {
      SplitJoin(parts[1..], d, delims);
      SplitConcat(parts[0], d, Join(parts[1..], [d]), delims);
      SplitFree(parts[0], delims);
      assert [parts[0]] + parts[1..] == parts;
    }
  }

  lemma {:induction false} JoinPrepend(x: string, y: string, rest: seq<string>, sep: string)
    ensures Join([x + y] + rest, sep) == x + Join([y] + rest, sep)
  {
    var l := [x + y] + rest;
    var r := [y] + rest;
    assert l[1..] == rest && r[1..] == rest;
  }

  /** Joining the pieces of a one-delimiter split restores the original string. */
  lemma {:induction false} JoinSplit(s: string, d: char)
    ensures Join(Split(s, {d}), [d]) == s
    decreases |s|
  {
    if |s| > 0 {
      var rest := Split(s[1..], {d});
      JoinSplit(s[1..], d);
      if s[0] == d {
        assert ([""] + rest)[1..] == rest;
        assert s == [d] + s[1..];
      } else {
        JoinPrepend([s[0]], rest[0], rest[1..], [d]);
        assert [rest[0]] + rest[1..] == rest;
        assert s == [s[0]] + s[1..];
      }
    }
  }
}
