/**
 * Python's built-in `int(text)` on a string, in base 10.
 *
 * The string may be surrounded by whitespace, may start with one sign, and
 * its digits may be grouped by single underscores (`1_000`).  Anything else
 * raises `ValueError`, which is `None` here.
 */
module PyInt {
  import opened Base

  /** The ASCII whitespace that `int()` skips around a numeral: tab, line
      feed, vertical tab, form feed, carriage return and space. */
  predicate IsSpace(c: char) {
    c == ' ' || '\t' <= c <= '\r'
  }

  predicate IsDigit(c: char) {
    '0' <= c <= '9'
  }

  /** The characters that can occur in a string `int()` accepts. */
  predicate IsIntChar(c: char) {
    IsSpace(c) || IsDigit(c) || c == '_' || c == '+' || c == '-'
  }

  /** `s` without its leading whitespace. */
  function StripLeft(s: string): (r: string)
    ensures |r| <= |s| && r == s[|s| - |r|..]
    ensures forall i | 0 <= i < |s| - |r| :: IsSpace(s[i])
    ensures r == [] || !IsSpace(r[0])
  {
    if |s| > 0 && IsSpace(s[0]) then StripLeft(s[1..]) else s
  }

  /** `s` without its trailing whitespace. */
  function StripRight(s: string): (r: string)
    ensures |r| <= |s| && r == s[..|r|]
    ensures forall i | |r| <= i < |s| :: IsSpace(s[i])
    ensures r == [] || !IsSpace(r[|r| - 1])
  {
    if |s| > 0 && IsSpace(s[|s| - 1]) then StripRight(s[..|s| - 1]) else s
  }

  function Strip(s: string): string {
    StripRight(StripLeft(s))
  }

  /** Python's grammar for the digits of a decimal literal: a digit, then
      digits, each optionally preceded by one underscore. */
  predicate IsDigitString(s: string) {
    && |s| > 0
    && IsDigit(s[0])
    && forall i | 0 <= i < |s| :: IsDigit(s[i]) || (s[i] == '_' && i + 1 < |s| && IsDigit(s[i + 1]))
  }

  function DigitValue(c: char): nat {
    if IsDigit(c) then c as int - '0' as int else 0
  }

  /** The value of a digit string, underscores ignored. */
  function DigitsValue(s: string): nat {
    if s == [] then 0
    else if s[|s| - 1] == '_' then DigitsValue(s[..|s| - 1])
    else 10 * DigitsValue(s[..|s| - 1]) + DigitValue(s[|s| - 1])
  }

  /** `int(s)`: `Some(n)` when Python returns n, `None` when it raises `ValueError`. */
  function ParseInt(s: string): Option<int> {
    var t := Strip(s);
    if |t| > 0 && (t[0] == '+' || t[0] == '-') then
      if IsDigitString(t[1..]) then
        Some(if t[0] == '-' then -(DigitsValue(t[1..]) as int) else DigitsValue(t[1..]))
      else None
    else if IsDigitString(t) then Some(DigitsValue(t))
    else None
  }

  function DigitChar(d: nat): char
    requires d < 10
  {
    ('0' as int + d) as char
  }

  /** The decimal numeral of n, as Python's `str(n)` writes it. */
  function NatToString(n: nat): string {
    if n < 10 then [DigitChar(n)] else NatToString(n / 10) + [DigitChar(n % 10)]
  }

  function IntToString(n: int): string {
    if n < 0 then "-" + NatToString(-n) else NatToString(n)
  }

  /** The numeral of n is a non-empty string of digits whose value is n. */
  lemma {:induction false} NatToStringValue(n: nat)
    ensures |NatToString(n)| > 0
    ensures forall i | 0 <= i < |NatToString(n)| :: IsDigit(NatToString(n)[i])
    ensures DigitsValue(NatToString(n)) == n
  {
    var s := NatToString(n);
    if n >= 10 {
      NatToStringValue(n / 10);
      assert s[..|s| - 1] == NatToString(n / 10);
    }
  }

  /** A string that neither starts nor ends with whitespace is its own strip. */
  lemma StripUnpadded(s: string)
    requires |s| > 0 && !IsSpace(s[0]) && !IsSpace(s[|s| - 1])
    ensures Strip(s) == s
  {
    assert StripLeft(s) == s;
  }

  /** `int(str(n)) == n` for every integer n. */
  lemma ParseIntRoundTrip(n: int)
    ensures ParseInt(IntToString(n)) == Some(n)
  {
    var m := if n < 0 then -n else n;
    NatToStringValue(m);
    var s := IntToString(n);
    StripUnpadded(s);
    if n < 0 {
      assert s[1..] == NatToString(m);
    }
  }

  lemma {:induction false} StripLeftPadding(pre: string, x: string)
    requires forall i | 0 <= i < |pre| :: IsSpace(pre[i])
    requires |x| > 0 && !IsSpace(x[0])
    ensures StripLeft(pre + x) == x
  {
    if pre != [] {
      assert (pre + x)[1..] == pre[1..] + x;
      StripLeftPadding(pre[1..], x);
    } else {
      assert pre + x == x;
    }
  }

  lemma {:induction false} StripRightPadding(x: string, post: string)
    requires forall i | 0 <= i < |post| :: IsSpace(post[i])
    requires |x| > 0 && !IsSpace(x[|x| - 1])
    ensures StripRight(x + post) == x
  {
    if post != [] {
      var p := post[..|post| - 1];
      assert (x + post)[..|x + post| - 1] == x + p;
      StripRightPadding(x, p);
    } else {
      assert x + post == x;
    }
  }

  /** `int()` ignores whitespace around the numeral: `int(" 4\n") == 4`. */
  lemma ParseIntPadded(n: int, pre: string, post: string)
    requires forall i | 0 <= i < |pre| :: IsSpace(pre[i])
    requires forall i | 0 <= i < |post| :: IsSpace(post[i])
    ensures ParseInt(pre + IntToString(n) + post) == Some(n)
  {
    var s := IntToString(n);
    IntToStringUnpadded(n);
    var w := pre + s + post;
    assert w == pre + (s + post);
    StripLeftPadding(pre, s + post);
    StripRightPadding(s, post);
    StripUnpadded(s);
    ParseIntOfStrip(w, s);
    ParseIntRoundTrip(n);
  }

  lemma IntToStringUnpadded(n: int)
    ensures |IntToString(n)| > 0
    ensures !IsSpace(IntToString(n)[0]) && !IsSpace(IntToString(n)[|IntToString(n)| - 1])
  {
    NatToStringValue(if n < 0 then -n else n);
  }

  /** `int()` only looks at the stripped string. */
  lemma ParseIntOfStrip(x: string, y: string)
    requires Strip(x) == Strip(y)
    ensures ParseInt(x) == ParseInt(y)
  {
  }

  /** Every character of a string `int()` accepts is whitespace, a digit, an
      underscore or a sign; in particular a unit suffix such as `m` or `Ki`
      makes it raise. */
  lemma {:induction false} ParseIntAlphabet(s: string)
    requires ParseInt(s).Some?
    ensures forall i | 0 <= i < |s| :: IsIntChar(s[i])
  {
    var u := StripLeft(s);
    var t := StripRight(u);
    assert Strip(s) == t;
    assert forall j | 0 <= j < |t| :: IsIntChar(t[j]) by {
      forall j | 0 <= j < |t| ensures IsIntChar(t[j]) {
        if t[0] == '+' || t[0] == '-' {
          if j > 0 {
            assert t[j] == t[1..][j - 1];
          }
        }
      }
    }
    forall i | 0 <= i < |s| ensures IsIntChar(s[i]) {
      var off := |s| - |u|;
      if i >= off {
        assert u[i - off] == s[i];
        if i - off < |t| {
          assert t[i - off] == u[i - off];
        }
      }
    }
  }

  /** A string containing a character outside the integer alphabet, such as
      the millicore suffix of "500m", makes `int()` raise. */
  lemma {:induction false} ParseIntRejects(s: string, i: nat)
    requires i < |s| && !IsIntChar(s[i])
    ensures ParseInt(s) == None
  {
    if ParseInt(s).Some? {
      ParseIntAlphabet(s);
    }
  }
}
