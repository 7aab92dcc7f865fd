/** The two pieces of Kotlin string handling the gutter-marker provider relies on:
    `String.trim()` (applied to a mark's stored check content) and the decimal
    rendering of an integer inside a string template (the tooltip's line number). */
module Text {

  /** Kotlin's `Char.isWhitespace()` on the JVM: Java's `Character.isWhitespace`
      (the ASCII controls TAB..CR and FS..US, and the Unicode separators) together
      with `Character.isSpaceChar` (which adds the no-break spaces), as on
      Java 9 and later (Unicode 6.3 and later, where U+180E is no longer a
      space separator). */
  predicate IsWhitespace(c: char) {
    ('\t' <= c <= '\r') || ('\U{1C}' <= c <= ' ')
    || c == '\U{A0}' || c == '\U{1680}' || ('\U{2000}' <= c <= '\U{200A}')
    || c == '\U{2028}' || c == '\U{2029}' || c == '\U{202F}' || c == '\U{205F}' || c == '\U{3000}'
  }

  predicate AllWhitespace(s: string) {
    forall i :: 0 <= i < |s| ==> IsWhitespace(s[i])
  }

  /** Neither the first nor the last character of `s` is whitespace. */
  predicate NoOuterWhitespace(s: string) {
    s == [] || (!IsWhitespace(s[0]) && !IsWhitespace(s[|s| - 1]))
  }

  /** Drops the leading whitespace. */
  function TrimStart(s: string): string {
    if s != [] && IsWhitespace(s[0]) then TrimStart(s[1..]) else s
  }

  /** Drops the trailing whitespace. */
  function TrimEnd(s: string): string {
    if s != [] && IsWhitespace(s[|s| - 1]) then TrimEnd(s[..|s| - 1]) else s
  }

  /** Kotlin's `String.trim()`. */
  function Trim(s: string): string {
    TrimEnd(TrimStart(s))
  }

  /** TrimStart keeps a suffix, drops only whitespace, and stops at the first
      character that is not whitespace. */
  lemma {:induction false} TrimStartSpec(s: string)
    ensures |TrimStart(s)| <= |s| && TrimStart(s) == s[|s| - |TrimStart(s)|..]
    ensures AllWhitespace(s[..|s| - |TrimStart(s)|])
    ensures TrimStart(s) != [] ==> !IsWhitespace(TrimStart(s)[0])
  {
    if s != [] && IsWhitespace(s[0]) {
      TrimStartSpec(s[1..]);
      var r := TrimStart(s[1..]);
      assert s[..|s| - |r|] == [s[0]] + s[1..][..|s| - 1 - |r|];
    }
  }

  /** TrimEnd keeps a prefix, drops only whitespace, and stops at the last
      character that is not whitespace. */
  lemma {:induction false} TrimEndSpec(s: string)
    ensures |TrimEnd(s)| <= |s| && TrimEnd(s) == s[..|TrimEnd(s)|]
    ensures AllWhitespace(s[|TrimEnd(s)|..])
    ensures TrimEnd(s) != [] ==> !IsWhitespace(TrimEnd(s)[|TrimEnd(s)| - 1])
  {
    if s != [] && IsWhitespace(s[|s| - 1]) {
      TrimEndSpec(s[..|s| - 1]);
      var r := TrimEnd(s[..|s| - 1]);
      assert s[|r|..] == s[..|s| - 1][|r|..] + [s[|s| - 1]];
    }
  }

  /** `s` is `Trim(s)` with whitespace before and after it, and `Trim(s)` has
      no whitespace at either end. */
  lemma TrimSpec(s: string)
    ensures NoOuterWhitespace(Trim(s))
    ensures exists i ::
              && 0 <= i <= |s| - |Trim(s)|
              && Trim(s) == s[i..i + |Trim(s)|]
              && AllWhitespace(s[..i])
              && AllWhitespace(s[i + |Trim(s)|..])
  {
    var t := TrimStart(s);
    var r := TrimEnd(t);
    TrimStartSpec(s);
    TrimEndSpec(t);
    var i := |s| - |t|;
    assert r == s[i..i + |r|];
    assert s[i + |r|..] == t[|r|..];
  }

  lemma {:induction false} TrimStartSkips(a: string, u: string)
    requires AllWhitespace(a)
    requires u == [] || !IsWhitespace(u[0])
    ensures TrimStart(a + u) == u
  {
    if a != [] {
      assert (a + u)[1..] == a[1..] + u;
      TrimStartSkips(a[1..], u);
    }
  }

  lemma {:induction false} TrimEndSkips(u: string, b: string)
    requires AllWhitespace(b)
    requires u == [] || !IsWhitespace(u[|u| - 1])
    ensures TrimEnd(u + b) == u
  {
    if b != [] {
      assert (u + b)[..|u + b| - 1] == u + b[..|b| - 1];
      TrimEndSkips(u, b[..|b| - 1]);
    }
  }

  /** Trim is determined by its characterisation: whitespace padding around a
      text without outer whitespace is removed, and nothing else is. */
  lemma TrimUnique(a: string, t: string, b: string)
    requires AllWhitespace(a) && AllWhitespace(b) && NoOuterWhitespace(t)
    ensures Trim(a + t + b) == t
  {
    if t == [] {
      assert a + t + b == (a + b) + [];
      TrimStartSkips(a + b, []);
    } else {
      assert a + t + b == a + (t + b);
      TrimStartSkips(a, t + b);
      TrimEndSkips(t, b);
    }
  }

  /** A string is its own trim exactly when it has no outer whitespace. */
  lemma TrimFixedPoint(s: string)
    ensures Trim(s) == s <==> NoOuterWhitespace(s)
  {
    TrimSpec(s);
    if NoOuterWhitespace(s) {
      assert [] + s + [] == s;
      TrimUnique([], s, []);
    }
  }

  function DigitChar(d: nat): (c: char)
    requires d < 10
    ensures '0' <= c <= '9' && c as int - '0' as int == d
  {
    (d + '0' as int) as char
  }

  predicate IsDecimal(s: string) {
    s != [] && forall i :: 0 <= i < |s| ==> '0' <= s[i] <= '9'
  }

  /** The value of a string of decimal digits, most significant first. */
  function DecimalValue(s: string): nat
    requires forall i :: 0 <= i < |s| ==> '0' <= s[i] <= '9'
  {
    if s == [] then 0 else DecimalValue(s[..|s| - 1]) * 10 + (s[|s| - 1] as int - '0' as int)
  }

  /** The decimal text a Kotlin string template produces for a non-negative number. */
  function NatToString(n: nat): (s: string)
    ensures IsDecimal(s)
    ensures |s| > 1 ==> s[0] != '0'
  {
    if n < 10 then [DigitChar(n)] else NatToString(n / 10) + [DigitChar(n % 10)]
  }

  /** Reading the rendered digits back gives the number that was rendered. */
  lemma {:induction false} NatToStringRoundTrip(n: nat)
    ensures DecimalValue(NatToString(n)) == n
  {
    if n >= 10 {
      var s := NatToString(n / 10);
      assert (s + [DigitChar(n % 10)])[..|s|] == s;
      NatToStringRoundTrip(n / 10);
    }
  }

}
