/** The JavaScript string operations the system relies on: `trim()`, the `\s`
    class of regular expressions, `toLowerCase()` and the decimal text of a
    number in a template literal. */
module JsText {

  /** ECMAScript WhiteSpace and LineTerminator code points: what `trim()` strips
      and what `\s` matches. */
  predicate IsWhitespace(c: char)
  {
    c == '\t' || c == '\n' || c == '\U{B}' || c == '\U{C}' || c == '\r' || c == ' '
    || c == '\U{A0}' || c == '\U{1680}' || ('\U{2000}' <= c <= '\U{200A}')
    || c == '\U{2028}' || c == '\U{2029}' || c == '\U{202F}' || c == '\U{205F}'
    || c == '\U{3000}' || c == '\U{FEFF}'
  }

  predicate IsBlank(s: string)
  {
    forall i :: 0 <= i < |s| ==> IsWhitespace(s[i])
  }

  /** `s` without its leading whitespace. */
  function TrimStart(s: string): (r: string)
    ensures |r| <= |s| && r == s[|s| - |r|..]
    ensures r == [] || !IsWhitespace(r[0])
    ensures IsBlank(s[..|s| - |r|])
  {
    if s != [] && IsWhitespace(s[0]) then TrimStart(s[1..]) else s
  }

  /** `s` without its trailing whitespace. */
  function TrimEnd(s: string): (r: string)
    ensures |r| <= |s| && r == s[..|r|]
    ensures r == [] || !IsWhitespace(r[|r| - 1])
    ensures IsBlank(s[|r|..])
  {
    if s != [] && IsWhitespace(s[|s| - 1]) then TrimEnd(s[..|s| - 1]) else s
  }

  /** `String.prototype.trim`. */
  function Trim(s: string): string
  {
    TrimEnd(TrimStart(s))
  }

  /** `trim()` keeps a contiguous part of `s`, drops only whitespace around it,
      and leaves no whitespace at either end. */
  lemma TrimSpec(s: string)
    ensures exists i :: KeptAt(s, Trim(s), i)
    ensures var r := Trim(s); r == [] || (!IsWhitespace(r[0]) && !IsWhitespace(r[|r| - 1]))
  {
    var t := TrimStart(s);
    var r := TrimEnd(t);
    var i := |s| - |t|;
    TrimEndInside(s, i, t, r);
    assert r == Trim(s) && KeptAt(s, r, i);
    TrimEnds(t, r);
  }

  /** `r` is the part of `s` that starts at `i`, with only whitespace before and
      after it. */
  predicate KeptAt(s: string, r: string, i: int)
  {
    0 <= i <= |s| - |r| && r == s[i..i + |r|] && IsBlank(s[..i]) && IsBlank(s[i + |r|..])
  }

  /** Where the part `trim()` keeps sits inside `s`. */
  lemma TrimEndInside(s: string, i: int, t: string, r: string)
    requires 0 <= i <= |s| && t == s[i..] && IsBlank(s[..i])
    requires |r| <= |t| && r == t[..|r|] && IsBlank(t[|r|..])
    ensures 0 <= i <= |s| - |r| && r == s[i..i + |r|] && IsBlank(s[..i]) && IsBlank(s[i + |r|..])
  {
    assert s[i + |r|..] == t[|r|..];
  }

  /** Neither end of the trimmed text is whitespace. */
  lemma TrimEnds(t: string, r: string)
    requires |r| <= |t| && r == t[..|r|]
    requires t == [] || !IsWhitespace(t[0])
    requires r == [] || !IsWhitespace(r[|r| - 1])
    ensures r == [] || (!IsWhitespace(r[0]) && !IsWhitespace(r[|r| - 1]))
  {
    if r != [] {
      assert r[0] == t[0];
    }
  }

  /** Trimming never lengthens a text. */
  lemma TrimShortens(s: string)
    ensures |Trim(s)| <= |s|
  {
  }

  /** Trimming twice is trimming once. */
  lemma TrimIdempotent(s: string)
    ensures Trim(Trim(s)) == Trim(s)
  {
    TrimSpec(s);
  }

  /** `trim()` leaves nothing exactly when the text is all whitespace. */
  lemma TrimEmptyIffBlank(s: string)
    ensures Trim(s) == [] <==> IsBlank(s)
  {
    var t := TrimStart(s);
    if Trim(s) == [] {
      assert s == s[..|s| - |t|] + t;
    }
  }

  /** No whitespace at either end: what `trim()` leaves. */
  predicate IsTrimmed(s: string)
  {
    s == [] || (!IsWhitespace(s[0]) && !IsWhitespace(s[|s| - 1]))
  }

  /** A text is trimmed exactly when `trim()` leaves it as it is. */
  lemma TrimmedIffFixed(s: string)
    ensures IsTrimmed(s) <==> Trim(s) == s
    ensures IsTrimmed(Trim(s))
  {
    TrimSpec(s);
    if IsTrimmed(s) && s != [] {
      assert TrimStart(s) == s;
      assert TrimEnd(s) == s;
    }
  }

  /** `s.replace(/\s+/g, '-')`: every maximal run of whitespace becomes one `-`. */
  function HyphenateWhitespace(s: string): (r: string)
    ensures forall i :: 0 <= i < |r| ==> !IsWhitespace(r[i])
    decreases |s|
  {
    if s == [] then []
    else if IsWhitespace(s[0]) then "-" + HyphenateWhitespace(TrimStart(s))
    else [s[0]] + HyphenateWhitespace(s[1..])
  }

  /** Text without whitespace passes through the replacement unchanged. */
  lemma {:induction false} HyphenateNoWhitespace(s: string)
    requires forall i :: 0 <= i < |s| ==> !IsWhitespace(s[i])
    ensures HyphenateWhitespace(s) == s
    decreases |s|
  {
    if s != [] {
      HyphenateNoWhitespace(s[1..]);
    }
  }

  /** A whitespace run `w` between two non-whitespace boundaries becomes a single
      `-`, whatever its length. */
  lemma {:induction false} HyphenateRun(a: string, w: string, b: string)
    requires w != [] && IsBlank(w)
    requires a == [] || !IsWhitespace(a[|a| - 1])
    requires b == [] || !IsWhitespace(b[0])
    ensures HyphenateWhitespace(a + w + b) == HyphenateWhitespace(a) + "-" + HyphenateWhitespace(b)
    decreases |a|, 1
  {
    if a == [] {
      assert a + w + b == w + b;
      RunDropped(w, b);
      assert IsWhitespace((w + b)[0]);
    } else if IsWhitespace(a[0]) {
      HyphenateRunAfterSpace(a, w, b);
    } else {
      HyphenateRunAfterChar(a, w, b);
    }
  }

  lemma {:induction false} HyphenateRunAfterSpace(a: string, w: string, b: string)
    requires w != [] && IsBlank(w)
    requires a != [] && IsWhitespace(a[0]) && !IsWhitespace(a[|a| - 1])
    requires b == [] || !IsWhitespace(b[0])
    ensures HyphenateWhitespace(a + w + b) == HyphenateWhitespace(a) + "-" + HyphenateWhitespace(b)
    decreases |a|, 0
  {
    var a' := TrimStart(a);
    LeadingSpaceDropped(a, w, b);
    HyphenateRun(a', w, b);
    Associate("-", HyphenateWhitespace(a'), HyphenateWhitespace(b));
  }

  lemma LeadingSpaceDropped(a: string, w: string, b: string)
    requires a != [] && IsWhitespace(a[0]) && !IsWhitespace(a[|a| - 1])
    ensures var a' := TrimStart(a);
      |a'| < |a| && a' != [] && !IsWhitespace(a'[|a'| - 1])
      && HyphenateWhitespace(a) == "-" + HyphenateWhitespace(a')
      && HyphenateWhitespace(a + w + b) == "-" + HyphenateWhitespace(a' + w + b)
  {
    var a' := TrimStart(a);
    var c := w + b;
    LeadingSpaceInContext(a, c);
    Regroup(a, w, b);
    Regroup(a', w, b);
  }

  lemma Regroup(x: string, w: string, b: string)
    ensures x + w + b == x + (w + b)
  {
  }

  /** The leading whitespace run of `a` stays the leading run of `a + c`. */
  lemma LeadingSpaceInContext(a: string, c: string)
    requires a != [] && IsWhitespace(a[0]) && !IsWhitespace(a[|a| - 1])
    ensures var a' := TrimStart(a);
      |a'| < |a| && a' != [] && !IsWhitespace(a'[|a'| - 1])
      && HyphenateWhitespace(a + c) == "-" + HyphenateWhitespace(a' + c)
  {
    TrimStartKeepsTail(a, c);
    assert (a + c)[0] == a[0];
  }

  lemma {:induction false} HyphenateRunAfterChar(a: string, w: string, b: string)
    requires w != [] && IsBlank(w)
    requires a != [] && !IsWhitespace(a[0]) && !IsWhitespace(a[|a| - 1])
    requires b == [] || !IsWhitespace(b[0])
    ensures HyphenateWhitespace(a + w + b) == HyphenateWhitespace(a) + "-" + HyphenateWhitespace(b)
    decreases |a|, 0
  {
    var t := a[1..];
    var x, y := HyphenateWhitespace(t), HyphenateWhitespace(b);
    assert HyphenateWhitespace(a + w + b) == [a[0]] + HyphenateWhitespace(t + w + b) by {
      var c := w + b;
      assert a + w + b == a + c;
      assert (a + c)[1..] == t + c;
      assert t + c == t + w + b;
      assert (a + c)[0] == a[0];
    }
    assert HyphenateWhitespace(t + w + b) == x + "-" + y by {
      if t != [] {
        assert t[|t| - 1] == a[|a| - 1];
      }
      HyphenateRun(t, w, b);
    }
    assert HyphenateWhitespace(a) == [a[0]] + x;
    calc {
      HyphenateWhitespace(a + w + b);
      [a[0]] + HyphenateWhitespace(t + w + b);
      [a[0]] + (x + "-" + y);
      { Associate([a[0]], x, y); }
      ([a[0]] + x) + "-" + y;
      HyphenateWhitespace(a) + "-" + y;
    }
  }

  lemma Associate(p: string, x: string, y: string)
    ensures p + (x + "-" + y) == (p + x) + "-" + y
  {
  }

  /** Leading whitespace of `a` is all that `trim` drops from `a + c` when `a`
      ends in something else. */
  lemma {:induction false} TrimStartKeepsTail(a: string, c: string)
    requires a != [] && !IsWhitespace(a[|a| - 1])
    ensures TrimStart(a + c) == TrimStart(a) + c
    decreases |a|
  {
    if IsWhitespace(a[0]) {
      assert (a + c)[1..] == a[1..] + c;
      TrimStartKeepsTail(a[1..], c);
    }
  }

  lemma {:induction false} RunDropped(w: string, b: string)
    requires IsBlank(w)
    requires b == [] || !IsWhitespace(b[0])
    ensures TrimStart(w + b) == b
    decreases |w|
  {
    if w != [] {
      assert (w + b)[1..] == w[1..] + b;
      RunDropped(w[1..], b);
    } else {
      assert w + b == b;
    }
  }

  /** `toLowerCase()` on one character, for the ASCII letters. */
  function LowerChar(c: char): char
  {
    if 'A' <= c <= 'Z' then (c as int + 32) as char else c
  }

  /** `toLowerCase()`, for the ASCII letters. */
  function ToLower(s: string): (r: string)
    ensures |r| == |s| && forall i :: 0 <= i < |s| ==> r[i] == LowerChar(s[i])
  {
    seq(|s|, i requires 0 <= i < |s| => LowerChar(s[i]))
  }

  predicate IsDigit(c: char)
  {
    '0' <= c <= '9'
  }

  function DigitChar(d: nat): char
    requires d < 10
  {
    (d + '0' as int) as char
  }

  /** The decimal text of a non-negative integer, as `${n}` renders it. */
  function NatToString(n: nat): (r: string)
    ensures |r| >= 1 && forall i :: 0 <= i < |r| ==> IsDigit(r[i])
    ensures r[0] == '0' ==> n == 0
  {
    if n < 10 then [DigitChar(n)] else NatToString(n / 10) + [DigitChar(n % 10)]
  }

  function DigitValue(c: char): nat
    requires IsDigit(c)
  {
    c as int - '0' as int
  }

  /** The number a run of decimal digits denotes. */
  function DigitsValue(s: string): nat
    requires forall i :: 0 <= i < |s| ==> IsDigit(s[i])
  {
    if s == [] then 0 else DigitsValue(s[..|s| - 1]) * 10 + DigitValue(s[|s| - 1])
  }

  /** The decimal text reads back as the number it was made from. */
  lemma {:induction false} NatToStringRoundTrip(n: nat)
    ensures DigitsValue(NatToString(n)) == n
  {
    if n >= 10 {
      NatToStringRoundTrip(n / 10);
      var s := NatToString(n);
      assert s[..|s| - 1] == NatToString(n / 10);
    }
  }

  /** The decimal text of an integer, with a leading `-` when negative. */
  function IntToString(n: int): (r: string)
    ensures n < 0 <==> (r != [] && r[0] == '-')
  {
    if n < 0 then "-" + NatToString(-n) else NatToString(n)
  }

  lemma NatToStringInjective(a: nat, b: nat)
    requires NatToString(a) == NatToString(b)
    ensures a == b
  {
    NatToStringRoundTrip(a);
    NatToStringRoundTrip(b);
  }

  /** Distinct integers have distinct decimal texts. */
  lemma IntToStringInjective(a: int, b: int)
    requires IntToString(a) == IntToString(b)
    ensures a == b
  {
    var s := IntToString(a);
    if a < 0 && b < 0 {
      assert s[1..] == NatToString(-a);
      assert s[1..] == NatToString(-b);
      NatToStringInjective(-a, -b);
    } else if a >= 0 && b >= 0 {
      NatToStringInjective(a, b);
    }
  }
}
