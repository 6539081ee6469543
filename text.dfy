/**
 * The string operations the scanner and its rules rely on, restricted to
 * ASCII: `str.lower`, `str.upper`, `str.strip`, `startswith`, `in`, `int()`
 * on a string and `str()` on an integer.
 */
module Text {
  import opened Wrappers

  predicate IsDigit(c: char) { '0' <= c <= '9' }

  predicate AllDigits(s: string) { forall i :: 0 <= i < |s| ==> IsDigit(s[i]) }

  function LowerChar(c: char): char {
    if 'A' <= c <= 'Z' then (c as int + 32) as char else c
  }

  function UpperChar(c: char): char {
    if 'a' <= c <= 'z' then (c as int - 32) as char else c
  }

  /** `s.lower()`: every ASCII capital replaced by its small letter. */
  function Lower(s: string): (r: string)
    ensures |r| == |s|
    ensures forall i :: 0 <= i < |s| ==> r[i] == LowerChar(s[i])
  {
    seq(|s|, i requires 0 <= i < |s| => LowerChar(s[i]))
  }

  /** `s.upper()`. */
  function Upper(s: string): (r: string)
    ensures |r| == |s|
    ensures forall i :: 0 <= i < |s| ==> r[i] == UpperChar(s[i])
  {
    seq(|s|, i requires 0 <= i < |s| => UpperChar(s[i]))
  }

  predicate StartsWith(s: string, prefix: string) {
    |prefix| <= |s| && s[..|prefix|] == prefix
  }

  predicate EndsWith(s: string, suffix: string) {
    |suffix| <= |s| && s[|s| - |suffix|..] == suffix
  }

  /** `t in s` on strings. */
  predicate Contains(s: string, t: string) {
    exists i | 0 <= i <= |s| :: OccursAt(s, t, i)
  }

  predicate OccursAt(s: string, t: string, i: int) {
    0 <= i && i + |t| <= |s| && s[i..i + |t|] == t
  }

  /** The whitespace `str.strip()` removes (its ASCII part). */
  predicate IsSpace(c: char) {
    c == ' ' || 9 <= c as int <= 13 || 28 <= c as int <= 31
  }

  function StripLeft(s: string): (r: string)
    ensures |r| <= |s| && r == s[|s| - |r|..]
    ensures r == [] || !IsSpace(r[0])
  {
    if s != [] && IsSpace(s[0]) then StripLeft(s[1..]) else s
  }

  function StripRight(s: string): (r: string)
    ensures |r| <= |s| && r == s[..|r|]
    ensures r == [] || !IsSpace(r[|r| - 1])
  {
    if s != [] && IsSpace(s[|s| - 1]) then StripRight(s[..|s| - 1]) else s
  }

  /** `s.strip()`. */
  function Strip(s: string): string {
    StripRight(StripLeft(s))
  }

  predicate AllSpace(s: string) { forall i :: 0 <= i < |s| ==> IsSpace(s[i]) }

  lemma {:induction false} StripLeftSpaces(pre: string, t: string)
    requires AllSpace(pre)
    ensures StripLeft(pre + t) == StripLeft(t)
  {
    if pre != [] {
      assert (pre + t)[0] == pre[0] && IsSpace(pre[0]);
      assert (pre + t)[1..] == pre[1..] + t;
      StripLeftSpaces(pre[1..], t);
    } else {
      assert pre + t == t;
    }
  }

  lemma {:induction false} StripRightSpaces(t: string, post: string)
    requires AllSpace(post)
    ensures StripRight(t + post) == StripRight(t)
  {
    if post != [] {
      var init := post[..|post| - 1];
      assert (t + post)[|t + post| - 1] == post[|post| - 1] && IsSpace(post[|post| - 1]);
      assert (t + post)[..|t + post| - 1] == t + init;
      StripRightSpaces(t, init);
    } else {
      assert t + post == t;
    }
  }

  /**
   * `strip()` removes exactly the whitespace around a text that neither
   * starts nor ends with whitespace, whatever that whitespace is.
   */
  lemma StripSurrounding(pre: string, t: string, post: string)
    requires AllSpace(pre) && AllSpace(post)
    requires t != [] && !IsSpace(t[0]) && !IsSpace(t[|t| - 1])
    ensures Strip(pre + t + post) == t
  {
    assert pre + t + post == pre + (t + post);
    StripLeftSpaces(pre, t + post);
    assert StripLeft(t + post) == t + post;
    StripRightSpaces(t, post);
  }

  function DigitValue(c: char): nat
    requires IsDigit(c)
  {
    c as int - '0' as int
  }

  /** The number a run of decimal digits denotes. */
  function DigitsValue(s: string): nat
    requires AllDigits(s)
  {
    if s == [] then 0 else DigitsValue(s[..|s| - 1]) * 10 + DigitValue(s[|s| - 1])
  }

  /** `str(n)` for a natural number. */
  function NatToString(n: nat): (r: string)
    ensures r != [] && AllDigits(r)
  {
    if n < 10 then [('0' as int + n) as char]
    else NatToString(n / 10) + [('0' as int + n % 10) as char]
  }

  /** `str(i)` for any integer. */
  function IntToString(i: int): string {
    if i < 0 then "-" + NatToString(-i) else NatToString(i)
  }

  /** Reading back what `NatToString` writes gives the number again. */
  lemma {:induction false} NatToStringRoundTrip(n: nat)
    ensures DigitsValue(NatToString(n)) == n
  {
    var r := NatToString(n);
    if n >= 10 {
      NatToStringRoundTrip(n / 10);
      assert r[..|r| - 1] == NatToString(n / 10);
    }
  }

  /** Only digits and underscores. */
  predicate DigitsOrUnderscores(s: string) {
    forall i :: 0 <= i < |s| ==> IsDigit(s[i]) || s[i] == '_'
  }

  /**
   * The digits `int()` accepts: decimal digits, where a single underscore
   * may separate two of them.
   */
  predicate DigitGroups(s: string) {
    s != [] && IsDigit(s[0]) && DigitsOrUnderscores(s) &&
    forall i :: 0 <= i < |s| && s[i] == '_' ==> i + 1 < |s| && IsDigit(s[i + 1])
  }

  /** The digits of a run of digits and underscores, underscores dropped. */
  function DropUnderscores(s: string): (r: string)
    requires DigitsOrUnderscores(s)
    ensures AllDigits(r)
  {
    if s == [] then []
    else if s[|s| - 1] == '_' then DropUnderscores(s[..|s| - 1])
    else DropUnderscores(s[..|s| - 1]) + [s[|s| - 1]]
  }

  /** `int(s)` for a string: surrounding whitespace, an optional sign, then decimal digits in underscore-separated groups. */
  function ParseInt(s: string): (r: Option<int>)
    ensures r.Some? ==> Strip(s) != []
  {
    var t := Strip(s);
    if t == [] then None
    else if t[0] == '-' || t[0] == '+' then
      var digits := t[1..];
      if DigitGroups(digits) then
        var v: int := DigitsValue(DropUnderscores(digits));
        Some(if t[0] == '-' then -v else v)
      else None
    else if DigitGroups(t) then Some(DigitsValue(DropUnderscores(t)))
    else None
  }

  lemma {:induction false} DropNoUnderscores(s: string)
    requires AllDigits(s)
    ensures DropUnderscores(s) == s
  {
    if s != [] {
      DropNoUnderscores(s[..|s| - 1]);
      assert s[..|s| - 1] + [s[|s| - 1]] == s;
    }
  }

  lemma StripOfDigits(s: string)
    requires s != [] && AllDigits(s)
    ensures Strip(s) == s
  {
    assert !IsSpace(s[0]) && !IsSpace(s[|s| - 1]);
  }

  /** `int(str(n)) == n`. */
  lemma ParseIntOfNatToString(n: nat)
    ensures ParseInt(NatToString(n)) == Some(n)
  {
    var r := NatToString(n);
    StripOfDigits(r);
    assert DigitGroups(r);
    DropNoUnderscores(r);
    NatToStringRoundTrip(n);
  }

  /** An underscore between two digit runs does not change what `int()` reads: `int("1_9") == int("19")`. */
  lemma UnderscoreIgnored(a: string, b: string)
    requires a != [] && AllDigits(a) && b != [] && AllDigits(b)
    ensures ParseInt(a + "_" + b) == ParseInt(a + b) == Some(DigitsValue(a + b))
  {
    var s := a + "_" + b;
    JoinedGroups(a, b);
    JoinedDigits(a, b);
    assert s[|s| - 1] == b[|b| - 1];
    ReadGroups(s);
    assert (a + b)[|a + b| - 1] == b[|b| - 1];
    ReadGroups(a + b);
  }

  /** Unsigned, unpadded digit groups are read as their digits. */
  lemma ReadGroups(s: string)
    requires DigitGroups(s) && !IsSpace(s[|s| - 1])
    ensures DigitsOrUnderscores(s) && ParseInt(s) == Some(DigitsValue(DropUnderscores(s)))
  {
    StripUnpadded(s);
    assert s[0] != '-' && s[0] != '+';
  }

  lemma StripUnpadded(s: string)
    requires s != [] && !IsSpace(s[0]) && !IsSpace(s[|s| - 1])
    ensures Strip(s) == s
  {
  }

  lemma JoinedGroups(a: string, b: string)
    requires a != [] && AllDigits(a) && b != [] && AllDigits(b)
    ensures DigitGroups(a + "_" + b) && DigitGroups(a + b)
  {
    var s := a + "_" + b;
    assert s[0] == a[0] && s[|a| + 1] == b[0];
    forall i | 0 <= i < |s| ensures IsDigit(s[i]) || (i == |a| && s[i] == '_') {
      if i < |a| { assert s[i] == a[i]; }
      else if i > |a| { assert s[i] == b[i - |a| - 1]; }
    }
  }

  lemma Digits(s: string)
    requires AllDigits(s)
    ensures DigitsOrUnderscores(s) && DropUnderscores(s) == s
  {
    DropNoUnderscores(s);
  }

  /** `_b` loses its underscore. */
  lemma DropLeading(b: string)
    requires AllDigits(b)
    ensures DigitsOrUnderscores("_" + b) && DropUnderscores("_" + b) == b
  {
    var u := "_" + b;
    forall i | 0 <= i < |u| ensures IsDigit(u[i]) || u[i] == '_' {
      if i > 0 { assert u[i] == b[i - 1]; }
    }
    Digits(b);
    DropUnderscoresAppend("_", b);
    assert DropUnderscores("_") == [];
  }

  lemma JoinedDigits(a: string, b: string)
    requires a != [] && AllDigits(a) && b != [] && AllDigits(b)
    ensures DigitsOrUnderscores(a + "_" + b)
    ensures DropUnderscores(a + "_" + b) == DropUnderscores(a + b) == a + b
  {
    var u := "_" + b;
    Digits(a);
    DropLeading(b);
    DigitsOrUnderscoresAppend(a, u);
    DropUnderscoresAppend(a, u);
    assert a + "_" + b == a + u;
    Digits(a + b);
  }

  lemma DigitsOrUnderscoresAppend(a: string, b: string)
    requires DigitsOrUnderscores(a) && DigitsOrUnderscores(b)
    ensures DigitsOrUnderscores(a + b)
  {
    forall i | 0 <= i < |a + b| ensures IsDigit((a + b)[i]) || (a + b)[i] == '_' {
      if i < |a| { assert (a + b)[i] == a[i]; } else { assert (a + b)[i] == b[i - |a|]; }
    }
  }

  lemma {:induction false} DropUnderscoresAppend(a: string, b: string)
    requires DigitsOrUnderscores(a) && DigitsOrUnderscores(b)
    ensures DropUnderscores(a + b) == DropUnderscores(a) + DropUnderscores(b)
  {
    if b == [] {
      assert a + b == a;
    } else {
      var init := b[..|b| - 1];
      DropUnderscoresAppend(a, init);
      assert (a + b)[..|a + b| - 1] == a + init;
      assert (a + b)[|a + b| - 1] == b[|b| - 1];
    }
  }
}
