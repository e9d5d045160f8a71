/**
 * The Python string operations the chat dispatcher and the CSV import rely on:
 * `str.strip`, `str.lower`, `str.title`, `str.split`, `int(str)`, and the
 * code-point order that both Python's `sorted` and SQLite's BINARY collation use.
 *
 * Letters are modelled for ASCII and for the Latin-1 letters that have a
 * one-character case partner (U+00C0..U+00FE without U+00D7, U+00DF and U+00F7);
 * every vocabulary entry of the shop is written in that alphabet.
 */
module Text {
  import opened Wrappers

  // ---------------------------------------------------------------------------
  // Character classes
  // ---------------------------------------------------------------------------

  /** Python's `str.isspace`: the characters `strip()` and `split()` remove. */
  predicate IsSpace(c: char) {
    c == ' ' || ('\t' <= c <= '\r') || ('\U{1c}' <= c <= '\U{1f}')
    || c == '\U{85}' || c == '\U{a0}' || c == '\U{1680}'
    || ('\U{2000}' <= c <= '\U{200a}') || c == '\U{2028}' || c == '\U{2029}'
    || c == '\U{202f}' || c == '\U{205f}' || c == '\U{3000}'
  }

  predicate IsUpper(c: char) {
    ('A' <= c <= 'Z') || ('\U{c0}' <= c <= '\U{de}' && c != '\U{d7}')
  }

  predicate IsLower(c: char) {
    ('a' <= c <= 'z') || ('\U{e0}' <= c <= '\U{fe}' && c != '\U{f7}')
  }

  /** A character with a case (Python's "cased" characters, within the modelled alphabet). */
  predicate IsCased(c: char) {
    IsUpper(c) || IsLower(c)
  }

  function ToLower(c: char): (r: char)
    ensures IsCased(r) == IsCased(c)
    ensures !IsUpper(r)
    ensures !IsCased(c) ==> r == c
  {
    if IsUpper(c) then (c as int + 32) as char else c
  }

  function ToUpper(c: char): (r: char)
    ensures IsCased(r) == IsCased(c)
    ensures !IsLower(r)
    ensures !IsCased(c) ==> r == c
  {
    if IsLower(c) then (c as int - 32) as char else c
  }

  predicate IsDigit(c: char) {
    '0' <= c <= '9'
  }

  // ---------------------------------------------------------------------------
  // strip, lower, title
  // ---------------------------------------------------------------------------

  /** `s.lstrip()`: drops the leading whitespace and nothing else. */
  function TrimStart(s: string): (r: string)
    ensures |r| <= |s|
    ensures r == [] || !IsSpace(r[0])
  {
    if s != [] && IsSpace(s[0]) then TrimStart(s[1..]) else s
  }

  /** What `lstrip()` keeps is the end of the text. */
  lemma {:induction false} TrimStartIsSuffix(s: string)
    ensures TrimStart(s) == s[|s| - |TrimStart(s)|..]
  {
    if s != [] && IsSpace(s[0]) {
      TrimStartIsSuffix(s[1..]);
    }
  }

  /** What `lstrip()` drops is whitespace. */
  lemma {:induction false} TrimStartDropsSpaces(s: string)
    ensures forall k :: 0 <= k < |s| - |TrimStart(s)| ==> IsSpace(s[k])
  {
    if s != [] && IsSpace(s[0]) {
      TrimStartDropsSpaces(s[1..]);
      assert forall k :: 1 <= k < |s| ==> s[k] == s[1..][k - 1];
    }
  }

  /** `s.rstrip()`: drops the trailing whitespace and nothing else. */
  function TrimEnd(s: string): (r: string)
    ensures |r| <= |s|
    ensures r == [] || !IsSpace(r[|r| - 1])
  {
    if s != [] && IsSpace(s[|s| - 1]) then TrimEnd(s[..|s| - 1]) else s
  }

  /** What `rstrip()` keeps is the start of the text. */
  lemma {:induction false} TrimEndIsPrefix(s: string)
    ensures TrimEnd(s) == s[..|TrimEnd(s)|]
  {
    if s != [] && IsSpace(s[|s| - 1]) {
      TrimEndIsPrefix(s[..|s| - 1]);
    }
  }

  /** What `rstrip()` drops is whitespace. */
  lemma {:induction false} TrimEndDropsSpaces(s: string)
    ensures forall k :: |TrimEnd(s)| <= k < |s| ==> IsSpace(s[k])
  {
    if s != [] && IsSpace(s[|s| - 1]) {
      TrimEndDropsSpaces(s[..|s| - 1]);
    }
  }

  /** `s.strip()` */
  function Strip(s: string): (r: string)
    ensures r == [] || (!IsSpace(r[0]) && !IsSpace(r[|r| - 1]))
  {
    var u := TrimStart(s);
    TrimEndIsPrefix(u);
    TrimEnd(u)
  }

  /** `s.lower()` */
  function Lower(s: string): (r: string)
    ensures |r| == |s|
    ensures forall i :: 0 <= i < |s| ==> r[i] == ToLower(s[i])
  {
    seq(|s|, i requires 0 <= i < |s| => ToLower(s[i]))
  }

  /** Text with no upper-case letter is its own `lower()`. */
  lemma LowerUncased(s: string)
    requires forall k :: 0 <= k < |s| ==> !IsUpper(s[k])
    ensures Lower(s) == s
  {
  }

  /**
   * `s.title()`: a cased character is upper-cased when the character before it
   * is not cased (or it is the first one) and lower-cased otherwise.
   */
  function Title(s: string): (r: string)
    ensures |r| == |s|
  {
    seq(|s|, i requires 0 <= i < |s| => if i > 0 && IsCased(s[i - 1]) then ToLower(s[i]) else ToUpper(s[i]))
  }

  /** A character of `Title(s)` is cased exactly when the character of `s` is. */
  lemma TitleKeepsCasedness(s: string, i: int)
    requires 0 <= i < |s|
    ensures IsCased(Title(s)[i]) == IsCased(s[i])
  {
  }

  /** Title-casing twice is title-casing once: what `title()` returns is a fixed point. */
  lemma TitleIdempotent(s: string)
    ensures Title(Title(s)) == Title(s)
  {
    var t := Title(s);
    forall i | 0 <= i < |s|
      ensures Title(t)[i] == t[i]
    {
      if i > 0 {
        TitleKeepsCasedness(s, i - 1);
      }
    }
  }

  /** Lower-casing first does not change what `title()` produces. */
  lemma TitleOfLower(s: string)
    ensures Title(Lower(s)) == Title(s)
  {
    var l := Lower(s);
    forall i | 0 <= i < |s|
      ensures Title(l)[i] == Title(s)[i]
    {
      CaseOfLower(s[i]);
      if i > 0 {
        CaseOfLower(s[i - 1]);
      }
    }
  }

  /** Lower-casing a character first changes neither its lower nor its upper case. */
  lemma CaseOfLower(c: char)
    ensures IsCased(ToLower(c)) == IsCased(c)
    ensures ToLower(ToLower(c)) == ToLower(c) && ToUpper(ToLower(c)) == ToUpper(c)
  {
  }

  /**
   * A string is `title(lower(x))` for some `x` exactly when it is its own title
   * case; `e` itself is then such an `x`.
   */
  lemma TitleImageIsFixedPoints(x: string, e: string)
    ensures Title(Lower(x)) == e ==> Title(e) == e
    ensures Title(e) == e ==> Title(Lower(e)) == e
  {
    TitleOfLower(x);
    TitleIdempotent(x);
    TitleOfLower(e);
  }

  // ---------------------------------------------------------------------------
  // split
  // ---------------------------------------------------------------------------

  /** Length of the leading run of non-space characters. */
  function TokenLength(s: string): (n: nat)
    ensures n <= |s|
    ensures forall k :: 0 <= k < n ==> !IsSpace(s[k])
    ensures n < |s| ==> IsSpace(s[n])
  {
    if s == [] || IsSpace(s[0]) then 0 else 1 + TokenLength(s[1..])
  }

  /** `s.split()`: the maximal runs of non-space characters, in order. */
  function Words(s: string): seq<string>
    decreases |s|
  {
    var t := TrimStart(s);
    if t == [] then [] else
      var n := TokenLength(t);
      [t[..n]] + Words(t[n..])
  }

  /** A run of non-space characters followed by a space or the end is one token. */
  lemma TokenOfWord(a: string, rest: string)
    requires forall k :: 0 <= k < |a| ==> !IsSpace(a[k])
    requires rest == [] || IsSpace(rest[0])
    ensures TokenLength(a + rest) == |a|
  {
    var s := a + rest;
    var n := TokenLength(s);
    if rest != [] {
      assert s[|a|] == rest[0];
    }
  }

  /** A word followed by a space and more text splits into that word and the words of the rest. */
  lemma WordsOfWordThenSpace(a: string, rest: string)
    requires a != [] && forall k :: 0 <= k < |a| ==> !IsSpace(a[k])
    requires rest == [] || IsSpace(rest[0])
    ensures Words(a + rest) == [a] + Words(rest)
  {
    var s := a + rest;
    assert !IsSpace(s[0]);
    assert TrimStart(s) == s;
    TokenOfWord(a, rest);
    assert s[..|a|] == a && s[|a|..] == rest;
  }

  /** Leading whitespace does not change what `split()` returns. */
  lemma WordsAfterSpace(c: char, b: string)
    requires IsSpace(c)
    ensures Words([c] + b) == Words(b)
  {
    assert ([c] + b)[1..] == b;
  }

  /** Two words separated by one space split into those two words. */
  lemma WordsOfTwo(a: string, b: string)
    requires a != [] && forall k :: 0 <= k < |a| ==> !IsSpace(a[k])
    requires b != [] && forall k :: 0 <= k < |b| ==> !IsSpace(b[k])
    ensures Words(a + " " + b) == [a, b]
  {
    var t := [' '] + b;
    assert Words(t) == [b] by {
      WordsAfterSpace(' ', b);
      WordsOfWordThenSpace(b, []);
      assert b + [] == b;
    }
    WordsOfWordThenSpace(a, t);
    assert a + " " + b == a + t;
  }

  /** Every word of `split()` is non-empty and holds no whitespace. */
  lemma {:induction false} WordsAreTokens(s: string)
    ensures forall i :: 0 <= i < |Words(s)| ==> Words(s)[i] != [] && forall k :: 0 <= k < |Words(s)[i]| ==> !IsSpace(Words(s)[i][k])
    decreases |s|
  {
    var t := TrimStart(s);
    if t != [] {
      var n := TokenLength(t);
      WordsAreTokens(t[n..]);
    }
  }

  // ---------------------------------------------------------------------------
  // int(str)
  // ---------------------------------------------------------------------------

  function DigitOf(c: char): (n: nat)
    requires IsDigit(c)
    ensures n <= 9
  {
    c as int - '0' as int
  }

  /**
   * The decimal value of `t` when it is digits with single underscores between
   * them (no leading, trailing or doubled underscore), None otherwise.
   */
  function DigitGroupValue(t: string): Option<nat>
    decreases |t|
  {
    if t == [] || !IsDigit(t[|t| - 1]) then None
    else if |t| == 1 then Some(DigitOf(t[0]))
    else
      var init := t[..|t| - 1];
      var head := if init[|init| - 1] == '_' then init[..|init| - 1] else init;
      match DigitGroupValue(head)
      case None => None
      case Some(v) => Some(10 * v + DigitOf(t[|t| - 1]))
  }

  /** A digit group is made of digits and underscores only, and both its ends are digits. */
  lemma {:induction false} DigitGroupShape(t: string)
    requires DigitGroupValue(t).Some?
    ensures |t| > 0 && IsDigit(t[0]) && IsDigit(t[|t| - 1])
    ensures forall k :: 0 <= k < |t| ==> IsDigit(t[k]) || t[k] == '_'
    decreases |t|
  {
    if |t| > 1 {
      var init := t[..|t| - 1];
      var head := if init[|init| - 1] == '_' then init[..|init| - 1] else init;
      DigitGroupShape(head);
      assert forall k :: 0 <= k < |head| ==> t[k] == head[k];
    }
  }

  /** `int` of the sign and digits left by `strip()`. */
  function SignedValue(t: string): Option<int> {
    if |t| > 0 && (t[0] == '-' || t[0] == '+') then
      match DigitGroupValue(t[1..])
      case None => None
      case Some(v) =>
        var n: int := v;
        Some(if t[0] == '-' then -n else n)
    else
      match DigitGroupValue(t)
      case None => None
      case Some(v) => Some(v)
  }

  /**
   * The whitespace CPython's `int()` skips at either end. It first rewrites
   * each `isspace` character above U+007F to a blank and copies ASCII
   * unchanged, then skips only space and `\t`..`\r`; so U+001C..U+001F, though
   * `isspace`, are never skipped.
   */
  predicate IsIntSpace(c: char) {
    c == ' ' || ('\t' <= c <= '\r') || (c >= '\U{80}' && IsSpace(c))
  }

  /** `s` without the `IsIntSpace` characters at either end. */
  function StripIntSpace(s: string): (r: string)
    ensures r == [] || (!IsIntSpace(r[0]) && !IsIntSpace(r[|r| - 1]))
    ensures forall k :: 0 <= k < |r| ==> r[k] in s
    decreases |s|
  {
    if s != [] && IsIntSpace(s[0]) then StripIntSpace(s[1..])
    else if s != [] && IsIntSpace(s[|s| - 1]) then StripIntSpace(s[..|s| - 1])
    else s
  }

  /**
   * `int(s)` with base 10: surrounding whitespace, an optional sign, then
   * decimal digits with single underscores between them; None is ValueError.
   */
  function ParseInt(s: string): Option<int> {
    SignedValue(StripIntSpace(s))
  }

  /** Text `int` accepts holds a digit; in particular the empty text and a lone sign are refused. */
  lemma ParseIntNeedsADigit(s: string)
    requires ParseInt(s).Some?
    ensures exists k :: 0 <= k < |s| && IsDigit(s[k])
  {
    var t := StripIntSpace(s);
    var d := if |t| > 0 && (t[0] == '-' || t[0] == '+') then t[1..] else t;
    DigitGroupShape(d);
    assert d[0] in t;
    assert d[0] in s;
  }

  /** A control character U+001C..U+001F around the digits makes `int()` refuse the text. */
  lemma ParseIntRefusesFileSeparator()
    ensures ParseInt("\U{1c}5").None?
  {
    assert StripIntSpace("\U{1c}5") == "\U{1c}5";
  }

  /** The same holds when the text also has non-ASCII whitespace, which `int()` does skip. */
  lemma ParseIntRefusesFileSeparatorBeforeNoBreakSpace()
    ensures ParseInt("\U{1c}5\U{a0}").None?
  {
    assert StripIntSpace("\U{1c}5\U{a0}") == StripIntSpace("\U{1c}5");
    assert StripIntSpace("\U{1c}5") == "\U{1c}5";
  }

  /** Non-ASCII whitespace around the digits is skipped: `int("5\xa0") == 5`. */
  lemma ParseIntSkipsNoBreakSpace()
    ensures ParseInt("5\U{a0}") == Some(5)
  {
    assert StripIntSpace("5\U{a0}") == StripIntSpace("5");
    assert StripIntSpace("5") == "5";
  }

  /** The decimal digits of `n`, most significant first, no leading zero. */
  function NatDigits(n: nat): (r: string)
    ensures |r| > 0 && forall k :: 0 <= k < |r| ==> IsDigit(r[k])
    ensures |r| > 1 ==> r[0] != '0'
  {
    if n < 10 then [('0' as int + n) as char] else NatDigits(n / 10) + [('0' as int + n % 10) as char]
  }

  /** `str(n)` for an integer. */
  function IntToString(n: int): (r: string)
    ensures |r| > 0 && IsDigit(r[|r| - 1])
    ensures forall k :: 0 <= k < |r| ==> IsDigit(r[k]) || r[k] == '-'
  {
    if n < 0 then "-" + NatDigits(-n) else NatDigits(n)
  }

  lemma {:induction false} NatDigitsValue(n: nat)
    ensures DigitGroupValue(NatDigits(n)) == Some(n)
  {
    if n >= 10 {
      var d := NatDigits(n);
      assert d[..|d| - 1] == NatDigits(n / 10);
      NatDigitsValue(n / 10);
    }
  }

  /** `int(str(n)) == n` for every integer: every integer literal, negatives included, is accepted. */
  lemma ParseIntOfString(n: int)
    ensures ParseInt(IntToString(n)) == Some(n)
  {
    var s := IntToString(n);
    assert StripIntSpace(s) == s;
    SignedValueOfString(n);
  }

  lemma SignedValueOfString(n: int)
    ensures SignedValue(IntToString(n)) == Some(n)
  {
    var s := IntToString(n);
    if n < 0 {
      NatDigitsValue(-n);
      assert s[1..] == NatDigits(-n);
    } else {
      NatDigitsValue(n);
    }
  }

  /** `strip()` keeps a contiguous part of the text: what follows the leading whitespace. */
  lemma StripIsInfix(s: string)
    ensures var a := |s| - |TrimStart(s)|;
            a + |Strip(s)| <= |s| && Strip(s) == s[a..a + |Strip(s)|]
  {
    var u := TrimStart(s);
    var a := |s| - |u|;
    var t := Strip(s);
    TrimStartIsSuffix(s);
    TrimEndIsPrefix(u);
  }

  /** A string that neither starts nor ends with whitespace is its own `strip()`. */
  lemma StripUnspaced(s: string)
    requires s == [] || (!IsSpace(s[0]) && !IsSpace(s[|s| - 1]))
    ensures Strip(s) == s
  {
    assert TrimStart(s) == s;
  }

  // ---------------------------------------------------------------------------
  // Code-point order (Python str comparison, SQLite BINARY collation)
  // ---------------------------------------------------------------------------

  /** `a <= b` on strings: lexicographic on code points, a prefix first. */
  predicate StrLe(a: string, b: string)
    decreases |a|
  {
    a == [] || (b != [] && (a[0] < b[0] || (a[0] == b[0] && StrLe(a[1..], b[1..]))))
  }

  predicate StrLt(a: string, b: string) {
    StrLe(a, b) && a != b
  }

  lemma {:induction false} StrLeTotal(a: string, b: string)
    ensures StrLe(a, b) || StrLe(b, a)
    decreases |a|
  {
    if a != [] && b != [] && a[0] == b[0] {
      StrLeTotal(a[1..], b[1..]);
    }
  }

  lemma {:induction false} StrLeAntisymmetric(a: string, b: string)
    requires StrLe(a, b) && StrLe(b, a)
    ensures a == b
    decreases |a|
  {
    if a != [] {
      StrLeAntisymmetric(a[1..], b[1..]);
      assert a == [a[0]] + a[1..] && b == [b[0]] + b[1..];
    }
  }

  lemma {:induction false} StrLeTransitive(a: string, b: string, c: string)
    requires StrLe(a, b) && StrLe(b, c)
    ensures StrLe(a, c)
    decreases |a|
  {
    if a != [] && a[0] == b[0] && b[0] == c[0] {
      StrLeTransitive(a[1..], b[1..], c[1..]);
    }
  }

  /** Two different strings are strictly ordered one way or the other. */
  lemma StrLtTotal(a: string, b: string)
    requires a != b
    ensures StrLt(a, b) || StrLt(b, a)
  {
    StrLeTotal(a, b);
  }
}
