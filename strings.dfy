/** Character classes and the string library operations that the two formatters rely on:
    `trim`/`strip`, `split`/`join` on a separator, substring tests, lower-casing and the
    conversions between decimal digit strings and numbers. */
module Strings {

  datatype Option<T> = None | Some(value: T)

  /** Which runtime's notion of whitespace applies. */
  datatype Lang = JavaScript | Python

  /** `\d` read as the ASCII digits (exact for JavaScript; Python's non-ASCII digits are not modelled). */
  predicate IsDigit(c: char) { '0' <= c <= '9' }
  predicate IsUpper(c: char) { 'A' <= c <= 'Z' }
  predicate IsLower(c: char) { 'a' <= c <= 'z' }
  /** The class `[A-Za-z]`. */
  predicate IsLetter(c: char) { IsUpper(c) || IsLower(c) }

  /** The line terminators, which JavaScript's `.` does not match and where its `^`/`$` match in multiline mode. */
  predicate IsLineTerminator(c: char) {
    c == '\n' || c == '\r' || c == '\U{2028}' || c == '\U{2029}'
  }

  /** Space separators of the Unicode category Zs, shared by both runtimes. */
  predicate IsSpaceSeparator(c: char) {
    c == ' ' || c == '\U{00A0}' || c == '\U{1680}' || ('\U{2000}' <= c <= '\U{200A}')
    || c == '\U{202F}' || c == '\U{205F}' || c == '\U{3000}'
  }

  /** JavaScript's `\s` and the set `trim` removes (WhiteSpace plus LineTerminator);
      Python's `\s`, `strip()` and `split()` (the characters for which `str.isspace` holds). */
  predicate IsSpace(lang: Lang, c: char) {
    match lang
    case JavaScript =>
      c == '\t' || c == '\U{000B}' || c == '\U{000C}' || c == '\U{FEFF}'
      || IsSpaceSeparator(c) || IsLineTerminator(c)
    case Python =>
      ('\t' <= c <= '\r') || ('\U{001C}' <= c <= '\U{001F}') || c == '\U{0085}'
      || IsSpaceSeparator(c) || c == '\U{2028}' || c == '\U{2029}'
  }

  predicate StartsWith(s: string, prefix: string) {
    |prefix| <= |s| && s[..|prefix|] == prefix
  }

  predicate EndsWith(s: string, suffix: string) {
    |suffix| <= |s| && s[|s| - |suffix|..] == suffix
  }

  /** Whether `sub` occurs in `s` (JavaScript `includes`, Python `in`). */
  predicate Contains(s: string, sub: string)
    decreases |s|
  {
    StartsWith(s, sub) || (|s| > 0 && Contains(s[1..], sub))
  }

  lemma {:induction false} ContainsAt(s: string, sub: string, i: nat)
    requires i + |sub| <= |s| && s[i..i + |sub|] == sub
    ensures Contains(s, sub)
    decreases i
  {
    if i > 0 {
      assert s[1..][i - 1..i - 1 + |sub|] == s[i..i + |sub|];
      ContainsAt(s[1..], sub, i - 1);
    }
  }

  /** A character that does not occur in `s` is not part of an occurrence of any `sub` holding it. */
  lemma {:induction false} NotContainsChar(s: string, sub: string, k: nat)
    requires k < |sub| && sub[k] !in s
    ensures !Contains(s, sub)
    decreases |s|
  {
    if |sub| <= |s| {
      assert s[..|sub|][k] == s[k];
    }
    if |s| > 0 {
      NotContainsChar(s[1..], sub, k);
    }
  }

  // ----- trimming -----

  function TrimStart(lang: Lang, s: string): (r: string)
    ensures |r| <= |s|
    decreases |s|
  {
    if |s| > 0 && IsSpace(lang, s[0]) then TrimStart(lang, s[1..]) else s
  }

  function TrimEnd(lang: Lang, s: string): (r: string)
    ensures |r| <= |s|
    decreases |s|
  {
    if |s| > 0 && IsSpace(lang, s[|s| - 1]) then TrimEnd(lang, s[..|s| - 1]) else s
  }

  /** `TrimStart` drops the leading whitespace and nothing else. */
  lemma {:induction false} TrimStartSpec(lang: Lang, s: string)
    ensures var r := TrimStart(lang, s);
      && r == s[|s| - |r|..]
      && (|r| > 0 ==> !IsSpace(lang, r[0]))
      && (forall i :: 0 <= i < |s| - |r| ==> IsSpace(lang, s[i]))
    decreases |s|
  {
    if |s| > 0 && IsSpace(lang, s[0]) {
      TrimStartSpec(lang, s[1..]);
    }
  }

  /** `TrimEnd` drops the trailing whitespace and nothing else. */
  lemma {:induction false} TrimEndSpec(lang: Lang, s: string)
    ensures var r := TrimEnd(lang, s);
      && r == s[..|r|]
      && (|r| > 0 ==> !IsSpace(lang, r[|r| - 1]))
      && (forall i :: |r| <= i < |s| ==> IsSpace(lang, s[i]))
    decreases |s|
  {
    if |s| > 0 && IsSpace(lang, s[|s| - 1]) {
      TrimEndSpec(lang, s[..|s| - 1]);
    }
  }

  /** `String.prototype.trim` / `str.strip()`: the longest infix with no whitespace at either end
      obtained by dropping whitespace only. */
  function Trim(lang: Lang, s: string): string
  {
    TrimEnd(lang, TrimStart(lang, s))
  }

  /** What `Trim` keeps: an infix with no whitespace at either end, with only whitespace dropped
      around it. */
  lemma TrimSpec(lang: Lang, s: string)
    ensures var r, k := Trim(lang, s), |s| - |TrimStart(lang, s)|;
      && (|r| > 0 ==> !IsSpace(lang, r[0]) && !IsSpace(lang, r[|r| - 1]))
      && k + |r| <= |s| && r == s[k..k + |r|]
      && (forall i :: 0 <= i < k ==> IsSpace(lang, s[i]))
      && (forall i :: k + |r| <= i < |s| ==> IsSpace(lang, s[i]))
  {
    var t := TrimStart(lang, s);
    var r := TrimEnd(lang, t);
    TrimStartSpec(lang, s);
    TrimEndSpec(lang, t);
    assert r == s[|s| - |t|..][..|r|];
  }

  /** Trimming only drops characters. */
  lemma TrimAbsent(lang: Lang, s: string, c: char)
    requires c !in s
    ensures c !in Trim(lang, s)
  {
    TrimSpec(lang, s);
    var r, k := Trim(lang, s), |s| - |TrimStart(lang, s)|;
    forall i | 0 <= i < |r| ensures r[i] != c {
      assert r[i] == s[k + i];
    }
  }

  predicate AllSpace(lang: Lang, s: string) {
    forall i :: 0 <= i < |s| ==> IsSpace(lang, s[i])
  }

  /** Whitespace put around a text that neither starts nor ends with whitespace is exactly what
      trimming removes. */
  lemma TrimPadded(lang: Lang, pre: string, x: string, post: string)
    requires AllSpace(lang, pre) && AllSpace(lang, post)
    requires |x| > 0 && !IsSpace(lang, x[0]) && !IsSpace(lang, x[|x| - 1])
    ensures Trim(lang, pre + x + post) == x
  {
    assert pre + x + post == pre + (x + post);
    TrimStartPad(lang, pre, x + post);
    TrimEndPad(lang, x, post);
  }

  lemma {:induction false} TrimStartPad(lang: Lang, pre: string, y: string)
    requires AllSpace(lang, pre) && (|y| > 0 ==> !IsSpace(lang, y[0]))
    ensures TrimStart(lang, pre + y) == y
    decreases |pre|
  {
    if |pre| > 0 {
      assert (pre + y)[0] == pre[0];
      assert (pre + y)[1..] == pre[1..] + y;
      TrimStartPad(lang, pre[1..], y);
    } else {
      assert pre + y == y;
    }
  }

  lemma {:induction false} TrimEndPad(lang: Lang, y: string, post: string)
    requires AllSpace(lang, post) && (|y| > 0 ==> !IsSpace(lang, y[|y| - 1]))
    ensures TrimEnd(lang, y + post) == y
    decreases |post|
  {
    var s := y + post;
    if |post| > 0 {
      assert s[|s| - 1] == post[|post| - 1];
      assert s[..|s| - 1] == y + post[..|post| - 1];
      TrimEndPad(lang, y, post[..|post| - 1]);
    } else {
      assert s == y;
    }
  }

  // ----- split and join -----

  /** `split(sep)` in both runtimes: cut at every occurrence of `sep`, scanning left to right
      without overlap. */
  function SplitOn(s: string, sep: string): (r: seq<string>)
    requires |sep| > 0
    ensures |r| > 0
    decreases |s|
  {
    if |s| < |sep| then [s]
    else if s[..|sep|] == sep then [""] + SplitOn(s[|sep|..], sep)
    else
      var rest := SplitOn(s[1..], sep);
      [[s[0]] + rest[0]] + rest[1..]
  }

  /** `parts.join(sep)` / `sep.join(parts)`. */
  function Join(parts: seq<string>, sep: string): string
    decreases |parts|
  {
    if |parts| == 0 then ""
    else if |parts| == 1 then parts[0]
    else parts[0] + sep + Join(parts[1..], sep)
  }

  /** Joining the pieces of a split with the same separator gives back the original string. */
  lemma {:induction false} JoinSplit(s: string, sep: string)
    requires |sep| > 0
    ensures Join(SplitOn(s, sep), sep) == s
    decreases |s|
  {
    if |s| < |sep| {
    } else if s[..|sep|] == sep {
      var rest := SplitOn(s[|sep|..], sep);
      assert SplitOn(s, sep) == [""] + rest;
      JoinSplit(s[|sep|..], sep);
      JoinCons("", rest, sep);
      assert s[..|sep|] + s[|sep|..] == s;
    } else {
      var rest := SplitOn(s[1..], sep);
      assert SplitOn(s, sep) == [[s[0]] + rest[0]] + rest[1..];
      JoinSplit(s[1..], sep);
      JoinPrepend([s[0]], rest, sep);
      assert [s[0]] + s[1..] == s;
    }
  }

  lemma JoinCons(x: string, rest: seq<string>, sep: string)
    requires |rest| > 0
    ensures Join([x] + rest, sep) == x + sep + Join(rest, sep)
  {
    assert ([x] + rest)[1..] == rest;
  }

  /** Text put in front of the first piece comes out in front of the join. */
  lemma JoinPrepend(p: string, parts: seq<string>, sep: string)
    requires |parts| > 0
    ensures Join([p + parts[0]] + parts[1..], sep) == p + Join(parts, sep)
  {
    var ps := [p + parts[0]] + parts[1..];
    if |parts| > 1 {
      assert ps[1..] == parts[1..];
      var tail := Join(parts[1..], sep);
      assert Join(ps, sep) == (p + parts[0]) + sep + tail;
      assert (p + parts[0]) + sep + tail == p + (parts[0] + sep + tail);
    }
  }

  /** Number of occurrences of a character. */
  function CountChar(s: string, c: char): nat
    decreases |s|
  {
    if |s| == 0 then 0 else (if s[0] == c then 1 else 0) + CountChar(s[1..], c)
  }

  lemma {:induction false} CountCharAppend(a: string, b: string, c: char)
    ensures CountChar(a + b, c) == CountChar(a, c) + CountChar(b, c)
    decreases |a|
  {
    if |a| == 0 {
      assert a + b == b;
    } else {
      assert (a + b)[1..] == a[1..] + b;
      CountCharAppend(a[1..], b, c);
    }
  }

  /** Splitting on a single character gives one more piece than there are occurrences of it, and
      no piece contains it. */
  lemma {:induction false} SplitOnChar(s: string, c: char)
    ensures |SplitOn(s, [c])| == CountChar(s, c) + 1
    ensures forall k :: 0 <= k < |SplitOn(s, [c])| ==> c !in SplitOn(s, [c])[k]
    decreases |s|
  {
    if |s| == 0 {
    } else if s[..1] == [c] {
      SplitOnChar(s[1..], c);
      assert s[0] == c;
    } else {
      SplitOnChar(s[1..], c);
      assert s[0] != c;
      var rest := SplitOn(s[1..], [c]);
      var r := SplitOn(s, [c]);
      assert r[0] == [s[0]] + rest[0];
      assert forall k :: 1 <= k < |r| ==> r[k] == rest[k];
    }
  }

  /** Splitting a join on a single character gives back the pieces when none contains it. */
  lemma {:induction false} SplitJoinChar(parts: seq<string>, c: char)
    requires |parts| > 0
    requires forall k :: 0 <= k < |parts| ==> c !in parts[k]
    ensures SplitOn(Join(parts, [c]), [c]) == parts
    decreases |parts|
  {
    if |parts| == 1 {
      SplitNoSep(parts[0], c);
    } else {
      SplitJoinChar(parts[1..], c);
      SplitPrefix(parts[0], Join(parts[1..], [c]), c);
    }
  }

  lemma {:induction false} SplitNoSep(s: string, c: char)
    requires c !in s
    ensures SplitOn(s, [c]) == [s]
    decreases |s|
  {
    if |s| > 0 {
      assert s[0] in s;
      assert s[..1] == [s[0]];
      SplitNoSep(s[1..], c);
      assert [s[0]] + s[1..] == s;
    }
  }

  /** A text in which the separator's first character never occurs is a single piece. */
  lemma {:induction false} SplitWithoutSep(s: string, sep: string)
    requires |sep| > 0 && sep[0] !in s
    ensures SplitOn(s, sep) == [s]
    decreases |s|
  {
    if |s| >= |sep| {
      assert s[0] in s;
      SplitWithoutSep(s[1..], sep);
      assert [s[0]] + s[1..] == s;
    }
  }

  /** A character absent from the text is absent from every piece of its split. */
  lemma {:induction false} SplitPartsWithout(s: string, sep: string, c: char)
    requires |sep| > 0 && c !in s
    ensures forall k :: 0 <= k < |SplitOn(s, sep)| ==> c !in SplitOn(s, sep)[k]
    decreases |s|
  {
    if |s| >= |sep| {
      if s[..|sep|] == sep {
        assert s == s[..|sep|] + s[|sep|..];
        SplitPartsWithout(s[|sep|..], sep, c);
      } else {
        assert s == [s[0]] + s[1..];
        SplitPartsWithout(s[1..], sep, c);
      }
    }
  }

  /** A character absent from the pieces and from the separator is absent from their join. */
  lemma {:induction false} JoinWithout(parts: seq<string>, sep: string, c: char)
    requires c !in sep && forall k :: 0 <= k < |parts| ==> c !in parts[k]
    ensures c !in Join(parts, sep)
    decreases |parts|
  {
    if |parts| > 1 {
      JoinWithout(parts[1..], sep, c);
    }
  }

  /** A head in which the separator cannot begin stays in front of the first piece. */
  lemma {:induction false} SplitFreeHead(a: string, x: string, sep: string)
    requires |sep| > 0 && sep[0] !in a
    ensures SplitOn(a + x, sep) == [a + SplitOn(x, sep)[0]] + SplitOn(x, sep)[1..]
    decreases |a|
  {
    if |a| == 0 {
      var xs := SplitOn(x, sep);
      assert a + x == x && a + xs[0] == xs[0];
      assert [xs[0]] + xs[1..] == xs;
    } else {
      var s := a + x;
      assert s[0] == a[0] && a[0] in a;
      assert s[1..] == a[1..] + x;
      SplitFreeHead(a[1..], x, sep);
      if |s| < |sep| {
        assert |x| < |sep|;
      } else {
        assert s[..|sep|][0] == s[0];
        var xs, rest := SplitOn(x, sep), SplitOn(s[1..], sep);
        assert rest == [a[1..] + xs[0]] + xs[1..];
        assert SplitOn(s, sep) == [[s[0]] + rest[0]] + rest[1..];
        assert [a[0]] + (a[1..] + xs[0]) == a + xs[0];
      }
    }
  }

  /** The first occurrence of the separator, after a head in which it cannot begin, ends the first piece. */
  lemma SplitAfterFree(a: string, sep: string, b: string)
    requires |sep| > 0 && sep[0] !in a
    ensures SplitOn(a + sep + b, sep) == [a] + SplitOn(b, sep)
  {
    var x := sep + b;
    SplitFreeHead(a, x, sep);
    assert a + sep + b == a + x;
    assert x[..|sep|] == sep && x[|sep|..] == b;
    assert a + "" == a;
  }

  /** A text that does not start with the separator, and whose tail is one piece, is one piece. */
  lemma SplitOneStep(s: string, sep: string)
    requires |sep| > 0 && |s| > 0 && !StartsWith(s, sep)
    requires SplitOn(s[1..], sep) == [s[1..]]
    ensures SplitOn(s, sep) == [s]
  {
    assert [s[0]] + s[1..] == s;
  }

  lemma {:induction false} SplitPrefix(a: string, b: string, c: char)
    requires c !in a
    ensures SplitOn(a + [c] + b, [c]) == [a] + SplitOn(b, [c])
    decreases |a|
  {
    var s := a + [c] + b;
    if |a| == 0 {
      assert s[..1] == [c];
      assert s[1..] == b;
    } else {
      assert a[0] in a;
      assert s[..1] == [a[0]];
      assert s[1..] == a[1..] + [c] + b;
      SplitPrefix(a[1..], b, c);
      assert [a[0]] + a[1..] == a;
    }
  }

  /** Python's `str.replace(pattern, replacement)`: every non-overlapping occurrence of `pattern`, left to right,
      becomes `replacement` (the same as joining the split with `replacement`). */
  function ReplaceAll(s: string, pattern: string, replacement: string): string
    requires |pattern| > 0
  {
    Join(SplitOn(s, pattern), replacement)
  }

  /** Regrouping a concatenation of five pieces. */
  lemma Regroup(p: string, x: string, y: string, z: string, w: string)
    ensures p + (x + y + z + w) == p + x + y + z + w
  {
  }

  /** Adding one more piece at the end of a join adds the separator and that piece. */
  lemma {:induction false} JoinSnoc(parts: seq<string>, x: string, sep: string)
    requires |parts| > 0
    ensures Join(parts + [x], sep) == Join(parts, sep) + sep + x
    decreases |parts|
  {
    if |parts| == 1 {
      assert (parts + [x])[1..] == [x];
    } else {
      assert (parts + [x])[1..] == parts[1..] + [x];
      JoinSnoc(parts[1..], x, sep);
    }
  }

  // ----- what greedy regex atoms consume -----

  /** Length of the maximal run of whitespace at the start of `s` (what a greedy `\s*` takes). */
  function SpaceRun(lang: Lang, s: string): (n: nat)
    ensures n <= |s|
    ensures forall i :: 0 <= i < n ==> IsSpace(lang, s[i])
    ensures n < |s| ==> !IsSpace(lang, s[n])
    decreases |s|
  {
    if |s| > 0 && IsSpace(lang, s[0]) then 1 + SpaceRun(lang, s[1..]) else 0
  }

  /** What JavaScript's greedy `(.*)` captures: everything up to the first line terminator. */
  function LineText(s: string): (r: string)
    ensures |r| <= |s| && r == s[..|r|]
    ensures forall i :: 0 <= i < |r| ==> !IsLineTerminator(r[i])
    ensures |r| < |s| ==> IsLineTerminator(s[|r|])
    decreases |s|
  {
    if |s| == 0 || IsLineTerminator(s[0]) then "" else [s[0]] + LineText(s[1..])
  }

  // ----- ASCII lower case -----

  function LowerChar(c: char): char {
    if IsUpper(c) then (c as int + 32) as char else c
  }

  /** `str.lower()` on the ASCII letters. For the keyword tests it is used in, this agrees with the
      full Unicode mapping (no non-ASCII character lowers to one of the keyword letters alone). */
  function Lower(s: string): (r: string)
    ensures |r| == |s|
    ensures forall i :: 0 <= i < |s| ==> r[i] == LowerChar(s[i])
    decreases |s|
  {
    if |s| == 0 then "" else [LowerChar(s[0])] + Lower(s[1..])
  }

  // ----- decimal numbers -----

  /** Length of the maximal run of digits at the start of `s` (what a greedy `\d+` takes there). */
  function DigitRun(s: string): (n: nat)
    ensures n <= |s|
    ensures forall i :: 0 <= i < n ==> IsDigit(s[i])
    ensures n < |s| ==> !IsDigit(s[n])
    decreases |s|
  {
    if |s| > 0 && IsDigit(s[0]) then 1 + DigitRun(s[1..]) else 0
  }

  function DigitValue(c: char): nat
    requires IsDigit(c)
  {
    c as int - '0' as int
  }

  function DigitChar(d: nat): (c: char)
    requires d < 10
    ensures IsDigit(c) && DigitValue(c) == d
  {
    ('0' as int + d) as char
  }

  predicate AllDigits(s: string) {
    forall i :: 0 <= i < |s| ==> IsDigit(s[i])
  }

  /** The number a digit string denotes in decimal (`parseInt` / `int` on a digit string). */
  function DecimalValue(s: string): nat
    requires AllDigits(s)
    decreases |s|
  {
    if |s| == 0 then 0 else 10 * DecimalValue(s[..|s| - 1]) + DigitValue(s[|s| - 1])
  }

  /** The decimal numeral of `n` with no leading zeros (JavaScript's number-to-string conversion
      of an integer). */
  function NatToString(n: nat): (r: string)
    ensures |r| > 0 && AllDigits(r)
    ensures |r| > 1 ==> r[0] != '0'
    decreases n
  {
    if n < 10 then [DigitChar(n)] else NatToString(n / 10) + [DigitChar(n % 10)]
  }

  /** Reading back the numeral of `n` gives `n`. */
  lemma {:induction false} DecimalValueOfNatToString(n: nat)
    ensures DecimalValue(NatToString(n)) == n
    decreases n
  {
    var r := NatToString(n);
    if n >= 10 {
      DecimalValueOfNatToString(n / 10);
      assert r[..|r| - 1] == NatToString(n / 10);
    }
  }
}
