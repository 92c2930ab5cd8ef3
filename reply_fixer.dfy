/** `fix_ai_formatting` (main.py:81-165): the server-side clean-up of a reply before it is stored.

    Three passes run one after the other on the reply:
    1. the space-after-number repair, first for upper-case letters (main.py:87), then for all
       ASCII letters (main.py:90);
    2. a pass over the `\n`-separated lines that turns `N. **Feature**: ...` and `N. Title Words`
       items into bullets when the line before them announces a list of features or types
       (main.py:93-136);
    3. a pass over the lines again that removes bolding from whole sentences and from long
       bold phrases (main.py:139-165).

    `strip()`, `split()` and the regex `\s` use the characters for which `str.isspace` holds;
    `\d` is taken to be the ASCII digits. */
module ReplyFixer {
  import opened Strings
  import DigitSpacing
  import InlinePatterns

  // ----- the two line patterns of the item pass -----

  /** A match of `^(\d+)\.\s+\*\*([^*]+)\*\*:\s*` (main.py:101) on a stripped line: the digits,
      the whitespace after the period, the bold feature name, the whitespace after the colon and
      the rest of the line after the match. */
  datatype FeatureItem = FeatureItem(number: string, gap: string, feature: string, gap2: string, rest: string)

  /** The line such an item was read from. */
  function FeatureText(x: FeatureItem): string {
    x.number + ("." + (x.gap + ("**" + (x.feature + ("**:" + (x.gap2 + x.rest))))))
  }

  /** What the pattern demands of the parts; every greedy atom took all it could. */
  predicate FeatureShaped(x: FeatureItem) {
    && |x.number| > 0 && AllDigits(x.number)
    && |x.gap| > 0 && AllSpace(Python, x.gap)
    && |x.feature| > 0 && '*' !in x.feature
    && AllSpace(Python, x.gap2)
    && (|x.rest| > 0 ==> !IsSpace(Python, x.rest[0]))
  }

  /** Length of the maximal run of characters other than `*` (what a greedy `[^*]+` takes). */
  function NonStarRun(s: string): (n: nat)
    ensures n <= |s|
    ensures forall i :: 0 <= i < n ==> s[i] != '*'
    ensures n < |s| ==> s[n] == '*'
    decreases |s|
  {
    if |s| > 0 && s[0] != '*' then 1 + NonStarRun(s[1..]) else 0
  }

  /** `re.match` with the feature pattern. Every atom is followed by a character it cannot take,
      so the greedy runs never give anything back. */
  function MatchFeatureItem(t: string): Option<FeatureItem> {
    var d := DigitRun(t);
    var afterNumber := t[d..];
    if d == 0 || !StartsWith(afterNumber, ".") then None
    else
      var s1 := afterNumber[1..];
      var w := SpaceRun(Python, s1);
      var s2 := s1[w..];
      if w == 0 || !StartsWith(s2, "**") then None
      else
        var s3 := s2[2..];
        var n := NonStarRun(s3);
        var s4 := s3[n..];
        if n == 0 || !StartsWith(s4, "**:") then None
        else
          var s5 := s4[3..];
          var g := SpaceRun(Python, s5);
          Some(FeatureItem(t[..d], s1[..w], s3[..n], s5[..g], s5[g..]))
  }

  /** A match of `^(\d+)\.\s+([A-Z][a-zA-Z\s]+[^:])$` (main.py:118) on a stripped line. */
  datatype TitleItem = TitleItem(number: string, gap: string, title: string)

  function TitleText(x: TitleItem): string {
    x.number + ("." + (x.gap + x.title))
  }

  /** `[A-Z][a-zA-Z\s]+[^:]` up to the end of the line: an upper-case letter, at least one letter
      or whitespace character, and a last character that is not a colon. */
  predicate IsTitle(title: string) {
    && |title| >= 3 && IsUpper(title[0])
    && (forall i :: 1 <= i < |title| - 1 ==> IsLetter(title[i]) || IsSpace(Python, title[i]))
    && title[|title| - 1] != ':'
  }

  predicate TitleShaped(x: TitleItem) {
    |x.number| > 0 && AllDigits(x.number) && |x.gap| > 0 && AllSpace(Python, x.gap) && IsTitle(x.title)
  }

  function MatchTitleItem(t: string): Option<TitleItem> {
    var d := DigitRun(t);
    var afterNumber := t[d..];
    if d == 0 || !StartsWith(afterNumber, ".") then None
    else
      var s1 := afterNumber[1..];
      var w := SpaceRun(Python, s1);
      var title := s1[w..];
      if w == 0 || !IsTitle(title) then None
      else Some(TitleItem(t[..d], s1[..w], title))
  }

  // ----- the item pass (main.py:93-136) -----

  const FeatureKeywords: seq<string> := ["features", "characteristics", "types", "components", "aspects"]
  const TitleKeywords: seq<string> := ["features", "types", "characteristics", "components", "includes"]

  /** `any(keyword in line.lower() for keyword in keywords)`. */
  predicate MentionsAny(line: string, keywords: seq<string>) {
    exists k :: 0 <= k < |keywords| && Contains(Lower(line), keywords[k])
  }

  /** What the pass appends for line `i`; the keyword tests look at the previous input line. */
  function FixedLine(lines: seq<string>, i: nat): string
    requires i < |lines|
  {
    ItemLine(lines[i], i > 0 && MentionsAny(lines[i - 1], FeatureKeywords),
             i > 0 && MentionsAny(lines[i - 1], TitleKeywords))
  }

  /** What the pass makes of `line`, given whether the line before it announced features (for
      the first pattern) or titles (for the second). */
  function ItemLine(line: string, afterFeatures: bool, afterTitles: bool): string {
    var stripped := Trim(Python, line);
    match MatchFeatureItem(stripped)
    case Some(x) =>
      if afterFeatures then "- **" + x.feature + "**:" + x.rest
      else x.number + ". **" + x.feature + "**:" + x.rest
    case None =>
      match MatchTitleItem(stripped)
      case Some(x) => if afterTitles then "- **" + x.title + "**" else line
      case None => line
  }

  /** `fixed_lines`. */
  function Fixed(lines: seq<string>): (out: seq<string>)
    ensures |out| == |lines|
    ensures forall k :: 0 <= k < |lines| ==> out[k] == FixedLine(lines, k)
  {
    seq(|lines|, k requires 0 <= k < |lines| => FixedLine(lines, k))
  }

  method FixNumberedItems(lines: seq<string>) returns (fixedLines: seq<string>)
    ensures fixedLines == Fixed(lines)
  {
    fixedLines := [];
    for i := 0 to |lines|
      invariant |fixedLines| == i
      invariant forall k :: 0 <= k < i ==> fixedLines[k] == FixedLine(lines, k)
    {
      var fixedLine := FixItemLine(lines, i);
      fixedLines := fixedLines + [fixedLine];
    }
  }

  /** The body of the loop of main.py:96-134 for line `i`. */
  method FixItemLine(lines: seq<string>, i: nat) returns (fixedLine: string)
    requires i < |lines|
    ensures fixedLine == FixedLine(lines, i)
  {
    var line := lines[i];
    var stripped := Trim(Python, line);
    var feature := MatchFeatureItem(stripped);
    if feature.Some? {
      var x := feature.value;
      if i > 0 && MentionsAny(lines[i - 1], FeatureKeywords) {
        fixedLine := "- **" + x.feature + "**:" + x.rest;
      } else {
        fixedLine := x.number + ". **" + x.feature + "**:" + x.rest;
      }
    } else {
      var simple := MatchTitleItem(stripped);
      if simple.Some? && i > 0 && MentionsAny(lines[i - 1], TitleKeywords) {
        fixedLine := "- **" + simple.value.title + "**";
      } else {
        fixedLine := line;
      }
    }
  }

  // ----- the bold pass (main.py:139-165) -----

  /** Length of the maximal run of non-whitespace characters. */
  function WordRun(s: string): (n: nat)
    ensures n <= |s|
    ensures forall i :: 0 <= i < n ==> !IsSpace(Python, s[i])
    ensures n < |s| ==> IsSpace(Python, s[n])
    decreases |s|
  {
    if |s| > 0 && !IsSpace(Python, s[0]) then 1 + WordRun(s[1..]) else 0
  }

  /** `str.split()` with no argument: the maximal runs of non-whitespace characters. */
  function Words(s: string): (ws: seq<string>)
    decreases |s|
  {
    if |s| == 0 then []
    else if IsSpace(Python, s[0]) then Words(s[1..])
    else
      var n := WordRun(s);
      [s[..n]] + Words(s[n..])
  }

  function WordCount(s: string): nat {
    |Words(s)|
  }

  /** The stripped line starts and ends with `**`. */
  predicate IsBoldLine(stripped: string) {
    StartsWith(stripped, "**") && EndsWith(stripped, "**")
  }

  /** `stripped[2:-2]`, which is empty when the line has fewer than five characters. */
  function BoldInner(stripped: string): string {
    if |stripped| >= 4 then stripped[2..|stripped| - 2] else ""
  }

  /** One round of the `finditer` loop: a bold phrase of more than three words loses its
      asterisks wherever `**phrase**` occurs in the line as rewritten so far. */
  function Unbold(s: string, phrase: string): string {
    if WordCount(phrase) > 3 then ReplaceAll(s, "**" + phrase + "**", phrase) else s
  }

  /** The loop over the bold phrases, in the order they were found. */
  function UnboldAll(s: string, phrases: seq<string>): string
    decreases |phrases|
  {
    if |phrases| == 0 then s else Unbold(UnboldAll(s, phrases[..|phrases| - 1]), phrases[|phrases| - 1])
  }

  /** What the pass appends for one line. */
  function CleanLine(line: string): string {
    var stripped := Trim(Python, line);
    if IsBoldLine(stripped) then
      var content := BoldInner(stripped);
      if WordCount(content) <= 4 && '.' !in content then line else content
    else UnboldAll(line, InlinePatterns.Matches(InlinePatterns.PyBold, line))
  }

  function Cleaned(lines: seq<string>): (out: seq<string>)
    ensures |out| == |lines|
    ensures forall k :: 0 <= k < |lines| ==> out[k] == CleanLine(lines[k])
  {
    seq(|lines|, k requires 0 <= k < |lines| => CleanLine(lines[k]))
  }

  /** The inner `finditer` loop of main.py:155-163. */
  method UnboldLongPhrases(line: string) returns (cleanedLine: string)
    ensures cleanedLine == UnboldAll(line, InlinePatterns.Matches(InlinePatterns.PyBold, line))
  {
    var found := InlinePatterns.Matches(InlinePatterns.PyBold, line);
    cleanedLine := line;
    for j := 0 to |found|
      invariant cleanedLine == UnboldAll(line, found[..j])
    {
      var boldText := found[j];
      assert found[..j + 1][..j] == found[..j];
      if WordCount(boldText) > 3 {
        cleanedLine := ReplaceAll(cleanedLine, "**" + boldText + "**", boldText);
      }
    }
    assert found[..|found|] == found;
  }

  method CleanBold(lines: seq<string>) returns (cleanedLines: seq<string>)
    ensures cleanedLines == Cleaned(lines)
  {
    cleanedLines := [];
    for i := 0 to |lines|
      invariant |cleanedLines| == i
      invariant forall k :: 0 <= k < i ==> cleanedLines[k] == CleanLine(lines[k])
    {
      var cleanedLine := CleanOneLine(lines[i]);
      cleanedLines := cleanedLines + [cleanedLine];
    }
  }

  /** The body of the loop of main.py:143-164 for one line. */
  method CleanOneLine(line: string) returns (cleanedLine: string)
    ensures cleanedLine == CleanLine(line)
  {
    var stripped := Trim(Python, line);
    if StartsWith(stripped, "**") && EndsWith(stripped, "**") {
      var content := BoldInner(stripped);
      if WordCount(content) <= 4 && '.' !in content {
        cleanedLine := line;
      } else {
        cleanedLine := content;
      }
    } else {
      cleanedLine := UnboldLongPhrases(line);
    }
  }

  // ----- the whole function -----

  /** Lines 87 and 90. */
  function SpacingPasses(text: string): string {
    DigitSpacing.SpaceAfterNumber(DigitSpacing.AnyLetter, DigitSpacing.SpaceAfterNumber(DigitSpacing.UpperOnly, text))
  }

  /** `fix_ai_formatting` as a value. The empty reply is the only falsy string and comes back as is. */
  function FixSpec(text: string): string {
    if text == "" then text
    else
      var fixedText := Join(Fixed(SplitOn(SpacingPasses(text), "\n")), "\n");
      Join(Cleaned(SplitOn(fixedText, "\n")), "\n")
  }

  method FixAiFormatting(text: string) returns (r: string)
    ensures r == FixSpec(text)
    ensures text == "" ==> r == text
    ensures |SplitOn(r, "\n")| == |SplitOn(text, "\n")|
  {
    if text == "" {
      return text;
    }
    var t := DigitSpacing.SpaceAfterNumber(DigitSpacing.UpperOnly, text);
    t := DigitSpacing.SpaceAfterNumber(DigitSpacing.AnyLetter, t);
    var fixedLines := FixNumberedItems(SplitOn(t, "\n"));
    t := Join(fixedLines, "\n");
    var cleanedLines := CleanBold(SplitOn(t, "\n"));
    r := Join(cleanedLines, "\n");
    FixLineCount(text);
  }

  // ----- properties of the spacing passes -----

  /** The two passes together are the single repair with the full letter class, after which no
      digit is followed by a period and a letter; running them again changes nothing. */
  lemma SpacingPassesSpec(text: string)
    ensures SpacingPasses(text) == DigitSpacing.SpaceAfterNumber(DigitSpacing.AnyLetter, text)
    ensures DigitSpacing.NoSite(DigitSpacing.AnyLetter, SpacingPasses(text))
    ensures SpacingPasses(SpacingPasses(text)) == SpacingPasses(text)
  {
    var s := DigitSpacing.SpaceAfterNumber(DigitSpacing.AnyLetter, text);
    DigitSpacing.TwoPassesAsOne(text);
    DigitSpacing.NoSiteAfterSpacing(DigitSpacing.AnyLetter, text);
    DigitSpacing.TwoPassesAsOne(s);
    DigitSpacing.SpacingIdempotent(DigitSpacing.AnyLetter, text);
  }

  // ----- properties of the item pass -----

  lemma AppendParts(a: string, b: string)
    ensures (a + b)[..|a|] == a && (a + b)[|a|..] == b
  {
  }

  lemma {:induction false} DigitRunOf(a: string, b: string)
    requires AllDigits(a) && (|b| > 0 ==> !IsDigit(b[0]))
    ensures DigitRun(a + b) == |a|
    decreases |a|
  {
    if |a| > 0 {
      assert (a + b)[1..] == a[1..] + b;
      DigitRunOf(a[1..], b);
    } else {
      assert a + b == b;
    }
  }

  lemma {:induction false} SpaceRunOf(a: string, b: string)
    requires AllSpace(Python, a) && (|b| > 0 ==> !IsSpace(Python, b[0]))
    ensures SpaceRun(Python, a + b) == |a|
    decreases |a|
  {
    if |a| > 0 {
      assert (a + b)[1..] == a[1..] + b;
      SpaceRunOf(a[1..], b);
    } else {
      assert a + b == b;
    }
  }

  lemma {:induction false} NonStarRunOf(a: string, b: string)
    requires '*' !in a && (|b| > 0 ==> b[0] == '*')
    ensures NonStarRun(a + b) == |a|
    decreases |a|
  {
    if |a| > 0 {
      assert a[0] in a;
      assert (a + b)[1..] == a[1..] + b;
      NonStarRunOf(a[1..], b);
    } else {
      assert a + b == b;
    }
  }

  /** The feature matcher reads back every well-shaped item it could have come from. */
  lemma FeatureItemOfShape(x: FeatureItem)
    requires FeatureShaped(x)
    ensures MatchFeatureItem(FeatureText(x)) == Some(x)
  {
    var p5 := x.gap2 + x.rest;
    var p4 := "**:" + p5;
    var p3 := x.feature + p4;
    var p2 := "**" + p3;
    var p1 := x.gap + p2;
    var p0 := "." + p1;
    DigitRunOf(x.number, p0);
    AppendParts(x.number, p0);
    assert StartsWith(p0, ".") && p0[1..] == p1;
    SpaceRunOf(x.gap, p2);
    AppendParts(x.gap, p2);
    assert StartsWith(p2, "**") && p2[2..] == p3;
    NonStarRunOf(x.feature, p4);
    AppendParts(x.feature, p4);
    assert StartsWith(p4, "**:") && p4[3..] == p5;
    SpaceRunOf(x.gap2, x.rest);
    AppendParts(x.gap2, x.rest);
  }

  /** Whatever the feature matcher reports is well shaped and spells out the line it read. */
  lemma FeatureItemParsed(t: string)
    requires MatchFeatureItem(t).Some?
    ensures FeatureShaped(MatchFeatureItem(t).value)
    ensures FeatureText(MatchFeatureItem(t).value) == t
  {
    FeatureTextOf(t);
    var d := DigitRun(t);
    var s1 := t[d..][1..];
    var w := SpaceRun(Python, s1);
    var s3 := s1[w..][2..];
    var n := NonStarRun(s3);
    var s5 := s3[n..][3..];
    DigitPrefix(t);
    SpacePrefix(s1);
    NonStarPrefix(s3);
    SpacePrefix(s5);
  }

  lemma FeatureTextOf(t: string)
    requires MatchFeatureItem(t).Some?
    ensures FeatureText(MatchFeatureItem(t).value) == t
  {
    var d := DigitRun(t);
    var s1 := t[d..][1..];
    var w := SpaceRun(Python, s1);
    var s3 := s1[w..][2..];
    var n := NonStarRun(s3);
    var s5 := s3[n..][3..];
    var g := SpaceRun(Python, s5);
    assert MatchFeatureItem(t) == Some(FeatureItem(t[..d], s1[..w], s3[..n], s5[..g], s5[g..]));
    FeatureTextParts(t, d, s1, w, s3, n, s5, g);
  }

  lemma FeatureTextParts(t: string, d: nat, s1: string, w: nat, s3: string, n: nat, s5: string, g: nat)
    requires d <= |t| && StartsWith(t[d..], ".") && s1 == t[d..][1..]
    requires w <= |s1| && StartsWith(s1[w..], "**") && s3 == s1[w..][2..]
    requires n <= |s3| && StartsWith(s3[n..], "**:") && s5 == s3[n..][3..]
    requires g <= |s5|
    ensures FeatureText(FeatureItem(t[..d], s1[..w], s3[..n], s5[..g], s5[g..])) == t
  {
    Cut(s5, g);
    Peel(s3[n..], "**:");
    Cut(s3, n);
    Peel(s1[w..], "**");
    Cut(s1, w);
    Peel(t[d..], ".");
    Cut(t, d);
  }

  lemma SliceOfSlice(s: string, a: nat, b: nat, c: nat)
    requires a + c <= b <= |s|
    ensures s[a..b][..c] == s[a..a + c]
  {
  }

  lemma Cut(s: string, k: nat)
    requires k <= |s|
    ensures s == s[..k] + s[k..]
  {
  }

  lemma Peel(s: string, p: string)
    requires StartsWith(s, p)
    ensures s == p + s[|p|..]
  {
    Cut(s, |p|);
  }

  lemma DigitPrefix(s: string)
    ensures var n := DigitRun(s); AllDigits(s[..n]) && (n < |s| ==> !IsDigit(s[n..][0]))
  {
    var n := DigitRun(s);
    assert forall i :: 0 <= i < n ==> s[..n][i] == s[i];
  }

  lemma SpacePrefix(s: string)
    ensures var n := SpaceRun(Python, s); AllSpace(Python, s[..n]) && (n < |s| ==> !IsSpace(Python, s[n..][0]))
  {
    var n := SpaceRun(Python, s);
    assert forall i :: 0 <= i < n ==> s[..n][i] == s[i];
  }

  lemma NonStarPrefix(s: string)
    ensures '*' !in s[..NonStarRun(s)]
  {
    var n := NonStarRun(s);
    assert forall i :: 0 <= i < n ==> s[..n][i] == s[i];
  }

  /** The title matcher reads back every well-shaped item it could have come from. */
  lemma TitleItemOfShape(x: TitleItem)
    requires TitleShaped(x)
    ensures MatchTitleItem(TitleText(x)) == Some(x)
  {
    var t := TitleText(x);
    var p1 := x.gap + x.title;
    var p0 := "." + p1;
    DigitRunOf(x.number, p0);
    AppendParts(x.number, p0);
    assert t[DigitRun(t)..] == p0;
    assert StartsWith(p0, ".") && p0[1..] == p1;
    SpaceRunOf(x.gap, x.title);
    AppendParts(x.gap, x.title);
    assert p1[SpaceRun(Python, p1)..] == x.title;
  }

  /** A title item is never taken for a feature item: its title starts with a letter. */
  lemma TitleNotFeature(x: TitleItem)
    requires TitleShaped(x)
    ensures MatchFeatureItem(TitleText(x)) == None
  {
    var t := TitleText(x);
    var p1 := x.gap + x.title;
    var p0 := "." + p1;
    DigitRunOf(x.number, p0);
    AppendParts(x.number, p0);
    assert t[DigitRun(t)..] == p0;
    assert p0[1..] == p1;
    SpaceRunOf(x.gap, x.title);
    AppendParts(x.gap, x.title);
    assert p1[SpaceRun(Python, p1)..] == x.title;
    assert !StartsWith(x.title, "**") by {
      assert x.title[..2][0] == x.title[0];
    }
  }

  /** Whatever the title matcher reports is well shaped and spells out the line it read. */
  lemma TitleItemParsed(t: string)
    requires MatchTitleItem(t).Some?
    ensures TitleShaped(MatchTitleItem(t).value)
    ensures TitleText(MatchTitleItem(t).value) == t
  {
    TitleTextOf(t);
    DigitPrefix(t);
    SpacePrefix(t[DigitRun(t)..][1..]);
  }

  lemma TitleTextOf(t: string)
    requires MatchTitleItem(t).Some?
    ensures TitleText(MatchTitleItem(t).value) == t
  {
    var d := DigitRun(t);
    var a := t[d..];
    var s1 := a[1..];
    var w := SpaceRun(Python, s1);
    assert MatchTitleItem(t) == Some(TitleItem(t[..d], s1[..w], s1[w..]));
    Cut(s1, w);
    Peel(a, ".");
    Cut(t, d);
  }

  /** A `N. **F**:` line becomes a bullet exactly when the line before it mentions one of the
      feature keywords; otherwise it keeps its number. Either way the indentation, the
      whitespace after the period and the whitespace after the colon are gone. */
  lemma FeatureLineRewritten(lines: seq<string>, i: nat, x: FeatureItem)
    requires i < |lines| && FeatureShaped(x) && Trim(Python, lines[i]) == FeatureText(x)
    ensures FixedLine(lines, i)
         == if i > 0 && MentionsAny(lines[i - 1], FeatureKeywords) then "- **" + x.feature + "**:" + x.rest
            else x.number + ". **" + x.feature + "**:" + x.rest
  {
    FeatureItemOfShape(x);
  }

  /** A `N. Title Words` line becomes `- **Title Words**` exactly when the line before it mentions
      one of the title keywords; otherwise it is kept as it is. */
  lemma TitleLineRewritten(lines: seq<string>, i: nat, x: TitleItem)
    requires i < |lines| && TitleShaped(x) && Trim(Python, lines[i]) == TitleText(x)
    ensures FixedLine(lines, i)
         == if i > 0 && MentionsAny(lines[i - 1], TitleKeywords) then "- **" + x.title + "**" else lines[i]
  {
    TitleItemOfShape(x);
    TitleNotFeature(x);
  }

  /** A line whose stripped form does not begin with digits and a period is kept. */
  lemma UnnumberedLineKept(lines: seq<string>, i: nat)
    requires i < |lines|
    requires var t := Trim(Python, lines[i]); DigitRun(t) == 0 || !StartsWith(t[DigitRun(t)..], ".")
    ensures FixedLine(lines, i) == lines[i]
  {
  }

  /** The first line has no line before it, so it is never turned into a bullet. */
  lemma FirstLineNotBulleted(lines: seq<string>)
    requires |lines| > 0 && !StartsWith(lines[0], "-")
    ensures !StartsWith(FixedLine(lines, 0), "-")
  {
    assert FixedLine(lines, 0) == ItemLine(lines[0], false, false);
    UnannouncedNotBulleted(lines[0]);
  }

  /** Without an announcing line before it, a line only ever keeps or regains its number. */
  lemma UnannouncedNotBulleted(line: string)
    requires !StartsWith(line, "-")
    ensures !StartsWith(ItemLine(line, false, false), "-")
  {
    var t := Trim(Python, line);
    var feature := MatchFeatureItem(t);
    if feature.Some? {
      var x := feature.value;
      assert ItemLine(line, false, false) == x.number + ". **" + x.feature + "**:" + x.rest;
      assert x.number == t[..DigitRun(t)];
      assert x.number[0] == t[0] && IsDigit(t[0]);
    }
  }

  /** The item pass writes a line break only where its input line had one. */
  lemma FixedLineNoNewline(lines: seq<string>, i: nat)
    requires i < |lines| && '\n' !in lines[i]
    ensures '\n' !in FixedLine(lines, i)
  {
    ItemLineNoNewline(lines[i], i > 0 && MentionsAny(lines[i - 1], FeatureKeywords),
                      i > 0 && MentionsAny(lines[i - 1], TitleKeywords));
  }

  lemma ItemLineNoNewline(line: string, afterFeatures: bool, afterTitles: bool)
    requires '\n' !in line
    ensures '\n' !in ItemLine(line, afterFeatures, afterTitles)
  {
    TrimAbsent(Python, line, '\n');
    if MatchFeatureItem(Trim(Python, line)).Some? {
      FeatureLineNoNewline(line, afterFeatures, afterTitles);
    } else {
      OtherLineNoNewline(line, afterFeatures, afterTitles);
    }
  }

  lemma FeatureLineNoNewline(line: string, afterFeatures: bool, afterTitles: bool)
    requires '\n' !in Trim(Python, line) && MatchFeatureItem(Trim(Python, line)).Some?
    ensures '\n' !in ItemLine(line, afterFeatures, afterTitles)
  {
    var t := Trim(Python, line);
    FeatureTextOf(t);
    FeatureRewriteNoNewline(MatchFeatureItem(t).value);
  }

  lemma OtherLineNoNewline(line: string, afterFeatures: bool, afterTitles: bool)
    requires '\n' !in line && '\n' !in Trim(Python, line) && MatchFeatureItem(Trim(Python, line)).None?
    ensures '\n' !in ItemLine(line, afterFeatures, afterTitles)
  {
    var t := Trim(Python, line);
    if MatchTitleItem(t).Some? {
      TitleTextOf(t);
      TitleRewriteNoNewline(MatchTitleItem(t).value);
    }
  }

  /** Both rewrites of a feature item are made of pieces of its line and of `-`, `.`, `*`, `:`
      and spaces. */
  lemma FeatureRewriteNoNewline(x: FeatureItem)
    requires '\n' !in FeatureText(x)
    ensures '\n' !in "- **" + x.feature + "**:" + x.rest
    ensures '\n' !in x.number + ". **" + x.feature + "**:" + x.rest
  {
    FeatureTextWithout(x, '\n');
  }

  lemma TitleRewriteNoNewline(x: TitleItem)
    requires '\n' !in TitleText(x)
    ensures '\n' !in "- **" + x.title + "**"
  {
    assert TitleText(x) == x.number + ("." + (x.gap + x.title));
    assert '\n' !in x.gap + x.title;
  }

  lemma FeatureTextWithout(x: FeatureItem, c: char)
    requires c !in FeatureText(x)
    ensures c !in x.number && c !in x.feature && c !in x.rest
  {
    var p5 := x.gap2 + x.rest;
    var p4 := "**:" + p5;
    var p3 := x.feature + p4;
    var p2 := "**" + p3;
    var p1 := x.gap + p2;
    assert FeatureText(x) == x.number + ("." + p1);
    assert c !in p1;
    assert c !in p3;
    assert c !in p5;
  }

  // ----- properties of the bold pass -----

  predicate IsWord(w: string) {
    |w| > 0 && forall j :: 0 <= j < |w| ==> !IsSpace(Python, w[j])
  }

  lemma {:induction false} WordRunOf(a: string, b: string)
    requires forall j :: 0 <= j < |a| ==> !IsSpace(Python, a[j])
    requires |b| > 0 ==> IsSpace(Python, b[0])
    ensures WordRun(a + b) == |a|
    decreases |a|
  {
    if |a| > 0 {
      assert (a + b)[1..] == a[1..] + b;
      WordRunOf(a[1..], b);
    } else {
      assert a + b == b;
    }
  }

  /** Splitting words joined by single spaces gives the words back. */
  lemma {:induction false} WordsOfJoin(ws: seq<string>)
    requires forall i :: 0 <= i < |ws| ==> IsWord(ws[i])
    ensures Words(Join(ws, " ")) == ws
    decreases |ws|
  {
    if |ws| == 1 {
      var w := ws[0];
      WordRunOf(w, "");
      assert w + "" == w;
      assert w[|w|..] == "";
    } else if |ws| > 1 {
      var w := ws[0];
      var rest := Join(ws[1..], " ");
      WordsOfJoin(ws[1..]);
      var s := w + " " + rest;
      assert s == w + (" " + rest);
      WordRunOf(w, " " + rest);
      AppendParts(w, " " + rest);
      assert (" " + rest)[1..] == rest;
      assert Words(" " + rest) == Words(rest);
      assert Words(s) == [w] + ws[1..];
    }
  }

  /** A line that is bold from end to end (up to surrounding whitespace) keeps its asterisks when
      it has at most four words and no period, and otherwise is replaced by its words alone. */
  lemma WholeBoldLine(pre: string, ws: seq<string>, post: string)
    requires AllSpace(Python, pre) && AllSpace(Python, post)
    requires forall i :: 0 <= i < |ws| ==> IsWord(ws[i])
    ensures var line := pre + ("**" + Join(ws, " ") + "**") + post;
      CleanLine(line) == if |ws| <= 4 && '.' !in Join(ws, " ") then line else Join(ws, " ")
  {
    var inner := Join(ws, " ");
    var x := "**" + inner + "**";
    var line := pre + x + post;
    BoldEnds(inner);
    TrimPadded(Python, pre, x, post);
    BoldLineCleaned(line, inner);
    WordsOfJoin(ws);
  }

  lemma BoldEnds(inner: string)
    ensures var x := "**" + inner + "**"; |x| > 0 && !IsSpace(Python, x[0]) && !IsSpace(Python, x[|x| - 1])
  {
    var x := "**" + inner + "**";
    assert x[0] == '*' && x[|x| - 1] == '*';
  }

  /** A line whose stripped form is `**inner**` is judged by the words of `inner`. */
  lemma BoldLineCleaned(line: string, inner: string)
    requires Trim(Python, line) == "**" + inner + "**"
    ensures CleanLine(line) == if WordCount(inner) <= 4 && '.' !in inner then line else inner
  {
    var x := "**" + inner + "**";
    assert x[..2] == "**" && x[|x| - 2..] == "**";
    assert x[2..|x| - 2] == inner;
  }

  /** `s` without its asterisks. */
  function WithoutStars(s: string): string
    decreases |s|
  {
    if |s| == 0 then "" else (if s[0] == '*' then "" else [s[0]]) + WithoutStars(s[1..])
  }

  lemma {:induction false} WithoutStarsAppend(a: string, b: string)
    ensures WithoutStars(a + b) == WithoutStars(a) + WithoutStars(b)
    decreases |a|
  {
    if |a| > 0 {
      assert (a + b)[0] == a[0];
      assert (a + b)[1..] == a[1..] + b;
      WithoutStarsAppend(a[1..], b);
    } else {
      assert a + b == b;
    }
  }

  lemma {:induction false} WithoutStarsNone(s: string)
    requires '*' !in s
    ensures WithoutStars(s) == s
    decreases |s|
  {
    if |s| > 0 {
      assert s[0] in s;
      WithoutStarsNone(s[1..]);
      assert [s[0]] + s[1..] == s;
    }
  }

  lemma {:induction false} InWithoutStars(s: string, c: char)
    requires c != '*'
    ensures c in WithoutStars(s) <==> c in s
    decreases |s|
  {
    if |s| > 0 {
      InWithoutStars(s[1..], c);
      assert s == [s[0]] + s[1..];
    }
  }

  /** Two separators equal but for asterisks give joins equal but for asterisks. */
  lemma {:induction false} JoinWithoutStars(parts: seq<string>, x: string, y: string)
    requires WithoutStars(x) == WithoutStars(y)
    ensures WithoutStars(Join(parts, x)) == WithoutStars(Join(parts, y))
    decreases |parts|
  {
    if |parts| > 1 {
      JoinWithoutStars(parts[1..], x, y);
      WithoutStarsAppend(parts[0] + x, Join(parts[1..], x));
      WithoutStarsAppend(parts[0], x);
      WithoutStarsAppend(parts[0] + y, Join(parts[1..], y));
      WithoutStarsAppend(parts[0], y);
    }
  }

  /** Removing the bold markers of a phrase that holds no asterisk removes asterisks only. */
  lemma UnboldKeepsOthers(s: string, phrase: string)
    requires '*' !in phrase
    ensures WithoutStars(Unbold(s, phrase)) == WithoutStars(s)
  {
    if WordCount(phrase) > 3 {
      var bold := "**" + phrase + "**";
      JoinSplit(s, bold);
      WithoutStarsAppend("**" + phrase, "**");
      WithoutStarsAppend("**", phrase);
      WithoutStarsNone(phrase);
      assert WithoutStars("**") == "";
      JoinWithoutStars(SplitOn(s, bold), phrase, bold);
    }
  }

  lemma {:induction false} UnboldAllKeepsOthers(s: string, phrases: seq<string>)
    requires forall i :: 0 <= i < |phrases| ==> '*' !in phrases[i]
    ensures WithoutStars(UnboldAll(s, phrases)) == WithoutStars(s)
    decreases |phrases|
  {
    if |phrases| > 0 {
      var init := phrases[..|phrases| - 1];
      assert forall i :: 0 <= i < |init| ==> init[i] == phrases[i];
      UnboldAllKeepsOthers(s, init);
      UnboldKeepsOthers(UnboldAll(s, init), phrases[|phrases| - 1]);
    }
  }

  /** On a line that is not bold from end to end, the pass removes asterisks and nothing else. */
  lemma PartialBoldOnlyStars(line: string)
    requires !IsBoldLine(Trim(Python, line))
    ensures WithoutStars(CleanLine(line)) == WithoutStars(line)
  {
    var found := InlinePatterns.Matches(InlinePatterns.PyBold, line);
    InlinePatterns.MatchesContentOk(InlinePatterns.PyBold, line);
    forall i | 0 <= i < |found| ensures '*' !in found[i] {
      assert InlinePatterns.ContentOk(InlinePatterns.PatternOf(InlinePatterns.PyBold), found[i]);
      assert forall m :: 0 <= m < |found[i]| ==> found[i][m] != '*';
    }
    UnboldAllKeepsOthers(line, found);
  }

  /** Bold phrases of at most three words are left alone. */
  lemma {:induction false} ShortPhrasesKept(s: string, phrases: seq<string>)
    requires forall i :: 0 <= i < |phrases| ==> WordCount(phrases[i]) <= 3
    ensures UnboldAll(s, phrases) == s
    decreases |phrases|
  {
    if |phrases| > 0 {
      var init := phrases[..|phrases| - 1];
      assert forall i :: 0 <= i < |init| ==> init[i] == phrases[i];
      ShortPhrasesKept(s, init);
    }
  }

  /** A bold phrase of more than three words, on a line whose only asterisks are its two
      markers, loses the markers; the rest of the line is kept. */
  lemma LongPhraseUnbolded(pre: string, p: string, post: string)
    requires '*' !in pre && '*' !in p && '*' !in post
    requires WordCount(p) > 3
    requires !IsBoldLine(Trim(Python, pre + "**" + p + "**" + post))
    ensures CleanLine(pre + "**" + p + "**" + post) == pre + p + post
  {
    var bold := "**" + p + "**";
    var line := pre + "**" + p + "**" + post;
    assert |p| > 0;
    assert line == pre + bold + post;
    BoldMatchesOne(pre, p, post);
    UnboldOne(line, p);
    SplitAfterFree(pre, bold, post);
    SplitWithoutSep(post, bold);
    JoinPair(pre, post, p);
  }

  /** A bold phrase of at most three words keeps its markers while a long phrase before it on the
      same line loses them. */
  lemma ShortBesideLong(pre: string, p: string, mid: string, q: string, post: string)
    requires '*' !in pre && '*' !in p && '*' !in mid && '*' !in q && '*' !in post
    requires WordCount(p) > 3 && 0 < |q| && WordCount(q) <= 3
    requires !IsBoldLine(Trim(Python, pre + "**" + p + "**" + mid + "**" + q + "**" + post))
    ensures CleanLine(pre + "**" + p + "**" + mid + "**" + q + "**" + post)
         == pre + p + mid + "**" + q + "**" + post
  {
    var line := pre + "**" + p + "**" + mid + "**" + q + "**" + post;
    BoldMatchesTwo(pre, p, mid, q, post);
    UnboldTwo(line, p, q);
    SplitLongShort(pre, p, mid, q, post);
    JoinPair(pre, mid + "**" + q + "**" + post, p);
  }

  lemma SplitLongShort(pre: string, p: string, mid: string, q: string, post: string)
    requires '*' !in pre && '*' !in p && '*' !in mid && '*' !in q && '*' !in post
    requires |p| > 0 && 0 < |q| && p != q
    ensures SplitOn(pre + "**" + p + "**" + mid + "**" + q + "**" + post, "**" + p + "**")
         == [pre, mid + "**" + q + "**" + post]
  {
    var bold := "**" + p + "**";
    var x := "**" + q + "**" + post;
    var tail := mid + x;
    var line := pre + bold + tail;
    assert tail == mid + "**" + q + "**" + post;
    assert line == pre + "**" + p + "**" + mid + "**" + q + "**" + post;
    SplitAfterFree(pre, bold, tail);
    NoLongAfterShort(p, q, post);
    SplitFreeHead(mid, x, bold);
    assert SplitOn(line, bold) == [pre] + [tail];
  }

  lemma UnboldOne(line: string, p: string)
    ensures UnboldAll(line, [p]) == Unbold(line, p)
  {
    assert [p][..0] == [];
  }

  lemma UnboldTwo(line: string, p: string, q: string)
    requires WordCount(q) <= 3
    ensures UnboldAll(line, [p, q]) == Unbold(line, p)
  {
    assert [p, q][..1] == [p];
    UnboldOne(line, p);
  }

  lemma JoinPair(a: string, b: string, sep: string)
    ensures Join([a, b], sep) == a + sep + b
  {
    assert [a, b][1..] == [b];
  }

  /** `**q**` followed by star-free text holds no `**p**` for another star-free phrase `p`. */
  lemma NoLongAfterShort(p: string, q: string, post: string)
    requires '*' !in p && '*' !in q && '*' !in post && |p| > 0 && |q| > 0 && p != q
    ensures SplitOn("**" + q + "**" + post, "**" + p + "**") == ["**" + q + "**" + post]
  {
    var bold := "**" + p + "**";
    var y := "**" + post;
    var t := q + y;
    var x1 := "*" + t;
    var x := "*" + x1;
    assert x == "**" + q + "**" + post;
    MarkersThenFree(p, post);
    SplitFreeHead(q, y, bold);
    assert q[0] in q;
    StarThen(t, bold);
    ShortNotLong(p, q, post);
    assert x[1..] == x1;
    SplitOneStep(x, bold);
  }

  /** Two asterisks and star-free text hold no `**p**`. */
  lemma MarkersThenFree(p: string, post: string)
    requires '*' !in p && '*' !in post && |p| > 0
    ensures SplitOn("**" + post, "**" + p + "**") == ["**" + post]
  {
    var bold := "**" + p + "**";
    var y := "**" + post;
    SplitWithoutSep(post, bold);
    if |post| > 0 {
      assert post[0] in post;
    }
    StarThen(post, bold);
    assert y == "*" + ("*" + post);
    if |bold| <= |y| {
      assert y[2 + |p|] == post[|p|] && post[|p|] in post;
      assert bold[2 + |p|] == '*';
    }
    SplitOneStep(y, bold);
  }

  /** One asterisk in front of a single piece that does not start with an asterisk adds nothing
      to split at, for a separator whose second character is an asterisk. */
  lemma StarThen(t: string, sep: string)
    requires |sep| >= 2 && sep[1] == '*' && (|t| > 0 ==> t[0] != '*')
    requires SplitOn(t, sep) == [t]
    ensures SplitOn("*" + t, sep) == ["*" + t]
  {
    var x := "*" + t;
    assert x[1..] == t;
    if |sep| <= |x| {
      assert x[1] == t[0];
    }
    SplitOneStep(x, sep);
  }

  /** `**q**...` does not start with `**p**` when `p` and `q` are different star-free phrases. */
  lemma ShortNotLong(p: string, q: string, post: string)
    requires '*' !in p && '*' !in q && p != q
    ensures !StartsWith("**" + q + "**" + post, "**" + p + "**")
  {
    var bold := "**" + p + "**";
    var x := "**" + q + "**" + post;
    var n, m := |p|, |q|;
    if |x| >= |bold| {
      if n == m {
        assert x[..|bold|][2..2 + n] == q;
        assert bold[2..2 + n] == p;
      } else if n < m {
        assert x[..|bold|][2 + n] == q[n] && q[n] in q;
        assert bold[2 + n] == '*';
      } else {
        assert bold[2 + m] == p[m] && p[m] in p;
        assert x[..|bold|][2 + m] == '*';
      }
    }
  }

  /** `finditer` on a line whose only asterisks are the markers of one phrase finds that phrase. */
  lemma BoldMatchesOne(pre: string, p: string, post: string)
    requires '*' !in pre && '*' !in p && '*' !in post && |p| > 0
    ensures InlinePatterns.Matches(InlinePatterns.PyBold, pre + "**" + p + "**" + post) == [p]
  {
    var b := "**" + p + "**";
    var l := pre + b;
    var s := l + post;
    assert s == pre + "**" + p + "**" + post;
    assert s[..|l|] == l && s[|l|..] == post;
    PrefixSlices(s, l, pre, b);
    FreeThenPhrase(s, 0, |pre|, p, |l|);
    ScanFree(s, |l|, |s|);
    ScanEnd(s);
    MatchesFromSteps(s, [p], |l|);
  }

  /** The same for the markers of two phrases. */
  lemma BoldMatchesTwo(pre: string, p: string, mid: string, q: string, post: string)
    requires '*' !in pre && '*' !in p && '*' !in mid && '*' !in q && '*' !in post && |p| > 0 && |q| > 0
    ensures InlinePatterns.Matches(InlinePatterns.PyBold, pre + "**" + p + "**" + mid + "**" + q + "**" + post) == [p, q]
  {
    var b1, b2 := "**" + p + "**", "**" + q + "**";
    var l1 := pre + b1;
    var l2 := l1 + mid;
    var l3 := l2 + b2;
    var s := l3 + post;
    assert s == pre + "**" + p + "**" + mid + "**" + q + "**" + post;
    assert s[..|l3|] == l3 && s[|l3|..] == post;
    PrefixSlices(s, l3, l2, b2);
    PrefixSlices(s, l2, l1, mid);
    PrefixSlices(s, l1, pre, b1);
    FreeThenPhrase(s, 0, |pre|, p, |l1|);
    FreeThenPhrase(s, |l1|, |l2|, q, |l3|);
    ScanFree(s, |l3|, |s|);
    ScanEnd(s);
    MatchesFromTwoSteps(s, p, q, |l1|, |l3|);
  }

  /** Gluing the steps of a scan that finds two phrases. */
  lemma MatchesFromTwoSteps(s: string, p: string, q: string, j: nat, k: nat)
    requires j <= k <= |s|
    requires var pt := InlinePatterns.PatternOf(InlinePatterns.PyBold);
      && InlinePatterns.SpanContents(InlinePatterns.Parse(pt, s, 0)) == [p] + InlinePatterns.SpanContents(InlinePatterns.Parse(pt, s, j))
      && InlinePatterns.SpanContents(InlinePatterns.Parse(pt, s, j)) == [q] + InlinePatterns.SpanContents(InlinePatterns.Parse(pt, s, k))
      && InlinePatterns.SpanContents(InlinePatterns.Parse(pt, s, k)) == []
    ensures InlinePatterns.Matches(InlinePatterns.PyBold, s) == [p, q]
  {
    assert [p] + ([q] + []) == [p, q];
  }

  /** Gluing the steps of one left-to-right scan. */
  lemma MatchesFromSteps(s: string, found: seq<string>, k: nat)
    requires k <= |s|
    requires var pt := InlinePatterns.PatternOf(InlinePatterns.PyBold);
      && InlinePatterns.SpanContents(InlinePatterns.Parse(pt, s, 0)) == found + InlinePatterns.SpanContents(InlinePatterns.Parse(pt, s, k))
      && InlinePatterns.SpanContents(InlinePatterns.Parse(pt, s, k)) == []
    ensures InlinePatterns.Matches(InlinePatterns.PyBold, s) == found
  {
    assert found + [] == found;
  }

  lemma ScanEnd(s: string)
    ensures InlinePatterns.SpanContents(InlinePatterns.Parse(InlinePatterns.PatternOf(InlinePatterns.PyBold), s, |s|)) == []
  {
  }

  /** Where `l2 + c` is a prefix of `s`, the pieces `l2` and `c` are slices of `s`. */
  lemma PrefixSlices(s: string, l: string, l2: string, c: string)
    requires l == l2 + c && |l| <= |s| && s[..|l|] == l
    ensures s[..|l2|] == l2 && s[|l2|..|l|] == c
  {
    assert s[..|l2|] == s[..|l|][..|l2|];
    assert s[|l2|..|l|] == s[..|l|][|l2|..];
  }

  /** A star-free stretch and then a marked phrase: the scan from the start of the stretch finds
      the phrase first. */
  lemma FreeThenPhrase(s: string, a: nat, b: nat, x: string, e: nat)
    requires a <= b && e == b + |x| + 4 && e <= |s|
    requires '*' !in s[a..b] && s[b..e] == "**" + x + "**"
    requires '*' !in x && |x| > 0
    ensures var pt := InlinePatterns.PatternOf(InlinePatterns.PyBold);
      InlinePatterns.SpanContents(InlinePatterns.Parse(pt, s, a))
        == [x] + InlinePatterns.SpanContents(InlinePatterns.Parse(pt, s, e))
  {
    ScanFree(s, a, b);
    ScanPhrase(s, b, x, e);
  }

  /** Stretches without asterisks yield no bold phrase. */
  lemma ScanFree(s: string, a: nat, b: nat)
    requires a <= b <= |s| && '*' !in s[a..b]
    ensures var pt := InlinePatterns.PatternOf(InlinePatterns.PyBold);
      InlinePatterns.SpanContents(InlinePatterns.Parse(pt, s, a)) == InlinePatterns.SpanContents(InlinePatterns.Parse(pt, s, b))
  {
    var pt := InlinePatterns.PatternOf(InlinePatterns.PyBold);
    forall i | a <= i < b ensures !InlinePatterns.CanStart(pt, s, i) {
      assert s[i] == s[a..b][i - a] && s[a..b][i - a] in s[a..b];
      assert s[i..][0] == s[i];
    }
    InlinePatterns.ParseFree(pt, s, a, b, "", "");
  }

  /** Two markers around a star-free phrase are one bold phrase. */
  lemma ScanPhrase(s: string, i: nat, x: string, e: nat)
    requires e == i + |x| + 4 && e <= |s| && s[i..e] == "**" + x + "**"
    requires |x| > 0 && '*' !in x
    ensures var pt := InlinePatterns.PatternOf(InlinePatterns.PyBold);
      InlinePatterns.SpanContents(InlinePatterns.Parse(pt, s, i))
        == [x] + InlinePatterns.SpanContents(InlinePatterns.Parse(pt, s, e))
  {
    var pt := InlinePatterns.PatternOf(InlinePatterns.PyBold);
    var w := "**" + x + "**";
    SliceInSlice(s, i, i + |w|, 0, 2);
    SliceInSlice(s, i, i + |w|, 2, 2 + |x|);
    SliceInSlice(s, i, i + |w|, 2 + |x|, |w|);
    assert w[0..2] == "**" && w[2..2 + |x|] == x && w[2 + |x|..|w|] == "**";
    forall m | 0 <= m < |x| ensures x[m] != '*' {
      assert x[m] in x;
    }
    InlinePatterns.ParseSpanAt(pt, s, i, x, e, "", "");
  }

  lemma SliceInSlice(s: string, i: nat, j: nat, k: nat, l: nat)
    requires i <= j <= |s| && k <= l <= j - i
    ensures s[i..j][k..l] == s[i + k..i + l]
  {
    forall m | 0 <= m < l - k ensures s[i..j][k..l][m] == s[i + k..i + l][m] {
      assert s[i..j][k..l][m] == s[i..j][k + m] == s[i + k + m];
    }
  }

  /** A line without `**` passes the bold clean-up unchanged. */
  lemma LineWithoutBoldKept(line: string)
    requires !Contains(line, "**")
    ensures CleanLine(line) == line
  {
    BoldStartContained(line);
    InlinePatterns.NoMatchesWithoutOpener(InlinePatterns.PyBold, line);
  }

  /** A stripped line that starts with `**` had `**` somewhere in it. */
  lemma BoldStartContained(line: string)
    ensures StartsWith(Trim(Python, line), "**") ==> Contains(line, "**")
  {
    var t := Trim(Python, line);
    if StartsWith(t, "**") {
      TrimSpec(Python, line);
      var k := |line| - |TrimStart(Python, line)|;
      SliceOfSlice(line, k, k + |t|, 2);
      ContainsAt(line, "**", k);
    }
  }

  lemma CleanLineNoNewline(line: string)
    requires '\n' !in line
    ensures '\n' !in CleanLine(line)
  {
    var t := Trim(Python, line);
    TrimAbsent(Python, line, '\n');
    if IsBoldLine(t) {
      assert forall c :: c in BoldInner(t) ==> c in t;
    } else {
      PartialBoldOnlyStars(line);
      InWithoutStars(CleanLine(line), '\n');
      InWithoutStars(line, '\n');
    }
  }

  // ----- the whole function -----

  /** Each line of the result is the two line passes applied to the matching line of the spaced
      reply: the item pass writes no line break, so the second split finds its lines again. */
  lemma FixLines(text: string)
    requires text != ""
    ensures SplitOn(FixSpec(text), "\n") == Cleaned(Fixed(SplitOn(SpacingPasses(text), "\n")))
  {
    var lines := SplitOn(SpacingPasses(text), "\n");
    SplitOnChar(SpacingPasses(text), '\n');
    var fixed := Fixed(lines);
    forall k | 0 <= k < |fixed| ensures '\n' !in fixed[k] {
      FixedLineNoNewline(lines, k);
    }
    SplitJoinChar(fixed, '\n');
    var cleaned := Cleaned(fixed);
    forall k | 0 <= k < |cleaned| ensures '\n' !in cleaned[k] {
      CleanLineNoNewline(fixed[k]);
    }
    SplitJoinChar(cleaned, '\n');
  }

  /** The reply keeps its number of lines. */
  lemma FixLineCount(text: string)
    ensures |SplitOn(FixSpec(text), "\n")| == |SplitOn(text, "\n")|
  {
    if text != "" {
      var upper := DigitSpacing.SpaceAfterNumber(DigitSpacing.UpperOnly, text);
      DigitSpacing.SpacingCounts(DigitSpacing.UpperOnly, text, '\n');
      DigitSpacing.SpacingCounts(DigitSpacing.AnyLetter, upper, '\n');
      SplitOnChar(SpacingPasses(text), '\n');
      SplitOnChar(text, '\n');
      FixLines(text);
    }
  }
}
