/** `formatMessageContent` (static/script.js:66-101) and two small pure helpers of the page:
    the toast icon lookup (static/script.js:626-634) and the history preview (static/script.js:414).

    A reply is preprocessed, escaped, its newlines become `<br>`, then the fixed replacements of
    the inline markup run in source order and the list formatter rebuilds the list paragraphs. */
module MessageFormat {
  import opened Strings
  import opened InlinePatterns
  import HtmlEscape
  import Preprocess
  import DigitSpacing
  import ListFormat

  /** The inline replacements of static/script.js:79-95, each on the result of the previous one. */
  function Markup(s: string): string {
    var bold := Replace(Bold, s);
    var italic := Replace(UnderscoreItalic, Replace(StarItalic, bold));
    var code := Replace(FencedCode, Replace(InlineCode, italic));
    Replace(Heading1, Replace(Heading2, Replace(Heading3, code)))
  }

  /** What the chain makes of a reply. The empty reply is the only falsy string. */
  function MessageHtml(content: string): string {
    if content == "" then ""
    else
      var escaped := HtmlEscape.Escape(Preprocess.PreprocessSpec(content));
      ListFormat.FormatListsSpec(Markup(ReplaceAll(escaped, "\n", "<br>")))
  }

  method FormatMessageContent(content: string) returns (formatted: string)
    ensures formatted == MessageHtml(content)
    ensures content == "" ==> formatted == ""
  {
    if content == "" {
      return "";
    }
    var pre := Preprocess.PreprocessContent(content);
    formatted := HtmlEscape.Escape(pre);
    formatted := ReplaceAll(formatted, "\n", "<br>");
    formatted := Replace(Bold, formatted);
    formatted := Replace(StarItalic, formatted);
    formatted := Replace(UnderscoreItalic, formatted);
    formatted := Replace(InlineCode, formatted);
    formatted := Replace(FencedCode, formatted);
    formatted := Replace(Heading3, formatted);
    formatted := Replace(Heading2, formatted);
    formatted := Replace(Heading1, formatted);
    formatted := ListFormat.FormatLists(formatted);
  }

  // ----- ordinary text passes through -----

  /** The characters that some step of the chain reacts to: a line break, the markup delimiters,
      the characters the escaping replaces, the period of a list number and the bullets. */
  predicate IsSpecial(c: char) {
    c == '\n' || c == '*' || c == '_' || c == '`' || c == '#' || c == '.' || c == '-' || c == '\U{2022}'
    || HtmlEscape.IsEscaped(c)
  }

  predicate Ordinary(s: string) {
    forall i :: 0 <= i < |s| ==> !IsSpecial(s[i])
  }

  /** A one-line reply with no special character comes out of the whole chain unchanged. */
  lemma OrdinaryTextUnchanged(s: string)
    requires Ordinary(s)
    ensures MessageHtml(s) == s
  {
    if s != "" {
      OrdinaryLacks(s);
      PreprocessKeeps(s);
      HtmlEscape.EscapePlain(s);
      SplitNoSep(s, '\n');
      MarkupKeeps(s);
      ListsKeep(s);
      ChainSteps(s, s, s, s, s, s);
    }
  }

  /** A reply of several ordinary lines: only the line breaks change, each becoming `<br>`. */
  lemma MultiLinePassThrough(ls: seq<string>)
    requires |ls| > 0 && forall k :: 0 <= k < |ls| ==> Ordinary(ls[k])
    ensures MessageHtml(Join(ls, "\n")) == Join(ls, "<br>")
  {
    if |ls| == 1 {
      OrdinaryTextUnchanged(ls[0]);
    } else {
      var s := Join(ls, "\n");
      var t := Join(ls, "<br>");
      LinesReachMarkup(ls);
      BrokenLinesKept(ls);
      ChainSteps(s, s, s, t, t, t);
    }
  }

  /** Lines joined by line feeds pass the spacing, escaping and line-break steps as one text. */
  lemma LinesReachMarkup(ls: seq<string>)
    requires |ls| > 1 && forall k :: 0 <= k < |ls| ==> Ordinary(ls[k])
    ensures var s := Join(ls, "\n");
      s != "" && Preprocess.PreprocessSpec(s) == s && HtmlEscape.Escape(s) == s
      && ReplaceAll(s, "\n", "<br>") == Join(ls, "<br>")
  {
    var s := Join(ls, "\n");
    assert s == ls[0] + "\n" + Join(ls[1..], "\n");
    assert s[|ls[0]|] == '\n';
    forall k | 0 <= k < |ls|
      ensures '.' !in ls[k] && '\n' !in ls[k]
      ensures '&' !in ls[k] && HtmlEscape.Nbsp !in ls[k] && '<' !in ls[k] && '>' !in ls[k]
    {
      OrdinaryLacks(ls[k]);
    }
    JoinWithout(ls, "\n", '.');
    JoinWithout(ls, "\n", '&');
    JoinWithout(ls, "\n", HtmlEscape.Nbsp);
    JoinWithout(ls, "\n", '<');
    JoinWithout(ls, "\n", '>');
    PreprocessKeeps(s);
    NoEscapedChar(s);
    HtmlEscape.EscapePlain(s);
    SplitJoinChar(ls, '\n');
  }

  /** Lines joined by line breaks pass the markup and list steps unchanged. */
  lemma BrokenLinesKept(ls: seq<string>)
    requires forall k :: 0 <= k < |ls| ==> Ordinary(ls[k])
    ensures Markup(Join(ls, "<br>")) == Join(ls, "<br>")
    ensures ListFormat.FormatListsSpec(Join(ls, "<br>")) == Join(ls, "<br>")
  {
    var t := Join(ls, "<br>");
    forall k | 0 <= k < |ls|
      ensures '.' !in ls[k] && '*' !in ls[k] && '_' !in ls[k] && '`' !in ls[k] && '#' !in ls[k]
      ensures '-' !in ls[k] && '\U{2022}' !in ls[k]
    {
      OrdinaryLacks(ls[k]);
    }
    BrLacks();
    JoinWithout(ls, "<br>", '*');
    JoinWithout(ls, "<br>", '_');
    JoinWithout(ls, "<br>", '`');
    JoinWithout(ls, "<br>", '#');
    JoinWithout(ls, "<br>", '.');
    JoinWithout(ls, "<br>", '-');
    JoinWithout(ls, "<br>", '\U{2022}');
    MarkupKeeps(t);
    ListsKeep(t);
  }

  lemma BrLacks()
    ensures '*' !in "<br>" && '_' !in "<br>" && '`' !in "<br>" && '#' !in "<br>"
    ensures '.' !in "<br>" && '-' !in "<br>" && '\U{2022}' !in "<br>"
  {
  }

  /** The characters that make a text special, one by one. */
  lemma OrdinaryLacks(s: string)
    requires Ordinary(s)
    ensures '.' !in s && '*' !in s && '_' !in s && '`' !in s && '#' !in s
    ensures '-' !in s && '\U{2022}' !in s && '\n' !in s
    ensures '&' !in s && HtmlEscape.Nbsp !in s && '<' !in s && '>' !in s
  {
  }

  lemma NoEscapedChar(s: string)
    requires '&' !in s && HtmlEscape.Nbsp !in s && '<' !in s && '>' !in s
    ensures forall i :: 0 <= i < |s| ==> !HtmlEscape.IsEscaped(s[i])
  {
    forall i | 0 <= i < |s| ensures !HtmlEscape.IsEscaped(s[i]) {
      assert s[i] in s;
    }
  }

  /** Without a period there is no number to space out and no line to renumber. */
  lemma PreprocessKeeps(s: string)
    requires '.' !in s && s != ""
    ensures Preprocess.PreprocessSpec(s) == s
  {
    NoSpacingSite(s);
    var lines := SplitOn(s, "\n");
    SplitPartsWithout(s, "\n", '.');
    LinesKept(lines);
    JoinSplit(s, "\n");
  }

  lemma NoSpacingSite(s: string)
    requires '.' !in s
    ensures DigitSpacing.SpaceAfterNumber(DigitSpacing.AnyLetter, s) == s
  {
    forall i: nat | i < |s| ensures !DigitSpacing.SiteAt(DigitSpacing.AnyLetter, s, i) {
      if i + 1 < |s| {
        assert s[i + 1] in s;
      }
    }
    DigitSpacing.SpacingWithoutSite(DigitSpacing.AnyLetter, s);
  }

  lemma LinesKept(lines: seq<string>)
    requires forall k :: 0 <= k < |lines| ==> '.' !in lines[k]
    ensures Preprocess.Renumbered(lines) == lines
  {
    forall k | 0 <= k < |lines| ensures Preprocess.OutputAt(lines, k) == lines[k] {
      Preprocess.RewrittenLine(lines, k);
      assert |lines[k]| >= 2 ==> lines[k][..2][1] == lines[k][1] && lines[k][1] in lines[k];
    }
  }

  /** Without asterisks, underscores, backticks and number signs no inline rule finds its opener. */
  lemma MarkupKeeps(s: string)
    requires '*' !in s && '_' !in s && '`' !in s && '#' !in s
    ensures Markup(s) == s
  {
    NotContainsChar(s, PatternOf(Bold).opener, 0);
    NotContainsChar(s, PatternOf(StarItalic).opener, 0);
    ReplaceWithoutOpener(Bold, s);
    ReplaceWithoutOpener(StarItalic, s);
    LaterRulesKeep(s);
    MarkupSteps(s, s, s);
  }

  /** The inline chain as its first two replacements and the rest. */
  lemma MarkupSteps(s: string, m1: string, m2: string)
    requires Replace(Bold, s) == m1 && Replace(StarItalic, m1) == m2
    requires Replace(Heading1, Replace(Heading2, Replace(Heading3,
               Replace(FencedCode, Replace(InlineCode, Replace(UnderscoreItalic, m2)))))) == m2
    ensures Markup(s) == m2
  {
  }

  /** The whole chain as its five stages. */
  lemma ChainSteps(content: string, pre: string, escaped: string, broken: string, marked: string, out: string)
    requires content != "" && Preprocess.PreprocessSpec(content) == pre
    requires HtmlEscape.Escape(pre) == escaped && ReplaceAll(escaped, "\n", "<br>") == broken
    requires Markup(broken) == marked && ListFormat.FormatListsSpec(marked) == out
    ensures MessageHtml(content) == out
  {
  }

  /** The rules after the two star rules leave a text without their opening characters alone. */
  lemma LaterRulesKeep(s: string)
    requires '_' !in s && '`' !in s && '#' !in s
    ensures Replace(Heading1, Replace(Heading2, Replace(Heading3,
              Replace(FencedCode, Replace(InlineCode, Replace(UnderscoreItalic, s)))))) == s
  {
    NotContainsChar(s, PatternOf(UnderscoreItalic).opener, 0);
    NotContainsChar(s, PatternOf(InlineCode).opener, 0);
    NotContainsChar(s, PatternOf(FencedCode).opener, 0);
    NotContainsChar(s, PatternOf(Heading3).opener, 0);
    NotContainsChar(s, PatternOf(Heading2).opener, 0);
    NotContainsChar(s, PatternOf(Heading1).opener, 0);
    ReplaceWithoutOpener(UnderscoreItalic, s);
    ReplaceWithoutOpener(InlineCode, s);
    ReplaceWithoutOpener(FencedCode, s);
    ReplaceWithoutOpener(Heading3, s);
    ReplaceWithoutOpener(Heading2, s);
    ReplaceWithoutOpener(Heading1, s);
  }

  /** Without periods, hyphens, asterisks and bullets no line is a list item, so no paragraph
      is rebuilt. */
  lemma ListsKeep(s: string)
    requires '.' !in s && '-' !in s && '*' !in s && '\U{2022}' !in s
    ensures ListFormat.FormatListsSpec(s) == s
  {
    var ps := SplitOn(s, "<br><br>");
    SplitPartsWithout(s, "<br><br>", '.');
    SplitPartsWithout(s, "<br><br>", '-');
    SplitPartsWithout(s, "<br><br>", '*');
    SplitPartsWithout(s, "<br><br>", '\U{2022}');
    forall p | p in ps ensures !ListFormat.HasListItems(SplitOn(p, "<br>")) {
      var k :| 0 <= k < |ps| && ps[k] == p;
      NoListLines(p);
    }
    ListFormat.TextWithoutListsUnchanged(s);
  }

  lemma NoListLines(p: string)
    requires '.' !in p && '-' !in p && '*' !in p && '\U{2022}' !in p
    ensures !ListFormat.HasListItems(SplitOn(p, "<br>"))
  {
    var lines := SplitOn(p, "<br>");
    SplitPartsWithout(p, "<br>", '.');
    SplitPartsWithout(p, "<br>", '-');
    SplitPartsWithout(p, "<br>", '*');
    SplitPartsWithout(p, "<br>", '\U{2022}');
    forall k | 0 <= k < |lines| ensures !ListFormat.IsListStart(Trim(JavaScript, lines[k])) {
      NotListStart(lines[k]);
    }
  }

  lemma NotListStart(line: string)
    requires '.' !in line && '-' !in line && '*' !in line && '\U{2022}' !in line
    ensures !ListFormat.IsListStart(Trim(JavaScript, line))
  {
    var t := Trim(JavaScript, line);
    TrimAbsent(JavaScript, line, '.');
    TrimAbsent(JavaScript, line, '-');
    TrimAbsent(JavaScript, line, '*');
    TrimAbsent(JavaScript, line, '\U{2022}');
    var d := DigitRun(t);
    assert d < |t| ==> t[d] in t;
    assert |t| > 0 ==> t[0] in t;
  }

  // ----- the order of the star rules -----

  /** No line terminator: the content class `.` of the star rules. */
  predicate SingleLine(s: string) {
    forall i :: 0 <= i < |s| ==> !IsLineTerminator(s[i])
  }

  /** Two asterisks are never next to each other. */
  predicate NoDoubleStar(s: string) {
    forall i :: 0 <= i < |s| - 1 ==> s[i] != '*' || s[i + 1] != '*'
  }

  /** Bold runs before italic: in `**a** b *c*` the double asterisks become `<strong>` and the
      single ones are left for `<em>`, and nothing else of the chain changes the line. */
  lemma BoldBeforeItalic(a: string, b: string, c: string)
    requires Ordinary(a) && Ordinary(b) && Ordinary(c) && SingleLine(a) && SingleLine(c) && |c| > 0
    ensures MessageHtml("**" + a + "**" + b + "*" + c + "*")
         == "<strong>" + a + "</strong>" + b + "<em>" + c + "</em>"
  {
    var m := "**" + a + "**" + b + "*" + c + "*";
    var out := "<strong>" + a + "</strong>" + b + "<em>" + c + "</em>";
    OrdinaryLacks(a);
    OrdinaryLacks(b);
    OrdinaryLacks(c);
    PassesToMarkup(m);
    StarMarkup(a, b, c);
    TaggedLacksListMarks(a, b, c);
    ListsKeep(out);
    ChainSteps(m, m, m, m, out, out);
  }

  /** The inline rules on `**a** b *c*`. */
  lemma StarMarkup(a: string, b: string, c: string)
    requires '*' !in a && '*' !in b && '*' !in c && SingleLine(a) && SingleLine(c) && |c| > 0
    requires '_' !in a && '_' !in b && '_' !in c && '`' !in a && '`' !in b && '`' !in c
    requires '#' !in a && '#' !in b && '#' !in c
    ensures Markup("**" + a + "**" + b + "*" + c + "*") == "<strong>" + a + "</strong>" + b + "<em>" + c + "</em>"
  {
    var rest := b + "*" + c + "*";
    var m := "**" + a + "**" + rest;
    Regroup("**" + a + "**", b, "*", c, "*");
    NoDoubleStarAround(b, c);
    BoldStep(a, rest);
    var strong := "<strong>" + a + "</strong>";
    var m1 := strong + rest;
    Regroup(strong, b, "*", c, "*");
    TaggedLacks(a, b, c);
    ItalicStep(strong + b, c);
    var out := strong + b + "<em>" + c + "</em>";
    LaterRulesKeep(out);
    MarkupSteps(m, m1, out);
  }

  /** The tags bring in none of the characters the later rules and the list formatter react to. */
  lemma TaggedLacks(a: string, b: string, c: string)
    requires '*' !in a && '*' !in b && '*' !in c && '_' !in a && '_' !in b && '_' !in c
    requires '`' !in a && '`' !in b && '`' !in c && '#' !in a && '#' !in b && '#' !in c
    ensures '*' !in "<strong>" + a + "</strong>" + b
    ensures var out := "<strong>" + a + "</strong>" + b + "<em>" + c + "</em>";
      '*' !in out && '_' !in out && '`' !in out && '#' !in out
  {
    StrongTagsLack();
    EmTagsLack();
  }

  lemma TaggedLacksListMarks(a: string, b: string, c: string)
    requires '*' !in a && '*' !in b && '*' !in c
    requires '.' !in a && '.' !in b && '.' !in c && '-' !in a && '-' !in b && '-' !in c
    requires '\U{2022}' !in a && '\U{2022}' !in b && '\U{2022}' !in c
    ensures var out := "<strong>" + a + "</strong>" + b + "<em>" + c + "</em>";
      '*' !in out && '.' !in out && '-' !in out && '\U{2022}' !in out
  {
    StrongTagsLack();
    EmTagsLack();
  }

  lemma StrongTagsLack()
    ensures '*' !in "<strong>" && '_' !in "<strong>" && '`' !in "<strong>" && '#' !in "<strong>"
    ensures '*' !in "</strong>" && '_' !in "</strong>" && '`' !in "</strong>" && '#' !in "</strong>"
    ensures '.' !in "<strong>" && '-' !in "<strong>" && '\U{2022}' !in "<strong>"
    ensures '.' !in "</strong>" && '-' !in "</strong>" && '\U{2022}' !in "</strong>"
  {
    OpenStrongLacks();
  }

  lemma OpenStrongLacks()
    ensures '*' !in "<strong>" && '_' !in "<strong>" && '`' !in "<strong>" && '#' !in "<strong>"
    ensures '.' !in "<strong>" && '-' !in "<strong>" && '\U{2022}' !in "<strong>"
  {
  }

  lemma EmTagsLack()
    ensures '*' !in "<em>" && '_' !in "<em>" && '`' !in "<em>" && '#' !in "<em>"
    ensures '*' !in "</em>" && '_' !in "</em>" && '`' !in "</em>" && '#' !in "</em>"
    ensures '.' !in "<em>" && '-' !in "<em>" && '\U{2022}' !in "<em>"
    ensures '.' !in "</em>" && '-' !in "</em>" && '\U{2022}' !in "</em>"
  {
  }

  /** A one-line text without periods and escaped characters reaches the inline rules unchanged. */
  lemma PassesToMarkup(m: string)
    requires m != "" && '.' !in m && '\n' !in m
    requires '&' !in m && HtmlEscape.Nbsp !in m && '<' !in m && '>' !in m
    ensures Preprocess.PreprocessSpec(m) == m && HtmlEscape.Escape(m) == m
    ensures ReplaceAll(m, "\n", "<br>") == m
  {
    PreprocessKeeps(m);
    NoEscapedChar(m);
    HtmlEscape.EscapePlain(m);
    SplitNoSep(m, '\n');
  }

  /** The example of the precedence, written out. */
  lemma BoldAndItalicExample()
    ensures MessageHtml("**bold** and *italic*") == "<strong>bold</strong> and <em>italic</em>"
  {
    ExamplePiecesPlain();
    ExampleJoined();
    BoldBeforeItalic("bold", " and ", "italic");
  }

  lemma ExamplePiecesPlain()
    ensures Ordinary("bold") && Ordinary(" and ") && Ordinary("italic")
    ensures SingleLine("bold") && SingleLine("italic")
  {
  }

  lemma ExampleJoined()
    ensures "**bold** and *italic*" == "**" + "bold" + "**" + " and " + "*" + "italic" + "*"
    ensures "<strong>bold</strong> and <em>italic</em>"
        == "<strong>" + "bold" + "</strong>" + " and " + "<em>" + "italic" + "</em>"
  {
  }

  lemma NoDoubleStarAround(b: string, c: string)
    requires '*' !in b && '*' !in c && |c| > 0
    ensures NoDoubleStar(b + "*" + c + "*")
  {
    var s := b + "*" + c + "*";
    forall i | 0 <= i < |s| - 1 ensures s[i] != '*' || s[i + 1] != '*' {
      if i < |b| {
        assert s[i] == b[i] && b[i] in b;
      } else if i == |b| {
        assert s[i + 1] == c[0] && c[0] in c;
      } else if i < |b| + 1 + |c| {
        assert s[i] == c[i - |b| - 1] && c[i - |b| - 1] in c;
      }
    }
  }

  /** The bold rule on `**a**` followed by text without two asterisks in a row. */
  lemma BoldStep(a: string, rest: string)
    requires '*' !in a && SingleLine(a) && NoDoubleStar(rest)
    ensures Replace(Bold, "**" + a + "**" + rest) == "<strong>" + a + "</strong>" + rest
  {
    var pt := PatternOf(Bold);
    var w := "**" + a + "**";
    var s := w + rest;
    WrappedSlices(s, w, "**", a);
    forall m | 0 <= m < |a| ensures Allowed(pt, a[m]) && a[m] != '*' {
      assert a[m] in a;
    }
    forall i | |w| <= i < |s| ensures !CanStart(pt, s, i) {
      assert s[i] == rest[i - |w|];
      assert i + 1 < |s| ==> s[i + 1] == rest[i + 1 - |w|] && s[i..][..2] == [s[i], s[i + 1]];
    }
    SpanThenFree(pt, s, 0, a, |w|, "<strong>", "</strong>");
    assert s[|w|..] == rest;
  }

  /** Where `w` is the first part of `s` and is `d + x + d`, the three pieces are slices of `s`. */
  lemma WrappedSlices(s: string, w: string, d: string, x: string)
    requires w == d + x + d && |w| <= |s| && s[..|w|] == w
    ensures s[0..|d|] == d && s[|d|..|d| + |x|] == x && s[|d| + |x|..|w|] == d
  {
    assert s[0..|d|] == w[0..|d|];
    assert s[|d|..|d| + |x|] == w[|d|..|d| + |x|];
    assert s[|d| + |x|..|w|] == w[|d| + |x|..|w|];
  }

  /** The italic rule on star-free text followed by `*c*`. */
  lemma ItalicStep(pre: string, c: string)
    requires '*' !in pre && '*' !in c && SingleLine(c)
    ensures Replace(StarItalic, pre + "*" + c + "*") == pre + "<em>" + c + "</em>"
  {
    var pt := PatternOf(StarItalic);
    var w := "*" + c + "*";
    var s := pre + w;
    assert s == pre + "*" + c + "*";
    assert s[|pre|..|s|] == w;
    WrappedAt(s, |pre|, "*", c, |s|);
    forall m | 0 <= m < |c| ensures Allowed(pt, c[m]) && c[m] != '*' {
      assert c[m] in c;
    }
    forall i | 0 <= i < |pre| ensures !CanStart(pt, s, i) {
      assert s[i] == pre[i] && pre[i] in pre;
      assert s[i..][..1] == [s[i]];
    }
    assert s[..|pre|] == pre;
    FreeThenLastSpan(pt, s, |pre|, c, "<em>", "</em>");
  }

  /** Where `d + x + d` is the slice of `s` from `i` to `e`, its three pieces are slices too. */
  lemma WrappedAt(s: string, i: nat, d: string, x: string, e: nat)
    requires e == i + |d| + |x| + |d| && e <= |s| && s[i..e] == d + x + d
    ensures s[i..i + |d|] == d && s[i + |d|..i + |d| + |x|] == x && s[i + |d| + |x|..e] == d
  {
    var w := s[i..e];
    forall m | 0 <= m < |d| ensures s[i..i + |d|][m] == d[m] {
      assert s[i + m] == w[m];
    }
    forall m | 0 <= m < |x| ensures s[i + |d|..i + |d| + |x|][m] == x[m] {
      assert s[i + |d| + m] == w[|d| + m];
    }
    forall m | 0 <= m < |d| ensures s[i + |d| + |x|..e][m] == d[m] {
      assert s[i + |d| + |x| + m] == w[|d| + |x| + m];
    }
  }

  // ----- the order of the code rules -----

  /** Inline code runs before code blocks, so a fenced block is taken apart by the inline rule
      (its first backticks pair with the text inside) and the block rule finds nothing left. */
  lemma FenceTakenByInlineCode()
    ensures Replace(InlineCode, "```x```") == "``<code>x</code>``"
    ensures Replace(FencedCode, Replace(InlineCode, "```x```")) == "``<code>x</code>``"
  {
    InlineCodeOnFence();
    RenderFencePieces();
    NoFenceLeft("``<code>x</code>``");
  }

  lemma RenderFencePieces()
    ensures Render("<code>", "</code>", [Lit('`'), Lit('`'), Span("x"), Lit('`'), Lit('`')]) == "``<code>x</code>``"
  {
    var tick := Lit('`');
    var r1 := Render("<code>", "</code>", [tick]);
    assert [tick][1..] == [];
    assert RenderPiece("<code>", "</code>", tick) == ['`'];
    assert Render("<code>", "</code>", []) == [];
    assert r1 == RenderPiece("<code>", "</code>", tick) + Render("<code>", "</code>", []);
    assert r1 == "`" + "";
    var r2 := Render("<code>", "</code>", [tick, tick]);
    assert [tick, tick][1..] == [tick];
    assert r2 == "`" + r1;
    var r3 := Render("<code>", "</code>", [Span("x"), tick, tick]);
    assert [Span("x"), tick, tick][1..] == [tick, tick];
    assert r3 == "<code>x</code>" + r2;
    var r4 := Render("<code>", "</code>", [tick, Span("x"), tick, tick]);
    assert [tick, Span("x"), tick, tick][1..] == [Span("x"), tick, tick];
    var r5 := Render("<code>", "</code>", [tick, tick, Span("x"), tick, tick]);
    assert [tick, tick, Span("x"), tick, tick][1..] == [tick, Span("x"), tick, tick];
    assert r5 == "`" + ("`" + r3);
  }

  lemma InlineCodeOnFence()
    ensures Parse(PatternOf(InlineCode), "```x```", 0) == [Lit('`'), Lit('`'), Span("x"), Lit('`'), Lit('`')]
  {
    var s := "```x```";
    var pt := PatternOf(InlineCode);
    assert FindClose(pt, s, 1, 1).None?;
    assert FindClose(pt, s, 2, 2).None?;
    assert FindClose(pt, s, 3, 4) == Some(4);
    assert s[3..4] == "x";
    assert Parse(pt, s, 6) == [Lit('`')];
    assert Parse(pt, s, 5) == [Lit('`'), Lit('`')];
    assert Parse(pt, s, 2) == [Span("x"), Lit('`'), Lit('`')];
  }

  lemma NoFenceLeft(out: string)
    requires out == "``<code>x</code>``"
    ensures Replace(FencedCode, out) == out
  {
    var mid := "<code>x</code>";
    assert out == "``" + mid + "``";
    assert '`' !in mid;
    forall q | 0 <= q < |out| - 2 ensures out[q] != '`' || out[q + 1] != '`' || out[q + 2] != '`' {
      if q < 2 {
        assert out[2] == '<';
      } else {
        assert out[q] == mid[q - 2];
      }
    }
    NoFenceStarts(out);
    NoStartUnchanged(PatternOf(FencedCode), OpenTag(FencedCode), CloseTag(FencedCode), out);
  }

  /** A text without three backticks in a row holds no start of a code block. */
  lemma NoFenceStarts(s: string)
    requires forall q :: 0 <= q < |s| - 2 ==> s[q] != '`' || s[q + 1] != '`' || s[q + 2] != '`'
    ensures forall q :: 0 <= q < |s| ==> !CanStart(PatternOf(FencedCode), s, q)
  {
    forall q | 0 <= q < |s| ensures !StartsWith(s[q..], "```") {
      if q + 3 <= |s| {
        assert s[q..][..3] == [s[q], s[q + 1], s[q + 2]];
      }
    }
  }

  // ----- toast icons and history previews -----

  /** The Font Awesome icon of a toast: one per known type, `info-circle` for any other type. */
  function ToastIcon(kind: string): (icon: string)
    ensures icon in {"check-circle", "exclamation-circle", "exclamation-triangle", "info-circle"}
    ensures kind == "success" ==> icon == "check-circle"
    ensures kind == "error" ==> icon == "exclamation-circle"
    ensures kind == "warning" ==> icon == "exclamation-triangle"
    ensures kind == "info" ==> icon == "info-circle"
    ensures kind !in {"success", "error", "warning", "info"} ==> icon == "info-circle"
  {
    if kind == "success" then "check-circle"
    else if kind == "error" then "exclamation-circle"
    else if kind == "warning" then "exclamation-triangle"
    else "info-circle"
  }

  /** The four known types have four different icons. */
  lemma ToastIconsDistinct(a: string, b: string)
    requires a in {"success", "error", "warning", "info"} && b in {"success", "error", "warning", "info"}
    ensures ToastIcon(a) == ToastIcon(b) <==> a == b
  {
  }

  const PreviewLength: nat := 50

  /** The sidebar preview of a user message: at most 50 characters, then `...` when cut. */
  function Preview(message: string): (p: string)
    ensures |message| <= PreviewLength ==> p == message
    ensures |message| > PreviewLength ==> |p| == PreviewLength + 3
                                          && StartsWith(message, p[..PreviewLength])
                                          && EndsWith(p, "...")
  {
    if |message| > PreviewLength then message[..PreviewLength] + "..." else message
  }
}
