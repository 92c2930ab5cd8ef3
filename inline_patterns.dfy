/** The fixed regular expressions of the inline markup chain (static/script.js:79-95) and of the
    bold scan in main.py:158, each written as a left-to-right scanner.

    Every one of them has the shape OPENER CONTENT CLOSER, where CONTENT is a lazy (or, for
    `[^`]+` and `[^*]+`, a greedy run that cannot contain the closer's first character, which
    comes to the same) repetition of one character class. A global replacement tries each
    position from left to right; at a position where the opener is present it takes the FIRST
    closer that follows a long enough run of allowed characters, and if there is none it keeps the
    character and moves one position on. After a match the scan resumes right after the closer.
    For the three heading rules (`^### (.*?)$` with the `m` flag) the opener must sit at the start
    of the text or right after a line terminator, and the closer is the empty string in front of
    the next line terminator or at the end of the text. */
module InlinePatterns {
  import opened Strings

  datatype Rule =
    | Bold              // /\*\*(.*?)\*\*/g          script.js:79
    | StarItalic        // /\*(.*?)\*/g              script.js:82
    | UnderscoreItalic  // /_(.*?)_/g                script.js:83
    | InlineCode        // /`([^`]+)`/g              script.js:86
    | FencedCode        // /```([\s\S]*?)```/g       script.js:89
    | Heading3          // /^### (.*?)$/gm           script.js:93
    | Heading2          // /^## (.*?)$/gm            script.js:94
    | Heading1          // /^# (.*?)$/gm             script.js:95
    | PyBold            // r'\*\*([^*]+)\*\*'        main.py:158 (only searched, never rendered)

  /** The character class of the content: `.` (no line terminator), `[^`]` or `[^*]`, `[\s\S]`. */
  datatype CharClass = NoLineTerminator | AllBut(excluded: char) | AnyChar

  /** The shape of one of the expressions: opener, closer (empty for the headings, whose end is a
      position), whether the opener must begin a line, the least content length (`+` or `*?`)
      and the content class. */
  datatype Pattern = Pattern(opener: string, closer: string, lineStart: bool, minLen: nat, allowed: CharClass)

  predicate WellFormed(pt: Pattern) {
    |pt.opener| > 0 && (pt.lineStart ==> pt.closer == "")
  }

  function PatternOf(r: Rule): (pt: Pattern)
    ensures WellFormed(pt)
    ensures pt.lineStart <==> r.Heading3? || r.Heading2? || r.Heading1?
  {
    match r
    case Bold => Pattern("**", "**", false, 0, NoLineTerminator)
    case StarItalic => Pattern("*", "*", false, 0, NoLineTerminator)
    case UnderscoreItalic => Pattern("_", "_", false, 0, NoLineTerminator)
    case InlineCode => Pattern("`", "`", false, 1, AllBut('`'))
    case FencedCode => Pattern("```", "```", false, 0, AnyChar)
    case Heading3 => Pattern("### ", "", true, 0, NoLineTerminator)
    case Heading2 => Pattern("## ", "", true, 0, NoLineTerminator)
    case Heading1 => Pattern("# ", "", true, 0, NoLineTerminator)
    case PyBold => Pattern("**", "**", false, 1, AllBut('*'))
  }

  predicate Allowed(pt: Pattern, c: char) {
    match pt.allowed
    case NoLineTerminator => !IsLineTerminator(c)
    case AllBut(x) => c != x
    case AnyChar => true
  }

  function OpenTag(r: Rule): string
    requires !r.PyBold?
  {
    match r
    case Bold => "<strong>"
    case StarItalic => "<em>"
    case UnderscoreItalic => "<em>"
    case InlineCode => "<code>"
    case FencedCode => "<pre><code>"
    case Heading3 => "<h3 class=\"subsection\">"
    case Heading2 => "<h2 class=\"section\">"
    case Heading1 => "<h1 class=\"main-heading\">"
  }

  function CloseTag(r: Rule): string
    requires !r.PyBold?
  {
    match r
    case Bold => "</strong>"
    case StarItalic => "</em>"
    case UnderscoreItalic => "</em>"
    case InlineCode => "</code>"
    case FencedCode => "</code></pre>"
    case Heading3 => "</h3>"
    case Heading2 => "</h2>"
    case Heading1 => "</h1>"
  }

  /** The closer can be matched at index `k`. */
  predicate CloseAt(pt: Pattern, s: string, k: nat)
    requires k <= |s|
  {
    if pt.lineStart then k == |s| || IsLineTerminator(s[k])
    else StartsWith(s[k..], pt.closer)
  }

  /** The opener can be matched at index `p`. */
  predicate CanStart(pt: Pattern, s: string, p: nat) {
    p < |s| && StartsWith(s[p..], pt.opener)
    && (pt.lineStart ==> p == 0 || IsLineTerminator(s[p - 1]))
  }

  predicate AllAllowed(pt: Pattern, s: string, lo: nat, hi: nat)
    requires lo <= hi <= |s|
  {
    forall m :: lo <= m < hi ==> Allowed(pt, s[m])
  }

  /** Content starting at `from` may end at `j` (the closer starts there). */
  predicate ValidEnd(pt: Pattern, s: string, from: nat, j: nat)
    requires from <= |s|
  {
    from + pt.minLen <= j <= |s| && CloseAt(pt, s, j) && AllAllowed(pt, s, from, j)
  }

  /** The lazy search for the closer of content that began at `from`, having read up to `k`. */
  function FindClose(pt: Pattern, s: string, from: nat, k: nat): (res: Option<nat>)
    requires from <= k <= |s| && AllAllowed(pt, s, from, k)
    ensures res.Some? ==> k <= res.value <= |s| && CloseAt(pt, s, res.value)
    decreases |s| - k
  {
    if from + pt.minLen <= k && CloseAt(pt, s, k) then Some(k)
    else if k < |s| && Allowed(pt, s[k]) then FindClose(pt, s, from, k + 1)
    else None
  }

  /** The search finds the first valid end at or after `k`, and fails only when there is none. */
  lemma {:induction false} FindCloseSpec(pt: Pattern, s: string, from: nat, k: nat)
    requires from <= k <= |s| && AllAllowed(pt, s, from, k)
    ensures FindClose(pt, s, from, k).Some? ==> ValidEnd(pt, s, from, FindClose(pt, s, from, k).value)
    ensures FindClose(pt, s, from, k).Some? ==>
              forall m :: k <= m < FindClose(pt, s, from, k).value ==> !ValidEnd(pt, s, from, m)
    ensures FindClose(pt, s, from, k).None? ==> forall j :: k <= j ==> !ValidEnd(pt, s, from, j)
    decreases |s| - k
  {
    if from + pt.minLen <= k && CloseAt(pt, s, k) {
    } else if k < |s| && Allowed(pt, s[k]) {
      FindCloseSpec(pt, s, from, k + 1);
    } else {
      forall j | k <= j ensures !ValidEnd(pt, s, from, j) {
        if j > k && j <= |s| {
          assert !AllAllowed(pt, s, from, j) by {
            assert !Allowed(pt, s[k]);
          }
        }
      }
    }
  }

  /** A match found by the scanner: the content between opener and closer that was replaced. */
  datatype Piece = Lit(c: char) | Span(content: string)

  /** End of the closer of the match whose content ends at `j`. */
  function ResumeAt(pt: Pattern, s: string, j: nat): nat
    requires j <= |s| && CloseAt(pt, s, j)
  {
    j + |pt.closer|
  }

  /** The global scan from index `p`: the pieces of `s[p..]`, literal characters and matches. */
  function Parse(pt: Pattern, s: string, p: nat): seq<Piece>
    requires WellFormed(pt) && p <= |s|
    decreases |s| - p
  {
    if p == |s| then []
    else if CanStart(pt, s, p) then
      var from := p + |pt.opener|;
      match FindClose(pt, s, from, from)
      case Some(j) => [Span(s[from..j])] + Parse(pt, s, ResumeAt(pt, s, j))
      case None => [Lit(s[p])] + Parse(pt, s, p + 1)
    else [Lit(s[p])] + Parse(pt, s, p + 1)
  }

  /** The text the pieces were read from: delimiters put back around every match. */
  function Unparse(pt: Pattern, ps: seq<Piece>): string
    decreases |ps|
  {
    if |ps| == 0 then "" else SourceOf(pt, ps[0]) + Unparse(pt, ps[1..])
  }

  function SourceOf(pt: Pattern, pc: Piece): string {
    match pc
    case Lit(c) => [c]
    case Span(x) => pt.opener + x + pt.closer
  }

  /** The replacement text: every match wrapped in the given tags. */
  function Render(open: string, close: string, ps: seq<Piece>): string
    decreases |ps|
  {
    if |ps| == 0 then "" else RenderPiece(open, close, ps[0]) + Render(open, close, ps[1..])
  }

  function RenderPiece(open: string, close: string, pc: Piece): string {
    match pc
    case Lit(c) => [c]
    case Span(x) => open + x + close
  }

  /** `text.replace(regex, '<tag>$1</tag>')` for one of the eight rules of the chain. */
  function Replace(r: Rule, s: string): string
    requires !r.PyBold?
  {
    Render(OpenTag(r), CloseTag(r), Parse(PatternOf(r), s, 0))
  }

  /** The contents of the matches found by a `finditer` scan, in order. */
  function Matches(r: Rule, s: string): seq<string>
  {
    SpanContents(Parse(PatternOf(r), s, 0))
  }

  function SpanContents(ps: seq<Piece>): (xs: seq<string>)
    ensures |xs| <= |ps|
    decreases |ps|
  {
    if |ps| == 0 then []
    else if ps[0].Span? then [ps[0].content] + SpanContents(ps[1..])
    else SpanContents(ps[1..])
  }

  // ----- properties of the scan -----

  /** The scan loses nothing: putting the delimiters back gives the scanned text. */
  lemma {:induction false} ParseRoundTrip(pt: Pattern, s: string, p: nat)
    requires WellFormed(pt) && p <= |s|
    ensures Unparse(pt, Parse(pt, s, p)) == s[p..]
    decreases |s| - p
  {
    if p < |s| {
      var from := p + |pt.opener|;
      if CanStart(pt, s, p) && FindClose(pt, s, from, from).Some? {
        var j := FindClose(pt, s, from, from).value;
        var q := ResumeAt(pt, s, j);
        ParseSpanStep(pt, s, p, j);
        ParseRoundTrip(pt, s, q);
        UnparseCons(pt, Span(s[from..j]), Parse(pt, s, q));
        SpanSource(pt, s, p, j);
      } else {
        ParseLitStep(pt, s, p);
        ParseRoundTrip(pt, s, p + 1);
        UnparseCons(pt, Lit(s[p]), Parse(pt, s, p + 1));
        assert s[p..] == [s[p]] + s[p + 1..];
      }
    }
  }

  /** The scan at a position where a match starts and is closed. */
  lemma ParseSpanStep(pt: Pattern, s: string, p: nat, j: nat)
    requires WellFormed(pt) && p < |s| && CanStart(pt, s, p)
    requires FindClose(pt, s, p + |pt.opener|, p + |pt.opener|) == Some(j)
    ensures Parse(pt, s, p) == [Span(s[p + |pt.opener|..j])] + Parse(pt, s, ResumeAt(pt, s, j))
  {
  }

  /** The scan at a position where no match starts. */
  lemma ParseLitStep(pt: Pattern, s: string, p: nat)
    requires WellFormed(pt) && p < |s|
    requires !(CanStart(pt, s, p) && FindClose(pt, s, p + |pt.opener|, p + |pt.opener|).Some?)
    ensures Parse(pt, s, p) == [Lit(s[p])] + Parse(pt, s, p + 1)
  {
  }

  lemma UnparseCons(pt: Pattern, pc: Piece, ps: seq<Piece>)
    ensures Unparse(pt, [pc] + ps) == SourceOf(pt, pc) + Unparse(pt, ps)
  {
    assert ([pc] + ps)[1..] == ps;
  }

  lemma SpanSource(pt: Pattern, s: string, p: nat, j: nat)
    requires WellFormed(pt) && CanStart(pt, s, p) && p + |pt.opener| <= j <= |s| && CloseAt(pt, s, j)
    ensures SourceOf(pt, Span(s[p + |pt.opener|..j])) + s[ResumeAt(pt, s, j)..] == s[p..]
  {
    var o, c := pt.opener, pt.closer;
    PrefixAt(s, p, o);
    assert StartsWith(s[j..], c);
    PrefixAt(s, j, c);
    SliceSplit(s, p, p + |o|, j, j + |c|);
  }

  /** A prefix of a suffix is a slice. */
  lemma PrefixAt(s: string, p: nat, o: string)
    requires p <= |s| && StartsWith(s[p..], o)
    ensures p + |o| <= |s| && s[p..p + |o|] == o
  {
    assert s[p..][..|o|] == s[p..p + |o|];
  }

  lemma SliceSplit(s: string, a: nat, b: nat, c: nat, d: nat)
    requires a <= b <= c <= d <= |s|
    ensures s[a..] == s[a..b] + s[b..c] + s[c..d] + s[d..]
  {
  }

  /** What the content of a match looks like on its own: at least the minimum length, only
      allowed characters, and (for the delimited rules) no closer starting inside it, so the
      first closing delimiter always wins. */
  predicate ContentOk(pt: Pattern, x: string) {
    && |x| >= pt.minLen
    && (forall m :: 0 <= m < |x| ==> Allowed(pt, x[m]))
    && (!pt.lineStart ==> forall m :: pt.minLen <= m < |x| ==> !StartsWith((x + pt.closer)[m..], pt.closer))
  }

  predicate AllContentOk(pt: Pattern, ps: seq<Piece>) {
    forall i :: 0 <= i < |ps| && ps[i].Span? ==> ContentOk(pt, ps[i].content)
  }

  /** Every match the scan reports is well formed. */
  lemma {:induction false} ParseContentOk(pt: Pattern, s: string, p: nat)
    requires WellFormed(pt) && p <= |s|
    ensures AllContentOk(pt, Parse(pt, s, p))
    decreases |s| - p
  {
    if p < |s| {
      var from := p + |pt.opener|;
      if CanStart(pt, s, p) && FindClose(pt, s, from, from).Some? {
        var j := FindClose(pt, s, from, from).value;
        ParseSpanStep(pt, s, p, j);
        ParseContentOk(pt, s, ResumeAt(pt, s, j));
        MatchContentOk(pt, s, from, j);
        AllContentOkCons(pt, Span(s[from..j]), Parse(pt, s, ResumeAt(pt, s, j)));
      } else {
        ParseLitStep(pt, s, p);
        ParseContentOk(pt, s, p + 1);
        AllContentOkCons(pt, Lit(s[p]), Parse(pt, s, p + 1));
      }
    }
  }

  lemma AllContentOkCons(pt: Pattern, pc: Piece, ps: seq<Piece>)
    requires AllContentOk(pt, ps) && (pc.Span? ==> ContentOk(pt, pc.content))
    ensures AllContentOk(pt, [pc] + ps)
  {
    assert forall i :: 1 <= i < |ps| + 1 ==> ([pc] + ps)[i] == ps[i - 1];
  }

  lemma MatchContentOk(pt: Pattern, s: string, from: nat, j: nat)
    requires from <= j <= |s| && FindClose(pt, s, from, from) == Some(j)
    ensures ContentOk(pt, s[from..j])
  {
    var x := s[from..j];
    var cl := pt.closer;
    FindCloseSpec(pt, s, from, from);
    if !pt.lineStart {
      PrefixAt(s, j, cl);
      assert s[from..j + |cl|] == x + cl;
      forall m | pt.minLen <= m < |x|
        ensures !StartsWith((x + cl)[m..], cl)
      {
        NoEarlierClose(pt, s, from, j, m);
      }
    }
  }

  lemma NoEarlierClose(pt: Pattern, s: string, from: nat, j: nat, m: nat)
    requires from <= j <= |s| && FindClose(pt, s, from, from) == Some(j)
    requires !pt.lineStart && pt.minLen <= m < j - from
    requires j + |pt.closer| <= |s| && s[from..j + |pt.closer|] == s[from..j] + pt.closer
    ensures !StartsWith((s[from..j] + pt.closer)[m..], pt.closer)
  {
    var cl := pt.closer;
    FindCloseSpec(pt, s, from, from);
    assert !ValidEnd(pt, s, from, from + m);
    assert AllAllowed(pt, s, from, from + m);
    assert (s[from..j] + cl)[m..] == s[from + m..j + |cl|];
    assert s[from + m..][..|cl|] == s[from + m..j + |cl|][..|cl|];
  }

  /** Every content a `finditer` scan reports is well formed. */
  lemma MatchesContentOk(r: Rule, s: string)
    ensures forall i :: 0 <= i < |Matches(r, s)| ==> ContentOk(PatternOf(r), Matches(r, s)[i])
  {
    ParseContentOk(PatternOf(r), s, 0);
    SpanContentsOk(PatternOf(r), Parse(PatternOf(r), s, 0));
  }

  lemma {:induction false} SpanContentsOk(pt: Pattern, ps: seq<Piece>)
    requires AllContentOk(pt, ps)
    ensures forall i :: 0 <= i < |SpanContents(ps)| ==> ContentOk(pt, SpanContents(ps)[i])
    decreases |ps|
  {
    if |ps| > 0 {
      forall i | 0 <= i < |ps| - 1 && ps[1..][i].Span? ensures ContentOk(pt, ps[1..][i].content) {
        assert ps[1..][i] == ps[i + 1];
      }
      SpanContentsOk(pt, ps[1..]);
    }
  }

  /** Literal pieces render as themselves. */
  lemma {:induction false} RenderLiterals(pt: Pattern, open: string, close: string, ps: seq<Piece>)
    requires forall i :: 0 <= i < |ps| ==> ps[i].Lit?
    ensures Render(open, close, ps) == Unparse(pt, ps)
    decreases |ps|
  {
    if |ps| > 0 {
      RenderLiterals(pt, open, close, ps[1..]);
    }
  }

  /** Where no opener can be matched, the scan finds nothing. */
  lemma {:induction false} ParseNoStart(pt: Pattern, s: string, p: nat)
    requires WellFormed(pt) && p <= |s|
    requires forall q :: p <= q < |s| ==> !CanStart(pt, s, q)
    ensures forall i :: 0 <= i < |Parse(pt, s, p)| ==> Parse(pt, s, p)[i].Lit?
    decreases |s| - p
  {
    if p < |s| {
      ParseNoStart(pt, s, p + 1);
      var ps := Parse(pt, s, p);
      assert ps[1..] == Parse(pt, s, p + 1);
      assert forall i :: 1 <= i < |ps| ==> ps[i] == ps[1..][i - 1];
    }
  }

  /** A stretch in which no match can start is copied literally and yields no match. */
  lemma ParseFree(pt: Pattern, s: string, a: nat, b: nat, open: string, close: string)
    requires WellFormed(pt) && a <= b <= |s|
    requires forall i :: a <= i < b ==> !CanStart(pt, s, i)
    ensures SpanContents(Parse(pt, s, a)) == SpanContents(Parse(pt, s, b))
    ensures Render(open, close, Parse(pt, s, a)) == s[a..b] + Render(open, close, Parse(pt, s, b))
  {
    FreeContents(pt, s, a, b);
    FreeRender(pt, s, a, b, open, close);
  }

  lemma {:induction false} FreeContents(pt: Pattern, s: string, a: nat, b: nat)
    requires WellFormed(pt) && a <= b <= |s|
    requires forall i :: a <= i < b ==> !CanStart(pt, s, i)
    ensures SpanContents(Parse(pt, s, a)) == SpanContents(Parse(pt, s, b))
    decreases b - a
  {
    if a < b {
      assert !CanStart(pt, s, a);
      ParseLitStep(pt, s, a);
      FreeContents(pt, s, a + 1, b);
      LitCons("", "", s[a], Parse(pt, s, a + 1));
    }
  }

  lemma {:induction false} FreeRender(pt: Pattern, s: string, a: nat, b: nat, open: string, close: string)
    requires WellFormed(pt) && a <= b <= |s|
    requires forall i :: a <= i < b ==> !CanStart(pt, s, i)
    ensures Render(open, close, Parse(pt, s, a)) == s[a..b] + Render(open, close, Parse(pt, s, b))
    decreases b - a
  {
    if a < b {
      assert !CanStart(pt, s, a);
      ParseLitStep(pt, s, a);
      FreeRender(pt, s, a + 1, b, open, close);
      LitCons(open, close, s[a], Parse(pt, s, a + 1));
      FreeSlice(s, a, b, Render(open, close, Parse(pt, s, b)));
    }
  }

  lemma LitCons(open: string, close: string, c: char, ps: seq<Piece>)
    ensures SpanContents([Lit(c)] + ps) == SpanContents(ps)
    ensures Render(open, close, [Lit(c)] + ps) == [c] + Render(open, close, ps)
  {
    assert ([Lit(c)] + ps)[1..] == ps;
  }

  lemma FreeSlice(s: string, a: nat, b: nat, r: string)
    requires a < b <= |s|
    ensures [s[a]] + (s[a + 1..b] + r) == s[a..b] + r
  {
    assert s[a..b] == [s[a]] + s[a + 1..b];
  }

  /** The lazy search stops at the first closer when the allowed content before it holds no
      first character of the closer. */
  lemma {:induction false} FindCloseAt(pt: Pattern, s: string, from: nat, k: nat, e: nat)
    requires from <= k <= e <= |s| && AllAllowed(pt, s, from, k)
    requires !pt.lineStart && |pt.closer| > 0
    requires forall m :: k <= m < e ==> Allowed(pt, s[m]) && s[m] != pt.closer[0]
    requires from + pt.minLen <= e && CloseAt(pt, s, e)
    ensures FindClose(pt, s, from, k) == Some(e)
    decreases e - k
  {
    if k < e {
      assert |pt.closer| <= |s[k..]| ==> s[k..][..|pt.closer|][0] == s[k];
      FindCloseAt(pt, s, from, k + 1, e);
    }
  }

  /** Where the opener, a content and the closer follow each other, and the content holds only
      allowed characters and no first character of the closer, the scan finds that content and
      goes on after the closer. */
  lemma ParseSpanAt(pt: Pattern, s: string, i: nat, x: string, q: nat, open: string, close: string)
    requires WellFormed(pt) && !pt.lineStart && |pt.closer| > 0
    requires q == i + |pt.opener| + |x| + |pt.closer| && q <= |s|
    requires s[i..i + |pt.opener|] == pt.opener
    requires s[i + |pt.opener|..i + |pt.opener| + |x|] == x
    requires s[i + |pt.opener| + |x|..q] == pt.closer
    requires |x| >= pt.minLen
    requires forall m :: 0 <= m < |x| ==> Allowed(pt, x[m]) && x[m] != pt.closer[0]
    ensures SpanContents(Parse(pt, s, i)) == [x] + SpanContents(Parse(pt, s, q))
    ensures Render(open, close, Parse(pt, s, i)) == open + x + close + Render(open, close, Parse(pt, s, q))
  {
    SpanAtPieces(pt, s, i, x, q);
    var ps := Parse(pt, s, q);
    assert ([Span(x)] + ps)[1..] == ps;
  }

  lemma SpanAtPieces(pt: Pattern, s: string, i: nat, x: string, q: nat)
    requires WellFormed(pt) && !pt.lineStart && |pt.closer| > 0
    requires q == i + |pt.opener| + |x| + |pt.closer| && q <= |s|
    requires s[i..i + |pt.opener|] == pt.opener
    requires s[i + |pt.opener|..i + |pt.opener| + |x|] == x
    requires s[i + |pt.opener| + |x|..q] == pt.closer
    requires |x| >= pt.minLen
    requires forall m :: 0 <= m < |x| ==> Allowed(pt, x[m]) && x[m] != pt.closer[0]
    ensures Parse(pt, s, i) == [Span(x)] + Parse(pt, s, q)
  {
    var o, c := pt.opener, pt.closer;
    var from, e := i + |o|, i + |o| + |x|;
    assert s[i..][..|o|] == s[i..i + |o|];
    assert CanStart(pt, s, i);
    forall m | from <= m < e ensures s[m] == x[m - from] {
      assert s[m] == s[from..e][m - from];
    }
    assert s[e..][..|c|] == s[e..e + |c|];
    FindCloseAt(pt, s, from, from, e);
    assert s[from..e] == x && ResumeAt(pt, s, e) == q;
    ParseSpanStep(pt, s, i, e);
  }

  /** The scan at the end of the text finds nothing. */
  lemma RenderEnd(pt: Pattern, s: string, open: string, close: string)
    requires WellFormed(pt)
    ensures Render(open, close, Parse(pt, s, |s|)) == ""
  {
  }

  /** One match and then no further opener: the rendering is the tagged content followed by the
      rest of the text as it is. */
  lemma SpanThenFree(pt: Pattern, s: string, i: nat, x: string, e: nat, open: string, close: string)
    requires WellFormed(pt) && !pt.lineStart && |pt.closer| > 0
    requires e == i + |pt.opener| + |x| + |pt.closer| && e <= |s|
    requires s[i..i + |pt.opener|] == pt.opener
    requires s[i + |pt.opener|..i + |pt.opener| + |x|] == x
    requires s[i + |pt.opener| + |x|..e] == pt.closer
    requires |x| >= pt.minLen
    requires forall m :: 0 <= m < |x| ==> Allowed(pt, x[m]) && x[m] != pt.closer[0]
    requires forall j :: e <= j < |s| ==> !CanStart(pt, s, j)
    ensures Render(open, close, Parse(pt, s, i)) == open + x + close + s[e..]
  {
    ParseSpanAt(pt, s, i, x, e, open, close);
    ParseFree(pt, s, e, |s|, open, close);
    RenderEnd(pt, s, open, close);
    assert s[e..|s|] + "" == s[e..];
  }

  /** No opener before `i` and one match that ends the text: the rendering is the text before
      `i` and the tagged content. */
  lemma FreeThenLastSpan(pt: Pattern, s: string, i: nat, x: string, open: string, close: string)
    requires WellFormed(pt) && !pt.lineStart && |pt.closer| > 0
    requires |s| == i + |pt.opener| + |x| + |pt.closer|
    requires s[i..i + |pt.opener|] == pt.opener
    requires s[i + |pt.opener|..i + |pt.opener| + |x|] == x
    requires s[i + |pt.opener| + |x|..|s|] == pt.closer
    requires |x| >= pt.minLen
    requires forall m :: 0 <= m < |x| ==> Allowed(pt, x[m]) && x[m] != pt.closer[0]
    requires forall j :: 0 <= j < i ==> !CanStart(pt, s, j)
    ensures Render(open, close, Parse(pt, s, 0)) == s[..i] + open + x + close
  {
    var head := s[..i];
    assert s[0..i] == head && s[|s|..] == "";
    Tagged(head, open, x, close);
    ParseFree(pt, s, 0, i, open, close);
    SpanThenFree(pt, s, i, x, |s|, open, close);
  }

  lemma Tagged(head: string, open: string, x: string, close: string)
    ensures head + (open + x + close + "") == head + open + x + close
  {
  }

  /** A text in which no match can start is returned unchanged by the scan. */
  lemma NoStartUnchanged(pt: Pattern, open: string, close: string, s: string)
    requires WellFormed(pt)
    requires forall q :: 0 <= q < |s| ==> !CanStart(pt, s, q)
    ensures Render(open, close, Parse(pt, s, 0)) == s
    ensures SpanContents(Parse(pt, s, 0)) == []
  {
    ParseNoStart(pt, s, 0);
    RenderLiterals(pt, open, close, Parse(pt, s, 0));
    ParseRoundTrip(pt, s, 0);
    NoSpanContents(Parse(pt, s, 0));
  }

  /** Where the opener does not occur, no match can start. */
  lemma NoOpenerNoStart(pt: Pattern, s: string)
    requires !Contains(s, pt.opener)
    ensures forall q :: 0 <= q < |s| ==> !CanStart(pt, s, q)
  {
    forall q | 0 <= q < |s| ensures !CanStart(pt, s, q) {
      if CanStart(pt, s, q) {
        ContainsAt(s, pt.opener, q);
      }
    }
  }

  /** A text in which the opener does not occur is returned unchanged by the replacement. */
  lemma ReplaceWithoutOpener(r: Rule, s: string)
    requires !r.PyBold?
    requires !Contains(s, PatternOf(r).opener)
    ensures Replace(r, s) == s
  {
    NoOpenerNoStart(PatternOf(r), s);
    NoStartUnchanged(PatternOf(r), OpenTag(r), CloseTag(r), s);
  }

  /** A text with no opener yields no `finditer` results. */
  lemma NoMatchesWithoutOpener(r: Rule, s: string)
    requires !Contains(s, PatternOf(r).opener)
    ensures Matches(r, s) == []
  {
    NoOpenerNoStart(PatternOf(r), s);
    NoStartUnchanged(PatternOf(r), "", "", s);
  }

  lemma {:induction false} NoSpanContents(ps: seq<Piece>)
    requires forall i :: 0 <= i < |ps| ==> ps[i].Lit?
    ensures SpanContents(ps) == []
    decreases |ps|
  {
    if |ps| > 0 {
      NoSpanContents(ps[1..]);
    }
  }
}
