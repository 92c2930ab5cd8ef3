/** `formatLists` (static/script.js:164-281): the escaped, `<br>`-separated text is cut into
    paragraphs at `<br><br>`; a paragraph with at least one list-item line is rebuilt line by line
    into `<ol>`/`<ul>` lists, every other paragraph is kept as it is.

    The rebuilt paragraph is described as a sequence of tokens: the method appends the HTML of
    exactly these tokens, and the nesting properties are proved on the tokens. */
module ListFormat {
  import opened Strings

  // ----- recognising list lines -----

  /** The bullet class `[-*•]`. */
  predicate IsBullet(c: char) {
    c == '-' || c == '*' || c == '\U{2022}'
  }

  /** `/^(\d+\.|[-*•])\s/.test(trimmed)`. Only the maximal digit run can be followed by the period. */
  predicate IsListStart(t: string) {
    var d := DigitRun(t);
    (0 < d && d + 1 < |t| && t[d] == '.' && IsSpace(JavaScript, t[d + 1]))
    || (|t| >= 2 && IsBullet(t[0]) && IsSpace(JavaScript, t[1]))
  }

  /** `trimmedLine.match(/^(\d+)\.\s+(.*)/)` with the number read by `parseInt`: the greedy `\s+`
      takes the whole whitespace run and `(.*)` the rest up to a line terminator. */
  function NumberedMatch(t: string): Option<(nat, string)> {
    var d := DigitRun(t);
    if 0 < d && d + 1 < |t| && t[d] == '.' && IsSpace(JavaScript, t[d + 1]) then
      var e := d + 1 + SpaceRun(JavaScript, t[d + 1..]);
      Some((DecimalValue(t[..d]), LineText(t[e..])))
    else None
  }

  /** `trimmedLine.match(/^([-*•])\s+(.*)/)`. */
  function BulletMatch(t: string): Option<string> {
    if |t| >= 2 && IsBullet(t[0]) && IsSpace(JavaScript, t[1]) then
      Some(LineText(t[1 + SpaceRun(JavaScript, t[1..])..]))
    else None
  }

  /** The test that decides whether a paragraph is a list paragraph recognises exactly the lines
      that one of the two matches accepts, and never both at once. */
  lemma ListStartIsItem(t: string)
    ensures IsListStart(t) <==> NumberedMatch(t).Some? || BulletMatch(t).Some?
    ensures !(NumberedMatch(t).Some? && BulletMatch(t).Some?)
  {
  }

  /** A numbered item is a run of digits, a period and a run of whitespace at least one long;
      its number is the value of the digits and its content is the text after the whole
      whitespace run up to the first line terminator. */
  lemma ItemContent(t: string)
    ensures NumberedMatch(t).Some? ==>
      var n, c := NumberedMatch(t).value.0, NumberedMatch(t).value.1;
      exists d: nat, e: nat :: ItemShape(t, d, e, c) && 0 < d && d + 1 < e && AllDigits(t[..d]) && t[d] == '.'
        && AllSpace(JavaScript, t[d + 1..e]) && n == DecimalValue(t[..d])
    ensures BulletMatch(t).Some? ==>
      var c := BulletMatch(t).value;
      IsBullet(t[0]) && exists e: nat :: ItemShape(t, 0, e, c) && 1 < e && AllSpace(JavaScript, t[1..e])
  {
    if NumberedMatch(t).Some? {
      NumberedContent(t);
    }
    if BulletMatch(t).Some? {
      BulletContent(t);
    }
  }

  lemma NumberedContent(t: string)
    requires NumberedMatch(t).Some?
    ensures var d := DigitRun(t);
      var e := d + 1 + SpaceRun(JavaScript, t[d + 1..]);
      ItemShape(t, d, e, NumberedMatch(t).value.1) && AllSpace(JavaScript, t[d + 1..e])
  {
    var d := DigitRun(t);
    AfterMarker(t, d + 1, d);
  }

  lemma BulletContent(t: string)
    requires BulletMatch(t).Some?
    ensures var e := 1 + SpaceRun(JavaScript, t[1..]);
      ItemShape(t, 0, e, BulletMatch(t).value) && AllSpace(JavaScript, t[1..e])
  {
    AfterMarker(t, 1, 0);
  }

  /** The whitespace run from `k` and the line text after it. */
  lemma AfterMarker(t: string, k: nat, d: nat)
    requires d < k <= |t|
    ensures var e := k + SpaceRun(JavaScript, t[k..]);
      ItemShape(t, d, e, LineText(t[e..])) && AllSpace(JavaScript, t[k..e])
  {
    var e := k + SpaceRun(JavaScript, t[k..]);
    var sp := t[k..e];
    forall i | 0 <= i < |sp| ensures IsSpace(JavaScript, sp[i]) {
      assert sp[i] == t[k..][i];
    }
    SpaceRunEnd(t, k);
    LineTextShape(t, e);
  }

  lemma SpaceRunEnd(t: string, k: nat)
    requires k <= |t|
    ensures var e := k + SpaceRun(JavaScript, t[k..]);
      e <= |t| && (e < |t| ==> !IsSpace(JavaScript, t[e]))
  {
    var e := k + SpaceRun(JavaScript, t[k..]);
    if e < |t| {
      assert t[e] == t[k..][e - k];
    }
  }

  /** After the marker ending before `e`: the whitespace run ends at `e`, and `c` is the text from
      `e` up to the first line terminator. */
  ghost predicate ItemShape(t: string, d: nat, e: nat, c: string) {
    d < e <= |t| && (e < |t| ==> !IsSpace(JavaScript, t[e]))
    && e + |c| <= |t| && t[e..e + |c|] == c
    && (forall i :: 0 <= i < |c| ==> !IsLineTerminator(c[i]))
    && (e + |c| < |t| ==> IsLineTerminator(t[e + |c|]))
  }

  lemma LineTextShape(t: string, e: nat)
    requires e <= |t|
    ensures var c := LineText(t[e..]);
      e + |c| <= |t| && t[e..e + |c|] == c && (e + |c| < |t| ==> IsLineTerminator(t[e + |c|]))
  {
    var c := LineText(t[e..]);
    assert t[e..e + |c|] == t[e..][..|c|];
    if e + |c| < |t| {
      assert t[e + |c|] == t[e..][|c|];
    }
  }

  // ----- the output as tokens -----

  datatype Token = OpenOl | CloseOl | OpenUl | CloseUl | Item(content: string) | Text(line: string) | Br

  function TokenHtml(t: Token): string {
    match t
    case OpenOl => "<ol>"
    case CloseOl => "</ol>"
    case OpenUl => "<ul>"
    case CloseUl => "</ul>"
    case Item(c) => "<li>" + c + "</li>"
    case Text(l) => l
    case Br => "<br>"
  }

  /** The tokens emitted so far, newest last, as the `+=` steps that built them. */
  datatype Tokens = NoTokens | Emit(init: Tokens, last: Token)

  function Html(ts: Tokens): string {
    match ts
    case NoTokens => ""
    case Emit(init, t) => Html(init) + TokenHtml(t)
  }

  // ----- the line loop of a list paragraph -----

  /** `inOrderedList`, `inUnorderedList` and `orderedListNumber`. */
  datatype ListCtx = ListCtx(inOl: bool, inUl: bool, olNumber: nat)

  const Start: ListCtx := ListCtx(false, false, 1)

  /** What the two matches make of a line (static/script.js:195-197). */
  datatype LineKind = NumberedItem(number: nat, content: string) | BulletItem(content: string) | NotItem

  function Classify(line: string): LineKind {
    var t := Trim(JavaScript, line);
    match NumberedMatch(t)
    case Some(m) => NumberedItem(m.0, m.1)
    case None =>
      match BulletMatch(t)
      case Some(c) => BulletItem(c)
      case None => NotItem
  }

  /** A numbered item (static/script.js:199-222): close a bullet list, open an ordered list
      expecting this number, restart the list when the number is not the expected one, then the
      item; the next expected number is one more. */
  function NumberedStep(st: ListCtx, n: nat, c: string, acc: Tokens): (ListCtx, Tokens) {
    var acc1 := if !st.inOl && st.inUl then Emit(acc, CloseUl) else acc;
    var acc2 := if !st.inOl then Emit(acc1, OpenOl) else acc1;
    var expected := if !st.inOl then n else st.olNumber;
    var acc3 := if n != expected then Emit(Emit(acc2, CloseOl), OpenOl) else acc2;
    (ListCtx(true, st.inOl && st.inUl, n + 1), Emit(acc3, Item(c)))
  }

  /** A bullet item (static/script.js:223-237): close an ordered list, open a bullet list, then the item. */
  function BulletStep(st: ListCtx, c: string, acc: Tokens): (ListCtx, Tokens) {
    var acc1 := if !st.inUl && st.inOl then Emit(acc, CloseOl) else acc;
    var acc2 := if !st.inUl then Emit(acc1, OpenUl) else acc1;
    (ListCtx(st.inUl && st.inOl, true, st.olNumber), Emit(acc2, Item(c)))
  }

  /** A line that is not an item (static/script.js:238-262): close the open lists, then the line,
      followed by `<br>` unless it is the paragraph's last line. The continuation branch is never
      taken: both flags have just been cleared when it is evaluated. */
  function PlainStep(st: ListCtx, line: string, last: bool, acc: Tokens): (ListCtx, Tokens) {
    var acc1 := if st.inOl then Emit(acc, CloseOl) else acc;
    var acc2 := if st.inUl then Emit(acc1, CloseUl) else acc1;
    var acc3 := Emit(acc2, Text(line));
    (ListCtx(false, false, if st.inOl then 1 else st.olNumber), if last then acc3 else Emit(acc3, Br))
  }

  /** One iteration of the line loop (static/script.js:190-262) on a line of the given kind, with
      the tokens emitted so far. */
  function Step(st: ListCtx, kind: LineKind, line: string, last: bool, acc: Tokens): (ListCtx, Tokens) {
    match kind
    case NumberedItem(n, c) => NumberedStep(st, n, c, acc)
    case BulletItem(c) => BulletStep(st, c, acc)
    case NotItem => PlainStep(st, line, last, acc)
  }

  /** The kind of every line of a paragraph. */
  function Kinds(lines: seq<string>): (ks: seq<LineKind>)
    ensures |ks| == |lines|
    ensures forall i :: 0 <= i < |lines| ==> ks[i] == Classify(lines[i])
  {
    seq(|lines|, i requires 0 <= i < |lines| => Classify(lines[i]))
  }

  /** The state and the tokens after the first `k` lines, given the kinds of the lines. */
  function Run(kinds: seq<LineKind>, lines: seq<string>, k: nat): (ListCtx, Tokens)
    requires |kinds| == |lines| && k <= |lines|
    decreases k
  {
    if k == 0 then (Start, NoTokens)
    else
      var prev := Run(kinds, lines, k - 1);
      Step(prev.0, kinds[k - 1], lines[k - 1], k == |lines|, prev.1)
  }

  /** Closing the lists still open after the last line (static/script.js:266-271). */
  function Close(st: ListCtx, acc: Tokens): Tokens {
    var acc1 := if st.inOl then Emit(acc, CloseOl) else acc;
    if st.inUl then Emit(acc1, CloseUl) else acc1
  }

  /** The tokens of a list paragraph. */
  function ParagraphTokens(lines: seq<string>): Tokens {
    var r := Run(Kinds(lines), lines, |lines|);
    Close(r.0, r.1)
  }

  predicate HasListItems(lines: seq<string>) {
    exists i :: 0 <= i < |lines| && IsListStart(Trim(JavaScript, lines[i]))
  }

  /** One paragraph of `formatLists`. */
  function FormatParagraph(p: string): string {
    var lines := SplitOn(p, "<br>");
    if HasListItems(lines) then Html(ParagraphTokens(lines)) else p
  }

  /** The whole of `formatLists` as a value. */
  function FormatListsSpec(text: string): string {
    var ps := SplitOn(text, "<br><br>");
    Join(seq(|ps|, i requires 0 <= i < |ps| => FormatParagraph(ps[i])), "<br><br>")
  }

  // ----- the methods -----

  /** The search for a list-item line (static/script.js:172-181). */
  method ParagraphHasListItems(lines: seq<string>) returns (hasListItems: bool)
    ensures hasListItems == HasListItems(lines)
  {
    hasListItems := false;
    var i := 0;
    while i < |lines|
      invariant 0 <= i <= |lines|
      invariant forall m :: 0 <= m < i ==> !IsListStart(Trim(JavaScript, lines[m]))
    {
      var trimmed := Trim(JavaScript, lines[i]);
      if IsListStart(trimmed) {
        hasListItems := true;
        return;
      }
      i := i + 1;
    }
  }

  /** The rebuilding of a list paragraph (static/script.js:183-273). The ghost `toks` records the
      tokens whose HTML `result` is. */
  method FormatListParagraph(lines: seq<string>) returns (result: string)
    ensures result == Html(ParagraphTokens(lines))
  {
    result := "";
    ghost var toks: Tokens := NoTokens;
    var inOrderedList := false;
    var inUnorderedList := false;
    var orderedListNumber: nat := 1;
    ghost var kinds := Kinds(lines);
    for i := 0 to |lines|
      invariant (ListCtx(inOrderedList, inUnorderedList, orderedListNumber), toks) == Run(kinds, lines, i)
      invariant result == Html(toks)
    {
      assert kinds[i] == Classify(lines[i]);
      inOrderedList, inUnorderedList, orderedListNumber, result, toks :=
        FormatLine(lines[i], i < |lines| - 1, inOrderedList, inUnorderedList, orderedListNumber, result, toks);
    }
    result, toks := CloseLists(inOrderedList, inUnorderedList, orderedListNumber, result, toks);
  }

  /** Closing the lists still open once the lines are done (static/script.js:266-271). */
  method CloseLists(inOrderedList: bool, inUnorderedList: bool, orderedListNumber: nat, result0: string, ghost toks0: Tokens)
    returns (result: string, ghost toks: Tokens)
    requires result0 == Html(toks0)
    ensures toks == Close(ListCtx(inOrderedList, inUnorderedList, orderedListNumber), toks0)
    ensures result == Html(toks)
  {
    result, toks := result0, toks0;
    if inOrderedList {
      result := result + "</ol>";
      toks := Emit(toks, CloseOl);
    }
    if inUnorderedList {
      result := result + "</ul>";
      toks := Emit(toks, CloseUl);
    }
  }

  /** The body of the line loop (static/script.js:190-262): one line appended to `result`, with
      the list flags and the expected next number updated. */
  method FormatLine(line: string, notLast: bool, inOl: bool, inUl: bool, olNumber: nat,
                    result0: string, ghost toks0: Tokens)
    returns (inOrderedList: bool, inUnorderedList: bool, orderedListNumber: nat, result: string, ghost toks: Tokens)
    requires result0 == Html(toks0)
    ensures (ListCtx(inOrderedList, inUnorderedList, orderedListNumber), toks)
         == Step(ListCtx(inOl, inUl, olNumber), Classify(line), line, !notLast, toks0)
    ensures result == Html(toks)
  {
    var trimmedLine := Trim(JavaScript, line);
    var numberedMatch := NumberedMatch(trimmedLine);
    var bulletMatch := BulletMatch(trimmedLine);
    if numberedMatch.Some? {
      var (listNumber, content) := numberedMatch.value;
      assert Classify(line) == NumberedItem(listNumber, content);
      inOrderedList, inUnorderedList, orderedListNumber, result, toks :=
        NumberedLine(listNumber, content, inOl, inUl, olNumber, result0, toks0);
    } else if bulletMatch.Some? {
      var content := bulletMatch.value;
      assert Classify(line) == BulletItem(content);
      inOrderedList, inUnorderedList, orderedListNumber, result, toks :=
        BulletLine(content, inOl, inUl, olNumber, result0, toks0);
    } else {
      assert Classify(line) == NotItem;
      var isListStart := IsListStart(trimmedLine);
      inOrderedList, inUnorderedList, orderedListNumber, result, toks :=
        PlainLine(line, trimmedLine, isListStart, notLast, inOl, inUl, olNumber, result0, toks0);
    }
  }

  /** A numbered item (static/script.js:199-222). */
  method NumberedLine(listNumber: nat, content: string, inOl: bool, inUl: bool, olNumber: nat,
                      result0: string, ghost toks0: Tokens)
    returns (inOrderedList: bool, inUnorderedList: bool, orderedListNumber: nat, result: string, ghost toks: Tokens)
    requires result0 == Html(toks0)
    ensures (ListCtx(inOrderedList, inUnorderedList, orderedListNumber), toks)
         == NumberedStep(ListCtx(inOl, inUl, olNumber), listNumber, content, toks0)
    ensures result == Html(toks)
  {
    inOrderedList, inUnorderedList, orderedListNumber, result, toks := inOl, inUl, olNumber, result0, toks0;
    if !inOrderedList {
      if inUnorderedList {
        result := result + "</ul>";
        toks := Emit(toks, CloseUl);
        inUnorderedList := false;
      }
      result := result + "<ol>";
      toks := Emit(toks, OpenOl);
      inOrderedList := true;
      orderedListNumber := listNumber;
    }
    assert result == Html(toks);
    if listNumber != orderedListNumber {
      Assoc(result, "</ol>", "<ol>");
      result := result + "</ol><ol>";
      toks := Emit(Emit(toks, CloseOl), OpenOl);
      orderedListNumber := listNumber;
    }
    assert result == Html(toks);
    result := result + ("<li>" + content + "</li>");
    toks := Emit(toks, Item(content));
    orderedListNumber := orderedListNumber + 1;
  }

  /** A bullet item (static/script.js:223-237). */
  method BulletLine(content: string, inOl: bool, inUl: bool, olNumber: nat,
                    result0: string, ghost toks0: Tokens)
    returns (inOrderedList: bool, inUnorderedList: bool, orderedListNumber: nat, result: string, ghost toks: Tokens)
    requires result0 == Html(toks0)
    ensures (ListCtx(inOrderedList, inUnorderedList, orderedListNumber), toks)
         == BulletStep(ListCtx(inOl, inUl, olNumber), content, toks0)
    ensures result == Html(toks)
  {
    inOrderedList, inUnorderedList, orderedListNumber, result, toks := inOl, inUl, olNumber, result0, toks0;
    if !inUnorderedList {
      if inOrderedList {
        result := result + "</ol>";
        toks := Emit(toks, CloseOl);
        inOrderedList := false;
      }
      result := result + "<ul>";
      toks := Emit(toks, OpenUl);
      inUnorderedList := true;
    }
    assert result == Html(toks);
    result := result + ("<li>" + content + "</li>");
    toks := Emit(toks, Item(content));
  }

  /** A line that is not an item (static/script.js:238-262). */
  method PlainLine(line: string, trimmedLine: string, isListStart: bool, notLast: bool,
                   inOl: bool, inUl: bool, olNumber: nat, result0: string, ghost toks0: Tokens)
    returns (inOrderedList: bool, inUnorderedList: bool, orderedListNumber: nat, result: string, ghost toks: Tokens)
    requires result0 == Html(toks0)
    ensures (ListCtx(inOrderedList, inUnorderedList, orderedListNumber), toks)
         == PlainStep(ListCtx(inOl, inUl, olNumber), line, !notLast, toks0)
    ensures result == Html(toks)
  {
    inOrderedList, inUnorderedList, orderedListNumber, result, toks := inOl, inUl, olNumber, result0, toks0;
    if inOrderedList {
      result := result + "</ol>";
      toks := Emit(toks, CloseOl);
      inOrderedList := false;
      orderedListNumber := 1;
    }
    assert result == Html(toks);
    if inUnorderedList {
      result := result + "</ul>";
      toks := Emit(toks, CloseUl);
      inUnorderedList := false;
    }
    assert result == Html(toks);
    var isContinuation := (inOrderedList || inUnorderedList) && trimmedLine != "" && !isListStart;
    if isContinuation {
      // both flags were cleared just above
      assert false;
    } else {
      var br := if notLast then "<br>" else "";
      Assoc(result, line, br);
      assert notLast || line + br == line;
      result := result + (line + br);
      toks := Emit(toks, Text(line));
      if notLast {
        toks := Emit(toks, Br);
      }
      assert result == Html(toks);
    }
  }

  lemma Assoc(a: string, b: string, c: string)
    ensures a + (b + c) == a + b + c
  {
  }

  method FormatLists(text: string) returns (r: string)
    ensures r == FormatListsSpec(text)
  {
    var paragraphs := SplitOn(text, "<br><br>");
    var formattedParagraphs: seq<string> := [];
    for k := 0 to |paragraphs|
      invariant |formattedParagraphs| == k
      invariant forall m :: 0 <= m < k ==> formattedParagraphs[m] == FormatParagraph(paragraphs[m])
    {
      var formatted := FormatOneParagraph(paragraphs[k]);
      formattedParagraphs := formattedParagraphs + [formatted];
    }
    assert formattedParagraphs == seq(|paragraphs|, i requires 0 <= i < |paragraphs| => FormatParagraph(paragraphs[i]));
    r := Join(formattedParagraphs, "<br><br>");
  }

  /** The body of the paragraph loop (static/script.js:169-277). */
  method FormatOneParagraph(paragraph: string) returns (formatted: string)
    ensures formatted == FormatParagraph(paragraph)
  {
    var lines := SplitOn(paragraph, "<br>");
    var hasListItems := ParagraphHasListItems(lines);
    if hasListItems {
      formatted := FormatListParagraph(lines);
    } else {
      formatted := paragraph;
    }
  }

  // ----- properties of the line loop -----

  /** The two flags are never set together. */
  predicate Valid(st: ListCtx) {
    !(st.inOl && st.inUl)
  }

  /** Where a token sequence leaves a reader: outside any list, or inside an `<ol>` or a `<ul>`. */
  datatype Where = Outside | InOl | InUl

  function WhereOf(st: ListCtx): Where {
    if st.inOl then InOl else if st.inUl then InUl else Outside
  }

  /** Which token may come next: a list is only opened outside any list, an item only appears
      inside one, a list is closed by its own closing tag, and text and line breaks only appear
      outside lists. */
  function Next(w: Where, t: Token): Option<Where> {
    match (w, t)
    case (Outside, OpenOl) => Some(InOl)
    case (Outside, OpenUl) => Some(InUl)
    case (Outside, Text(_)) => Some(Outside)
    case (Outside, Br) => Some(Outside)
    case (InOl, Item(_)) => Some(InOl)
    case (InOl, CloseOl) => Some(Outside)
    case (InUl, Item(_)) => Some(InUl)
    case (InUl, CloseUl) => Some(Outside)
    case _ => None
  }

  /** Reads the tokens from the first one on, or fails at the first misplaced token. */
  function Scan(ts: Tokens): Option<Where> {
    match ts
    case NoTokens => Some(Outside)
    case Emit(init, t) =>
      match Scan(init)
      case None => None
      case Some(w) => Next(w, t)
  }

  /** One numbered line keeps the tokens well nested and the flags exclusive. */
  lemma NumberedNesting(st: ListCtx, n: nat, c: string, acc: Tokens)
    requires Valid(st) && Scan(acc) == Some(WhereOf(st))
    ensures Valid(NumberedStep(st, n, c, acc).0)
    ensures Scan(NumberedStep(st, n, c, acc).1) == Some(WhereOf(NumberedStep(st, n, c, acc).0))
  {
    var acc1 := if !st.inOl && st.inUl then Emit(acc, CloseUl) else acc;
    assert Scan(acc1) == Some(if st.inOl then InOl else Outside);
    var acc2 := if !st.inOl then Emit(acc1, OpenOl) else acc1;
    assert Scan(acc2) == Some(InOl);
    var acc3 := if st.inOl && n != st.olNumber then Emit(Emit(acc2, CloseOl), OpenOl) else acc2;
    assert Scan(acc3) == Some(InOl);
  }

  /** One bullet line keeps the tokens well nested and the flags exclusive. */
  lemma BulletNesting(st: ListCtx, c: string, acc: Tokens)
    requires Valid(st) && Scan(acc) == Some(WhereOf(st))
    ensures Valid(BulletStep(st, c, acc).0)
    ensures Scan(BulletStep(st, c, acc).1) == Some(WhereOf(BulletStep(st, c, acc).0))
  {
    var acc1 := if !st.inUl && st.inOl then Emit(acc, CloseOl) else acc;
    assert Scan(acc1) == Some(if st.inUl then InUl else Outside);
    var acc2 := if !st.inUl then Emit(acc1, OpenUl) else acc1;
    assert Scan(acc2) == Some(InUl);
  }

  /** A line that is not an item closes the open list and stays outside. */
  lemma PlainNesting(st: ListCtx, line: string, last: bool, acc: Tokens)
    requires Valid(st) && Scan(acc) == Some(WhereOf(st))
    ensures Valid(PlainStep(st, line, last, acc).0)
    ensures Scan(PlainStep(st, line, last, acc).1) == Some(WhereOf(PlainStep(st, line, last, acc).0))
  {
    var acc1 := if st.inOl then Emit(acc, CloseOl) else acc;
    assert Scan(acc1) == Some(if st.inUl then InUl else Outside);
    var acc2 := if st.inUl then Emit(acc1, CloseUl) else acc1;
    assert Scan(acc2) == Some(Outside);
    assert Scan(Emit(acc2, Text(line))) == Some(Outside);
  }

  /** After any number of lines the flags are exclusive and the tokens read so far are well
      nested, ending inside exactly the list the flags say is open. */
  lemma {:induction false} RunNesting(kinds: seq<LineKind>, lines: seq<string>, k: nat)
    requires |kinds| == |lines| && k <= |lines|
    ensures Valid(Run(kinds, lines, k).0)
    ensures Scan(Run(kinds, lines, k).1) == Some(WhereOf(Run(kinds, lines, k).0))
    decreases k
  {
    if k > 0 {
      RunNesting(kinds, lines, k - 1);
      var prev := Run(kinds, lines, k - 1);
      var st, acc := prev.0, prev.1;
      match kinds[k - 1]
      case NumberedItem(n, c) => NumberedNesting(st, n, c, acc);
      case BulletItem(c) => BulletNesting(st, c, acc);
      case NotItem => PlainNesting(st, lines[k - 1], k == |lines|, acc);
    }
  }

  /** A rebuilt paragraph is well nested: every list opened is closed, items only appear inside
      lists and text only outside them. */
  lemma ParagraphBalanced(lines: seq<string>)
    ensures Scan(ParagraphTokens(lines)) == Some(Outside)
  {
    RunBalanced(Kinds(lines), lines);
  }

  lemma RunBalanced(kinds: seq<LineKind>, lines: seq<string>)
    requires |kinds| == |lines|
    ensures Scan(Close(Run(kinds, lines, |lines|).0, Run(kinds, lines, |lines|).1)) == Some(Outside)
  {
    RunNesting(kinds, lines, |lines|);
  }

  // ----- what the tokens carry -----

  /** The contents of the `<li>` items, in order. */
  function Items(ts: Tokens): seq<string> {
    match ts
    case NoTokens => []
    case Emit(init, t) => if t.Item? then Items(init) + [t.content] else Items(init)
  }

  /** The lines emitted verbatim, in order. */
  function Texts(ts: Tokens): seq<string> {
    match ts
    case NoTokens => []
    case Emit(init, t) => if t.Text? then Texts(init) + [t.line] else Texts(init)
  }

  /** The contents of the item lines among the first `k` lines, in order. */
  function ItemContents(kinds: seq<LineKind>, k: nat): seq<string>
    requires k <= |kinds|
  {
    if k == 0 then []
    else if kinds[k - 1].NotItem? then ItemContents(kinds, k - 1)
    else ItemContents(kinds, k - 1) + [kinds[k - 1].content]
  }

  /** The lines among the first `k` that are not items, in order. */
  function PlainLines(kinds: seq<LineKind>, lines: seq<string>, k: nat): seq<string>
    requires |kinds| == |lines| && k <= |lines|
  {
    if k == 0 then []
    else if kinds[k - 1].NotItem? then PlainLines(kinds, lines, k - 1) + [lines[k - 1]]
    else PlainLines(kinds, lines, k - 1)
  }

  /** A line adds its content as one item if it is an item line, and itself as one text line
      otherwise; nothing else the step emits carries text. */
  lemma StepCarries(st: ListCtx, kind: LineKind, line: string, last: bool, acc: Tokens)
    ensures Items(Step(st, kind, line, last, acc).1)
         == if kind.NotItem? then Items(acc) else Items(acc) + [kind.content]
    ensures Texts(Step(st, kind, line, last, acc).1)
         == if kind.NotItem? then Texts(acc) + [line] else Texts(acc)
  {
    match kind
    case NumberedItem(n, c) =>
      var acc1 := if !st.inOl && st.inUl then Emit(acc, CloseUl) else acc;
      var acc2 := if !st.inOl then Emit(acc1, OpenOl) else acc1;
      assert Items(acc2) == Items(acc) && Texts(acc2) == Texts(acc);
      var expected := if !st.inOl then n else st.olNumber;
      if n != expected {
        var closed := Emit(acc2, CloseOl);
        assert Items(closed) == Items(acc) && Texts(closed) == Texts(acc);
        assert Items(Emit(closed, OpenOl)) == Items(acc) && Texts(Emit(closed, OpenOl)) == Texts(acc);
      }
    case BulletItem(c) =>
      var acc1 := if !st.inUl && st.inOl then Emit(acc, CloseOl) else acc;
      var acc2 := if !st.inUl then Emit(acc1, OpenUl) else acc1;
      assert Items(acc2) == Items(acc) && Texts(acc2) == Texts(acc);
    case NotItem =>
      var acc1 := if st.inOl then Emit(acc, CloseOl) else acc;
      var acc2 := if st.inUl then Emit(acc1, CloseUl) else acc1;
      assert Items(acc2) == Items(acc) && Texts(acc2) == Texts(acc);
  }

  lemma {:induction false} RunCarries(kinds: seq<LineKind>, lines: seq<string>, k: nat)
    requires |kinds| == |lines| && k <= |lines|
    ensures Items(Run(kinds, lines, k).1) == ItemContents(kinds, k)
    ensures Texts(Run(kinds, lines, k).1) == PlainLines(kinds, lines, k)
    decreases k
  {
    if k > 0 {
      RunCarries(kinds, lines, k - 1);
      var prev := Run(kinds, lines, k - 1);
      StepCarries(prev.0, kinds[k - 1], lines[k - 1], k == |lines|, prev.1);
    }
  }

  /** Each item line of a list paragraph yields exactly one `<li>` holding its content, in line
      order, and every other line appears verbatim, in line order. */
  lemma ParagraphCarries(lines: seq<string>)
    ensures Items(ParagraphTokens(lines)) == ItemContents(Kinds(lines), |lines|)
    ensures Texts(ParagraphTokens(lines)) == PlainLines(Kinds(lines), lines, |lines|)
  {
    ClosedRunCarries(Kinds(lines), lines);
  }

  lemma ClosedRunCarries(kinds: seq<LineKind>, lines: seq<string>)
    requires |kinds| == |lines|
    ensures Items(Close(Run(kinds, lines, |lines|).0, Run(kinds, lines, |lines|).1)) == ItemContents(kinds, |lines|)
    ensures Texts(Close(Run(kinds, lines, |lines|).0, Run(kinds, lines, |lines|).1)) == PlainLines(kinds, lines, |lines|)
  {
    RunCarries(kinds, lines, |lines|);
    var r := Run(kinds, lines, |lines|);
    var acc1 := if r.0.inOl then Emit(r.1, CloseOl) else r.1;
    assert Items(acc1) == Items(r.1) && Texts(acc1) == Texts(r.1);
  }

  // ----- numbering -----

  /** Lines `i` to `j` are numbered items counting up from `n`. */
  predicate NumberedFrom(kinds: seq<LineKind>, i: nat, j: nat, n: nat)
    requires i <= j <= |kinds|
  {
    forall m :: i <= m < j ==> kinds[m].NumberedItem? && kinds[m].number == n + (m - i)
  }

  /** `acc` followed by one item per line `i` to `j`. */
  function ItemTokens(acc: Tokens, kinds: seq<LineKind>, i: nat, j: nat): Tokens
    requires i <= j <= |kinds|
    decreases j
  {
    if j == i then acc
    else Emit(ItemTokens(acc, kinds, i, j - 1), Item(if kinds[j - 1].NotItem? then "" else kinds[j - 1].content))
  }

  /** Once an ordered list expects `n`, the lines numbered `n`, `n + 1`, ... only add their items
      to it: no list is closed, opened or restarted, and the expected number moves on. */
  lemma {:induction false} SequenceStaysInList(kinds: seq<LineKind>, lines: seq<string>, i: nat, j: nat, n: nat)
    requires |kinds| == |lines| && i <= j <= |lines|
    requires Run(kinds, lines, i).0.inOl && Run(kinds, lines, i).0.olNumber == n
    requires NumberedFrom(kinds, i, j, n)
    ensures Run(kinds, lines, j).0 == ListCtx(true, Run(kinds, lines, i).0.inUl, n + (j - i))
    ensures Run(kinds, lines, j).1 == ItemTokens(Run(kinds, lines, i).1, kinds, i, j)
    decreases j
  {
    if j > i {
      SequenceStaysInList(kinds, lines, i, j - 1, n);
    }
  }

  /** An item line meeting an open ordered list with a number other than the expected one closes
      that list and opens a new one before its item; the count then goes on from its number. */
  lemma RestartOnMismatch(kinds: seq<LineKind>, lines: seq<string>, i: nat)
    requires |kinds| == |lines| && i < |lines|
    requires Run(kinds, lines, i).0.inOl
    requires kinds[i].NumberedItem? && kinds[i].number != Run(kinds, lines, i).0.olNumber
    ensures Run(kinds, lines, i + 1).1
         == Emit(Emit(Emit(Run(kinds, lines, i).1, CloseOl), OpenOl), Item(kinds[i].content))
    ensures Run(kinds, lines, i + 1).0.inOl && Run(kinds, lines, i + 1).0.olNumber == kinds[i].number + 1
  {
  }

  /** An item line outside an ordered list opens one expecting its own number, so it never
      restarts it; a bullet list still open is closed first. */
  lemma OpenWithoutRestart(kinds: seq<LineKind>, lines: seq<string>, i: nat)
    requires |kinds| == |lines| && i < |lines|
    requires !Run(kinds, lines, i).0.inOl
    requires kinds[i].NumberedItem?
    ensures Run(kinds, lines, i + 1).1
         == Emit(Emit(if Run(kinds, lines, i).0.inUl then Emit(Run(kinds, lines, i).1, CloseUl)
                      else Run(kinds, lines, i).1, OpenOl), Item(kinds[i].content))
    ensures Run(kinds, lines, i + 1).0 == ListCtx(true, false, kinds[i].number + 1)
  {
  }

  // ----- lines that are not items -----

  /** A line that is not an item closes the open list, is appended verbatim and is followed by
      `<br>` unless it is the last line; both flags are then clear. */
  lemma PlainLineVerbatim(st: ListCtx, line: string, last: bool, acc: Tokens)
    ensures !PlainStep(st, line, last, acc).0.inOl && !PlainStep(st, line, last, acc).0.inUl
    ensures Html(PlainStep(st, line, last, acc).1)
         == Html(acc) + (if st.inOl then "</ol>" else "") + (if st.inUl then "</ul>" else "")
            + line + (if last then "" else "<br>")
  {
    var h1 := Html(acc) + (if st.inOl then "</ol>" else "");
    var acc1 := if st.inOl then Emit(acc, CloseOl) else acc;
    assert Html(acc1) == h1;
    var h2 := h1 + (if st.inUl then "</ul>" else "");
    var acc2 := if st.inUl then Emit(acc1, CloseUl) else acc1;
    assert Html(acc2) == h2;
    assert Html(Emit(acc2, Text(line))) == h2 + line;
    if last {
      assert h2 + line + "" == h2 + line;
    }
  }

  /** When no line is an item, the state never leaves Start and the tokens spell the lines joined
      by `<br>` (with a trailing `<br>` while lines remain). */
  lemma {:induction false} RunAllPlain(kinds: seq<LineKind>, lines: seq<string>, k: nat)
    requires |kinds| == |lines| && 0 < k <= |lines|
    requires forall m :: 0 <= m < |kinds| ==> kinds[m].NotItem?
    ensures Run(kinds, lines, k).0 == Start
    ensures Html(Run(kinds, lines, k).1) == Join(lines[..k], "<br>") + (if k == |lines| then "" else "<br>")
    decreases k
  {
    var last := k == |lines|;
    var br := if last then "" else "<br>";
    if k == 1 {
      PlainLineVerbatim(Start, lines[0], last, NoTokens);
      assert Html(Run(kinds, lines, 1).1) == "" + lines[0] + br;
      assert lines[..1] == [lines[0]];
    } else {
      RunAllPlain(kinds, lines, k - 1);
      var prev := Run(kinds, lines, k - 1);
      PlainLineVerbatim(prev.0, lines[k - 1], last, prev.1);
      JoinSnoc(lines[..k - 1], lines[k - 1], "<br>");
      assert lines[..k - 1] + [lines[k - 1]] == lines[..k];
    }
  }

  /** Rebuilding a paragraph none of whose lines is an item gives the paragraph back. */
  lemma AllPlainIdentity(kinds: seq<LineKind>, lines: seq<string>)
    requires |kinds| == |lines| && |lines| > 0
    requires forall m :: 0 <= m < |kinds| ==> kinds[m].NotItem?
    ensures Html(Close(Run(kinds, lines, |lines|).0, Run(kinds, lines, |lines|).1)) == Join(lines, "<br>")
  {
    RunAllPlain(kinds, lines, |lines|);
    assert lines[..|lines|] == lines;
  }

  /** The test for list paragraphs accepts a paragraph exactly when one of its lines is an item. */
  lemma ListTestAgrees(lines: seq<string>)
    ensures HasListItems(lines) <==> exists m :: 0 <= m < |lines| && !Kinds(lines)[m].NotItem?
  {
    forall m | 0 <= m < |lines|
      ensures IsListStart(Trim(JavaScript, lines[m])) <==> !Kinds(lines)[m].NotItem?
    {
      ListStartIsItem(Trim(JavaScript, lines[m]));
    }
  }

  /** The test for list paragraphs is only a short cut: every paragraph comes out as its rebuilt
      form, since rebuilding one without items gives it back unchanged. */
  lemma ParagraphIsRebuilt(p: string)
    ensures FormatParagraph(p) == Html(ParagraphTokens(SplitOn(p, "<br>")))
  {
    var lines := SplitOn(p, "<br>");
    if !HasListItems(lines) {
      ListTestAgrees(lines);
      AllPlainIdentity(Kinds(lines), lines);
      JoinSplit(p, "<br>");
    }
  }

  /** Text none of whose paragraphs holds a list item comes back byte for byte. */
  lemma TextWithoutListsUnchanged(text: string)
    requires forall p :: p in SplitOn(text, "<br><br>") ==> !HasListItems(SplitOn(p, "<br>"))
    ensures FormatListsSpec(text) == text
  {
    var ps := SplitOn(text, "<br><br>");
    assert seq(|ps|, i requires 0 <= i < |ps| => FormatParagraph(ps[i])) == ps;
    JoinSplit(text, "<br><br>");
  }
}
