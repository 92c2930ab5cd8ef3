# Biochat reply formatting, modelled in Dafny

Biochat is a small chat application for biology questions. The server (`main.py`) forwards the
conversation to a language model and cleans up each reply before storing it. The page
(`static/script.js`) turns a reply into HTML. This project models both text pipelines with
their exact string semantics, and proves what each step does to its input.

- **Server clean-up** (`fix_ai_formatting`, module `ReplyFixer`) runs three passes:
  - the space-after-number repair;
  - the pass that turns numbered feature and title items into bullets when the previous line
    announces a list;
  - the pass that removes bolding from whole sentences and long phrases.
- **Page formatting** (`formatMessageContent`, module `MessageFormat`) runs these steps in order:
  - the preprocessing pass (module `Preprocess`), which renumbers runs of `1.` items;
  - HTML escaping (module `HtmlEscape`);
  - `<br>` line breaks;
  - eight fixed inline replacements (module `InlinePatterns`, a scanner that follows the
    leftmost, lazy or greedy semantics of each regular expression);
  - the list formatter (module `ListFormat`), which rebuilds each list paragraph as `<ol>`/`<ul>`.
- **Smaller pieces:**
  - the toast icon lookup and the sidebar preview;
  - the history the home page is rendered with (module `History`).

Functions that do not change state are Dafny functions. Loops that build a list or a string are
Dafny methods, and each method is proved equal to a specification function. The regular
expressions are written out as scanners:
- JavaScript `\s` and `trim` use the ECMAScript whitespace and line-terminator set.
- Python `\s`, `strip()` and `split()` use the set for which `str.isspace` holds.
- `\d` is the ASCII digits.

Module `Strings` holds the shared pieces: character classes, trimming, `split`/`join`, `replace`
and decimal numbers.

Four behaviours are modelled exactly as the code is written:
- An indented `1.` line counts as a list start but is not rewritten, because the rewrite is
  anchored at the start of the untrimmed line.
- The continuation branch of `formatLists` can never be taken.
- Inline code is replaced before code blocks, so a block such as ```` ```x``` ```` never becomes
  `<pre>`.
- `re.sub(r'(\d+)\.([A-Z])', …)` followed by the full-letter pass is the same as the second pass
  alone.

Two details of the code that are easy to miss:
- The `1.` rewrite replaces `1.` and at most one following whitespace character (`\s?`) by the
  number, a period and one space. So `1.␣␣x` keeps its second space.
- The comment above the history says "the last 10 messages". The code first drops the system
  messages and then keeps the last ten of the rest.

## Model

| member | source | states |
|---|---|---|
| Strings.TrimSpec | static/script.js:118 | `trim()` removes leading and trailing whitespace only: the result is an infix of the line, everything cut off is whitespace, and the result neither starts nor ends with whitespace |
| Strings.TrimPadded | main.py:143 | `strip()` of whitespace + x + whitespace is x whenever x neither starts nor ends with whitespace |
| Strings.JoinSplit | static/script.js:111 | joining the parts of `split(sep)` with `sep` gives the text back |
| Strings.SplitOnChar | main.py:93 | `split('\n')` gives one more part than there are line feeds, and no part contains one |
| Strings.SplitJoinChar | main.py:136-139 | splitting at `\n` after joining lines free of `\n` gives the same lines back |
| Strings.DecimalValueOfNatToString | static/script.js:134 | reading back the decimal text written for a list number gives the number |
| HtmlEscape.Escape | static/script.js:157-161 | the escaped text contains no `<`, `>` or U+00A0 and is never shorter than the input |
| HtmlEscape.EscapeChar | static/script.js:157-161 | a character becomes an entity (text starting with `&`) exactly when it is `&`, U+00A0, `<` or `>`; any other character is kept |
| HtmlEscape.UnescapeEscape | static/script.js:157-161 | decoding the four entities recovers the input, so escaping loses nothing |
| HtmlEscape.EscapeAppend | static/script.js:157-161 | escaping works character by character: the escape of a concatenation is the concatenation of the escapes |
| HtmlEscape.EscapePlain | static/script.js:157-161 | a text without the four special characters is unchanged |
| InlinePatterns.PatternOf | static/script.js:79-95 | every expression has a non-empty opener, and exactly the three heading expressions are anchored at a line start |
| InlinePatterns.FindCloseSpec | static/script.js:79 | the lazy search returns the first position where the content may end, with no valid end before it; when it finds none, no valid end exists |
| InlinePatterns.ParseRoundTrip | static/script.js:79-95 | the matches and the copied characters of a scan spell out the scanned text exactly |
| InlinePatterns.ParseContentOk | static/script.js:79-95 | every recorded content has at least the minimum length, only allowed characters and, for the lazy expressions, no earlier closer inside it |
| InlinePatterns.MatchesContentOk | main.py:158 | every bold phrase `finditer` reports is non-empty and contains no `*` |
| InlinePatterns.NoStartUnchanged | static/script.js:79-95 | a text in which no match can start is left unchanged by the replacement |
| InlinePatterns.ReplaceWithoutOpener | static/script.js:79-95 | a text without the opener of an expression is left unchanged by its replacement |
| InlinePatterns.NoMatchesWithoutOpener | main.py:158 | a line without `**` has no bold phrase |
| DigitSpacing.SpaceAfterNumber | static/script.js:108 | the repair never shortens the text, keeps its first two characters, and puts a space third exactly when the text starts with a digit, a period and a letter |
| DigitSpacing.NoSiteAfterSpacing | static/script.js:108 | after the repair no digit is followed by a period and a letter |
| DigitSpacing.SpacingWithoutSite | static/script.js:108 | a text with no digit-period-letter site is unchanged |
| DigitSpacing.SpacingIdempotent | static/script.js:108 | repairing twice is the same as repairing once |
| DigitSpacing.SpacingCounts | static/script.js:108 | the repair inserts exactly one space per site and no other character |
| DigitSpacing.SiteSpaced | static/script.js:108 | every site of the input appears in the output as digit, period, space, letter |
| DigitSpacing.TwoPassesAsOne | main.py:87-90 | the pass for upper-case letters followed by the pass for all letters is the same as the second pass alone |
| Preprocess.PreprocessContent | static/script.js:104-154 | the method computes the preprocessing function, returns `''` for the empty reply, and keeps the number of lines |
| Preprocess.RenumberLines | static/script.js:111-151 | the loop produces, for every line, the output the line-by-line specification gives it |
| Preprocess.ProcessLine | static/script.js:117-150 | one iteration moves the list state and pushes the line exactly as the specification's step does |
| Preprocess.KindOf | static/script.js:121-138 | a line is a `1.` start exactly when its trimmed form begins with `1.`, and is unnumbered exactly when its trimmed form does not begin with digits and a period |
| Preprocess.NumberedPrefix | static/script.js:138 | a `1.` start is read as number 1 |
| Preprocess.NumberedStartValue | static/script.js:121-138 | the digit run of a `1.` start is the single digit `1`, followed by the period |
| Preprocess.PreprocessLineCount | static/script.js:111-153 | preprocessing keeps the number of lines |
| Preprocess.OutputKeepsLine | static/script.js:129-148 | no output line contains a line feed when its input line did not |
| Preprocess.PlainLine | static/script.js:145-149 | an unnumbered line is kept as it is and ends any list |
| Preprocess.RunState | static/script.js:123-135 | after a run of k `1.` lines that began outside a list, the state is "in a list, at number k" |
| Preprocess.RunRenumbered | static/script.js:123-135 | in such a run, every unindented `1.` line is rewritten to its position in the run (1, 2, 3, …) followed by `. ` and the rest of the line |
| Preprocess.RunOutput | static/script.js:123-135 | the same statement for a single line of the run |
| Preprocess.StartStep | static/script.js:123-135 | a `1.` line starts a list at 1 or continues one at the next number, and an unindented one is rewritten with that number |
| Preprocess.IndentedStart | static/script.js:121-135 | an indented `1.` line is counted as a list start but is left unchanged |
| Preprocess.ExplicitNumberInRun | static/script.js:139-143 | inside a list, a line with some other number n is kept, the list continues at n, and a following `1.` line becomes n+1 |
| Preprocess.ExplicitNumberOutsideRun | static/script.js:144-149 | outside a list, a line that is not a `1.` start is kept and leaves the list state at its initial value |
| Preprocess.RewrittenLine | static/script.js:116-151 | a line is changed only when it is an unindented `1.` line, and then it carries the current list number |
| Preprocess.StepRewrites | static/script.js:123-135 | the same statement for one step from any state |
| ListFormat.ListStartIsItem | static/script.js:177 | the list-paragraph test accepts exactly the lines that the numbered or the bullet match accepts, and never both at once |
| ListFormat.ItemContent | static/script.js:195-197 | a numbered match reads a non-empty digit run, a period and at least one whitespace character, and reports the digits' decimal value; a bullet match reads a bullet character and at least one whitespace character; in both, the reported content starts right after the whole whitespace run and is the rest of the line up to the first line terminator |
| ListFormat.ParagraphHasListItems | static/script.js:172-181 | the search loop answers whether some trimmed line starts a list item |
| ListFormat.FormatListParagraph | static/script.js:185-271 | the loop appends exactly the HTML of the token sequence the specification assigns to the paragraph |
| ListFormat.FormatLine | static/script.js:190-261 | one iteration moves the list state and appends the HTML exactly as the specification's step does |
| ListFormat.NumberedLine | static/script.js:199-221 | the numbered branch follows the specification's numbered step |
| ListFormat.BulletLine | static/script.js:223-237 | the bullet branch follows the specification's bullet step |
| ListFormat.PlainLine | static/script.js:238-261 | the branch for other lines follows the specification's plain step |
| ListFormat.CloseLists | static/script.js:266-271 | closing appends `</ol>` and then `</ul>` for the lists still open |
| ListFormat.FormatOneParagraph | static/script.js:169-277 | one paragraph becomes its list HTML when it has a list line, and is kept as it is otherwise |
| ListFormat.FormatLists | static/script.js:164-281 | the method computes the list formatter's specification |
| ListFormat.RunNesting | static/script.js:190-261 | after every line the emitted tags are properly nested, never both lists are open, and the state says which list is open |
| ListFormat.ParagraphBalanced | static/script.js:185-271 | the HTML of a list paragraph closes every list it opens, in order |
| ListFormat.ParagraphCarries | static/script.js:185-271 | the items of a list paragraph are the contents of its item lines and its text lines are its other lines, each in order, with nothing lost or added |
| ListFormat.SequenceStaysInList | static/script.js:215-221 | consecutive numbers n, n+1, … stay in one ordered list, one item per line |
| ListFormat.RestartOnMismatch | static/script.js:215-218 | a number other than the expected one closes the ordered list and opens a new one |
| ListFormat.OpenWithoutRestart | static/script.js:203-213 | the first numbered line closes an open bullet list and opens an ordered list that expects the next number |
| ListFormat.PlainLineVerbatim | static/script.js:238-261 | a line that is not an item closes the open lists and is written out verbatim, followed by `<br>` unless it is the last line; the continuation branch is never taken |
| ListFormat.AllPlainIdentity | static/script.js:238-261 | a paragraph with no item lines is rebuilt as its lines joined by `<br>`, so it comes out unchanged |
| ListFormat.ListTestAgrees | static/script.js:174-199 | the paragraph test finds a list line exactly when some line is classified as an item |
| ListFormat.ParagraphIsRebuilt | static/script.js:171-273 | a paragraph with a list line is split at `<br>` and replaced by the HTML of its tokens |
| ListFormat.TextWithoutListsUnchanged | static/script.js:274-280 | a text none of whose paragraphs has a list line comes out unchanged |
| MessageFormat.FormatMessageContent | static/script.js:66-101 | the method computes the reply's HTML by the chain of steps in source order, and returns `''` for the empty reply |
| MessageFormat.OrdinaryTextUnchanged | static/script.js:66-101 | a reply without line feeds, without the markup characters `*`, `_`, backtick, `#`, `.`, `-`, `•` and without escapable characters comes out of the whole chain unchanged |
| MessageFormat.MultiLinePassThrough | static/script.js:66-101 | lines free of those characters, joined by line feeds, come out as the same lines joined by `<br>` |
| MessageFormat.BoldBeforeItalic | static/script.js:79-83 | `**a**b*c*`, with a, b, c free of those characters, a and c on one line and c non-empty, comes out as `<strong>a</strong>b<em>c</em>`: the bold rule runs first, so its markers are not read as italic |
| MessageFormat.BoldAndItalicExample | static/script.js:79-83 | `**bold** and *italic*` comes out as `<strong>bold</strong> and <em>italic</em>` |
| MessageFormat.PreprocessKeeps | static/script.js:104-154 | preprocessing leaves a non-empty text without `.` unchanged |
| MessageFormat.MarkupKeeps | static/script.js:79-95 | none of the eight inline replacements changes a text without `*`, `_`, backtick and `#` |
| MessageFormat.ListsKeep | static/script.js:164-281 | the list formatter leaves a text without `.`, `-`, `*` and `•` unchanged |
| MessageFormat.FenceTakenByInlineCode | static/script.js:86-89 | a fenced block such as ```` ```x``` ```` is consumed by the inline-code rule, and the code-block rule then finds nothing to replace |
| MessageFormat.InlineCodeOnFence | static/script.js:86 | on ```` ```x``` ```` the inline-code scan pairs the third backtick with the fourth |
| MessageFormat.NoFenceLeft | static/script.js:89 | after that, no three backticks remain in a row, so the code-block rule changes nothing |
| MessageFormat.ToastIcon | static/script.js:626-634 | `success`, `error`, `warning` and `info` get `check-circle`, `exclamation-circle`, `exclamation-triangle` and `info-circle`; any other type gets `info-circle` |
| MessageFormat.ToastIconsDistinct | static/script.js:627-632 | the four known types have four different icons |
| MessageFormat.Preview | static/script.js:414 | a message of at most 50 characters is shown whole; a longer one as its first 50 characters followed by `...` |
| ReplyFixer.FixAiFormatting | main.py:81-165 | the method computes the clean-up specification, returns the empty reply as is, and keeps the number of lines |
| ReplyFixer.SpacingPassesSpec | main.py:87-90 | the two spacing passes together are the single repair for all letters; afterwards no digit-period-letter is left, and running them again changes nothing |
| ReplyFixer.FixNumberedItems | main.py:93-134 | the item loop appends, for every line, what the specification gives that line |
| ReplyFixer.FixItemLine | main.py:97-134 | one iteration of the item loop computes the specification's line |
| ReplyFixer.FeatureItemOfShape | main.py:101 | the feature match reads back the parts of every well-formed `N. **F**: rest` line |
| ReplyFixer.FeatureItemParsed | main.py:101-106 | whatever the feature match reports is well formed and spells out exactly the line it was read from |
| ReplyFixer.TitleItemOfShape | main.py:118 | the title match reads back the parts of every well-formed `N. Title words` line |
| ReplyFixer.TitleNotFeature | main.py:101-118 | a title line is never taken for a feature line, so the title branch applies to it |
| ReplyFixer.TitleItemParsed | main.py:118-121 | whatever the title match reports is well formed and spells out exactly the line it was read from |
| ReplyFixer.FeatureLineRewritten | main.py:102-114 | a feature line becomes `- **F**:rest` exactly when the previous line mentions one of the feature keywords, and `N. **F**:rest` otherwise |
| ReplyFixer.TitleLineRewritten | main.py:119-132 | a title line becomes `- **Title**` exactly when the previous line mentions one of the title keywords, and is kept otherwise |
| ReplyFixer.UnnumberedLineKept | main.py:133-134 | a line whose stripped form does not begin with digits and a period is kept |
| ReplyFixer.FirstLineNotBulleted | main.py:109-132 | the first line has no previous line, so the pass never turns it into a bullet: unless it already began with `-`, its output does not either |
| ReplyFixer.FixedLineNoNewline | main.py:96-134 | no line written by the item pass contains a line feed |
| ReplyFixer.CleanBold | main.py:142-163 | the bold loop appends, for every line, what the specification gives that line |
| ReplyFixer.CleanOneLine | main.py:143-163 | one iteration of the bold loop computes the specification's line |
| ReplyFixer.UnboldLongPhrases | main.py:156-162 | the inner loop applies the replacements of the bold phrases found in the original line, one after the other in the order found |
| ReplyFixer.WordsOfJoin | main.py:149 | `split()` of words joined by single spaces gives back the words |
| ReplyFixer.WholeBoldLine | main.py:146-152 | a line that is bold from end to end is kept when it has at most four words and no period, and is otherwise replaced by its unbolded words |
| ReplyFixer.BoldLineCleaned | main.py:146-152 | a line whose stripped form is `**inner**` is judged by the word count and the periods of `inner` |
| ReplyFixer.PartialBoldOnlyStars | main.py:154-163 | on a line that is not bold from end to end, the pass removes asterisks and changes nothing else |
| ReplyFixer.UnboldAllKeepsOthers | main.py:158-162 | removing the markers of phrases without asterisks removes asterisks only |
| ReplyFixer.ShortPhrasesKept | main.py:156-162 | a line all of whose bold phrases have at most three words passes the inner loop unchanged |
| ReplyFixer.LongPhraseUnbolded | main.py:154-163 | a line that is not bold from end to end and whose only asterisks are the markers of one phrase of more than three words comes out with those two markers removed and everything else kept |
| ReplyFixer.ShortBesideLong | main.py:154-163 | on such a line with a long phrase followed by a phrase of at most three words, the long phrase loses its markers and the short one keeps them |
| ReplyFixer.LineWithoutBoldKept | main.py:143-163 | a line without `**` passes the bold clean-up unchanged |
| ReplyFixer.CleanLineNoNewline | main.py:143-163 | no line written by the bold pass contains a line feed when its input line did not |
| ReplyFixer.FixLines | main.py:136-165 | the lines of the result are the bold pass applied to the item pass applied to the lines of the spaced reply, line by line |
| ReplyFixer.FixLineCount | main.py:93-165 | the clean-up keeps the number of lines of the reply |
| History.NonSystem | main.py:56 | the filter never lengthens the conversation and keeps no system message |
| History.History | main.py:56 | the history holds ten messages, or all the non-system ones when there are fewer, and is the tail of the filtered conversation |
| History.NonSystemAppend | main.py:56 | filtering a concatenation is concatenating the filtered parts, so the original order is kept |
| History.NonSystemOne | main.py:56 | a single message passes the filter exactly when its role is not `system` |
| History.NonSystemKeepsOthers | main.py:56 | a conversation without system messages passes the filter unchanged |
| History.NonSystemCount | main.py:56 | the filter keeps exactly as many messages as there are non-system ones |
| History.SystemPromptHidden | main.py:56 | the system prompt at the head of the conversation never shows in the history |
| History.HistoryAfterAppend | main.py:56 | after a user or assistant message is appended, the history is the previous one with that message at the end, minus its oldest message when it was full |

## Left out

- The browser and server plumbing is not modelled. This covers the DOM, `fetch`, the typing
  indicator, toasts, scrolling, the new-chat handler, templates and the call to the model
  service. Only the pure text steps are modelled.
- The global `messages` list and its mutation by `/chat` and `/new-chat` are not modelled.
  `History` takes the conversation as a parameter.
- `escapeHtml` works through a DOM element. It is modelled by the HTML serialisation of a text
  node, which replaces `&`, U+00A0, `<` and `>`; quotes are not escaped there.
- Null, `undefined` and `None` replies are not modelled. Only the empty string is the falsy
  reply.
- JavaScript strings are UTF-16 code units; the model uses Dafny characters. Surrogate pairs are
  not modelled.
- `parseInt` on a digit string is modelled as its exact decimal value. Loss of precision above
  2^53 is not modelled.
- Number-to-string conversion is modelled as plain decimal. The exponent notation JavaScript
  uses from 10^21 upwards is not modelled.
- Python's `\d` also matches non-ASCII decimal digits. The model takes `\d` to be `0`-`9`.
- MentionsAny: `str.lower()` is modelled on ASCII letters only. The keyword tests compare
  against ASCII keywords, but a non-ASCII character whose lower case is an ASCII letter
  (such as the Kelvin sign) is not lowered.
- ToastIcon: `getToastIcon` looks the type up in an object literal. Keys inherited through that
  object's prototype (such as `constructor`) are not modelled; every other type gets
  `info-circle`.
- The isContinuation branch is not modelled as a separate operation, because it can never be
  taken (ListFormat.PlainLineVerbatim shows this).
- PartialBoldOnlyStars: this states only that asterisks are the sole characters removed. Which
  markers go is stated by LongPhraseUnbolded and ShortBesideLong, and only for lines with one or
  two phrases whose asterisks are exactly the markers.
- ShortPhrasesKept: covers only lines all of whose phrases are short. A short phrase beside a
  long one is stated by ShortBesideLong, for one long phrase followed by one short one.
- LongPhraseUnbolded: a phrase inside extra asterisks is not stated as a lemma. For example,
  `x ****abcd efg hij klm****` becomes `x **abcd efg hij klm**`, because only the inner markers
  form the match; the model computes this case but no lemma names it.
- FormatMessageContent: no whole-chain statement says that the output contains no `<` or `>`
  except inside the tags the chain itself adds. Only the escaping step's own guarantee is proved
  (HtmlEscape.Escape). The whole-chain lemmas cover texts without markup characters, lines joined
  by line feeds, and one bold phrase followed by one italic phrase.
- FormatLists: the formatter is not proved to keep the number of `<br><br>` paragraphs. A proof
  would need two facts: that no rebuilt paragraph contains `<br><br>`, and that the ends of the
  rebuilt paragraphs never combine with the joining `<br><br>` into a different split. Both
  depend on the text of the item lines. What is proved is per paragraph: FormatOneParagraph,
  ParagraphCarries and TextWithoutListsUnchanged.
