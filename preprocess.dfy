/** `preprocessContent` (static/script.js:104-154): the space-after-number repair, then a pass
    over the `\n`-separated lines that renumbers runs of repeated `1.` items.

    The state of the pass is the flag `inNumberedList` and the counter `listNumber`. The tests
    look at the trimmed line, but the `1.` rewrite is applied to the line as it is, so an
    indented `1.` line is pushed unchanged and still advances the counter. */
module Preprocess {
  import opened Strings
  import DigitSpacing

  datatype ListState = ListState(inNumberedList: bool, listNumber: nat)

  const Initial: ListState := ListState(false, 1)

  /** `/^1\.\s?/.test(trimmed)`: the optional whitespace never decides the outcome. */
  predicate IsNumberedStart(trimmed: string) {
    StartsWith(trimmed, "1.")
  }

  /** `trimmed.match(/^(\d+)\.\s?/)`, with the captured number read by `parseInt`. */
  function NumberedPrefix(trimmed: string): (n: Option<nat>)
    ensures IsNumberedStart(trimmed) ==> n == Some(1)
  {
    var d := DigitRun(trimmed);
    if 0 < d < |trimmed| && trimmed[d] == '.' then
      NumberedStartValue(trimmed);
      Some(DecimalValue(trimmed[..d]))
    else
      NumberedStartValue(trimmed);
      None
  }

  lemma NumberedStartValue(t: string)
    ensures IsNumberedStart(t) ==> DigitRun(t) == 1 && t[1] == '.' && DecimalValue(t[..1]) == 1
  {
    if IsNumberedStart(t) {
      assert t[0] == '1' && t[1] == '.';
      assert t[1..][0] == '.';
      assert DecimalValue(t[..1]) == 10 * DecimalValue(t[..1][..0]) + DigitValue(t[0]);
    }
  }

  /** What follows `1.` and at most one whitespace character. */
  function MarkerRest(line: string): string
    requires StartsWith(line, "1.")
  {
    if |line| > 2 && IsSpace(JavaScript, line[2]) then line[3..] else line[2..]
  }

  /** `line.replace(/^1\.\s?/, prefix)` on the untrimmed line (`^` is the start of the line). */
  function ReplaceMarker(line: string, prefix: string): string {
    if StartsWith(line, "1.") then prefix + MarkerRest(line) else line
  }

  /** What the two tests on the trimmed line find (static/script.js:121 and 138): a `1.` start,
      another `digits.` prefix with its number, or neither. */
  datatype LineKind = OneStart | Explicit(n: nat) | Other

  function KindOf(line: string): (kind: LineKind)
    ensures kind.OneStart? <==> IsNumberedStart(Trim(JavaScript, line))
    ensures kind.Other? <==> NumberedPrefix(Trim(JavaScript, line)).None?
  {
    var trimmed := Trim(JavaScript, line);
    if IsNumberedStart(trimmed) then OneStart
    else match NumberedPrefix(trimmed)
      case Some(n) => Explicit(n)
      case None => Other
  }

  /** The state after a line of the given kind. */
  function Next(st: ListState, kind: LineKind): ListState {
    match kind
    case OneStart => if st.inNumberedList then ListState(true, st.listNumber + 1) else ListState(true, 1)
    case Explicit(n) => if st.inNumberedList then ListState(true, n) else Initial
    case Other => Initial
  }

  /** One iteration of the loop (static/script.js:117-150): the next state and the line pushed. */
  function Step(st: ListState, line: string): (ListState, string) {
    var kind := KindOf(line);
    var next := Next(st, kind);
    if !kind.OneStart? then (next, line)
    else if !st.inNumberedList then (next, ReplaceMarker(line, "1. "))
    else (next, ReplaceMarker(line, NatToString(next.listNumber) + ". "))
  }

  function Kinds(lines: seq<string>): (kinds: seq<LineKind>)
    ensures |kinds| == |lines|
    ensures forall j :: 0 <= j < |lines| ==> kinds[j] == KindOf(lines[j])
  {
    seq(|lines|, j requires 0 <= j < |lines| => KindOf(lines[j]))
  }

  /** The state after the first `k` lines, given only their kinds. */
  function States(kinds: seq<LineKind>, k: nat): ListState
    requires k <= |kinds|
    decreases k
  {
    if k == 0 then Initial else Next(States(kinds, k - 1), kinds[k - 1])
  }

  /** The state before line `k`. */
  function StateAt(lines: seq<string>, k: nat): ListState
    requires k <= |lines|
  {
    States(Kinds(lines), k)
  }

  /** The line pushed for line `k`. */
  function OutputAt(lines: seq<string>, k: nat): string
    requires k < |lines|
  {
    Step(StateAt(lines, k), lines[k]).1
  }

  /** `processedLines`: one output line per input line. */
  function Renumbered(lines: seq<string>): (out: seq<string>)
    ensures |out| == |lines|
    ensures forall k :: 0 <= k < |lines| ==> out[k] == OutputAt(lines, k)
  {
    seq(|lines|, k requires 0 <= k < |lines| => OutputAt(lines, k))
  }

  /** The whole of `preprocessContent` as a value. */
  function PreprocessSpec(text: string): string {
    if text == "" then ""
    else Join(Renumbered(SplitOn(DigitSpacing.SpaceAfterNumber(DigitSpacing.AnyLetter, text), "\n")), "\n")
  }

  method PreprocessContent(text: string) returns (r: string)
    ensures r == PreprocessSpec(text)
    ensures text == "" ==> r == ""
    ensures |SplitOn(r, "\n")| == |SplitOn(text, "\n")|
  {
    if text == "" {
      return "";
    }
    var spaced := DigitSpacing.SpaceAfterNumber(DigitSpacing.AnyLetter, text);
    var lines := SplitOn(spaced, "\n");
    var processedLines := RenumberLines(lines);
    r := Join(processedLines, "\n");
    PreprocessLineCount(text);
  }

  /** The loop over the lines (static/script.js:116-151). */
  method RenumberLines(lines: seq<string>) returns (processedLines: seq<string>)
    ensures processedLines == Renumbered(lines)
  {
    var inNumberedList := false;
    var listNumber: nat := 1;
    processedLines := [];
    for i := 0 to |lines|
      invariant |processedLines| == i
      invariant ListState(inNumberedList, listNumber) == StateAt(lines, i)
      invariant forall k :: 0 <= k < i ==> processedLines[k] == OutputAt(lines, k)
    {
      var pushed;
      inNumberedList, listNumber, pushed := ProcessLine(inNumberedList, listNumber, lines[i]);
      StateStep(lines, i);
      processedLines := processedLines + [pushed];
    }
  }

  /** The body of the loop (static/script.js:117-150) on one line. */
  method ProcessLine(inList: bool, number: nat, line: string)
    returns (inNumberedList: bool, listNumber: nat, pushed: string)
    ensures (ListState(inNumberedList, listNumber), pushed) == Step(ListState(inList, number), line)
  {
    inNumberedList, listNumber := inList, number;
    var trimmed := Trim(JavaScript, line);
    var isNumberedStart := StartsWith(trimmed, "1.");
    if isNumberedStart {
      if !inNumberedList {
        inNumberedList := true;
        listNumber := 1;
        pushed := ReplaceMarker(line, "1. ");
      } else {
        listNumber := listNumber + 1;
        pushed := ReplaceMarker(line, NatToString(listNumber) + ". ");
      }
    } else {
      var numberedMatch := NumberedPrefix(trimmed);
      if numberedMatch.Some? && inNumberedList {
        pushed := line;
        listNumber := numberedMatch.value;
      } else {
        inNumberedList := false;
        listNumber := 1;
        pushed := line;
      }
    }
  }

  /** The state after line `k` is the state the step on line `k` returns. */
  lemma StateStep(lines: seq<string>, k: nat)
    requires k < |lines|
    ensures StateAt(lines, k + 1) == Step(StateAt(lines, k), lines[k]).0
  {
    assert Kinds(lines)[k] == KindOf(lines[k]);
  }

  // ----- properties of the renumbering pass -----

  /** The pass keeps the number of lines. */
  lemma PreprocessLineCount(text: string)
    ensures |SplitOn(PreprocessSpec(text), "\n")| == |SplitOn(text, "\n")|
  {
    if text != "" {
      var spaced := DigitSpacing.SpaceAfterNumber(DigitSpacing.AnyLetter, text);
      var lines := SplitOn(spaced, "\n");
      SplitOnChar(spaced, '\n');
      SplitOnChar(text, '\n');
      DigitSpacing.SpacingCounts(DigitSpacing.AnyLetter, text, '\n');
      var out := Renumbered(lines);
      forall k | 0 <= k < |out| ensures '\n' !in out[k] {
        OutputKeepsLine(lines, k);
      }
      SplitJoinChar(out, '\n');
    }
  }

  /** A line pushed by the pass contains a line break only if its input line did. */
  lemma OutputKeepsLine(lines: seq<string>, k: nat)
    requires k < |lines| && '\n' !in lines[k]
    ensures '\n' !in OutputAt(lines, k)
  {
    var line := lines[k];
    if StartsWith(line, "1.") {
      var rest := MarkerRest(line);
      assert forall c :: c in rest ==> c in line;
      forall n: nat ensures '\n' !in NatToString(n) {
        assert AllDigits(NatToString(n));
      }
    }
  }

  /** A line whose trimmed form does not start with `digits.` is emitted unchanged and ends any
      run: the flag is cleared and the counter is back at 1. */
  lemma PlainLine(lines: seq<string>, i: nat)
    requires i < |lines| && NumberedPrefix(Trim(JavaScript, lines[i])) == None
    ensures OutputAt(lines, i) == lines[i]
    ensures StateAt(lines, i + 1) == Initial
  {
    StateStep(lines, i);
  }

  /** In a run of `1.` starts from `i` up to `e` that does not continue an earlier run, the state
      after the last of them is "in a run, counter e - i" (on the kinds alone). */
  lemma {:induction false} StartRun(kinds: seq<LineKind>, i: nat, e: nat)
    requires i <= e <= |kinds| && !States(kinds, i).inNumberedList
    requires forall j :: i <= j < e ==> kinds[j].OneStart?
    ensures i < e ==> States(kinds, e) == ListState(true, e - i)
    decreases e - i
  {
    if i < e {
      StartRun(kinds, i, e - 1);
      assert kinds[e - 1].OneStart?;
    }
  }

  /** The same run on the lines themselves. */
  lemma RunState(lines: seq<string>, i: nat, e: nat)
    requires i <= e <= |lines| && !StateAt(lines, i).inNumberedList
    requires forall j :: i <= j < e ==> IsNumberedStart(Trim(JavaScript, lines[j]))
    ensures i < e ==> StateAt(lines, e) == ListState(true, e - i)
  {
    var kinds := Kinds(lines);
    forall j | i <= j < e ensures kinds[j].OneStart? {
      assert kinds[j] == KindOf(lines[j]);
    }
    StartRun(kinds, i, e);
  }

  /** In such a run every `1.` line that is not indented is rewritten to start with its position
      in the run: the first keeps `1. `, the second becomes `2. `, and so on. */
  lemma RunRenumbered(lines: seq<string>, i: nat, k: nat)
    requires i + k <= |lines| && !StateAt(lines, i).inNumberedList
    requires forall j :: i <= j < i + k ==> IsNumberedStart(Trim(JavaScript, lines[j]))
    ensures forall j :: i <= j < i + k && StartsWith(lines[j], "1.") ==>
      OutputAt(lines, j) == NatToString(j - i + 1) + ". " + MarkerRest(lines[j])
  {
    forall j | i <= j < i + k && StartsWith(lines[j], "1.")
      ensures OutputAt(lines, j) == NatToString(j - i + 1) + ". " + MarkerRest(lines[j])
    {
      RunOutput(lines, i, k, j);
    }
  }

  lemma RunOutput(lines: seq<string>, i: nat, k: nat, j: nat)
    requires i <= j < i + k <= |lines| && !StateAt(lines, i).inNumberedList
    requires forall j :: i <= j < i + k ==> IsNumberedStart(Trim(JavaScript, lines[j]))
    requires StartsWith(lines[j], "1.")
    ensures OutputAt(lines, j) == NatToString(j - i + 1) + ". " + MarkerRest(lines[j])
  {
    RunState(lines, i, j);
    StartStep(StateAt(lines, j), lines[j], j - i + 1);
  }

  /** One step of a run: the k-th `1.` line of a run gets the numeral of k. */
  lemma StartStep(st: ListState, line: string, k: nat)
    requires k > 0 && IsNumberedStart(Trim(JavaScript, line))
    requires if k == 1 then !st.inNumberedList else st == ListState(true, k - 1)
    ensures Step(st, line).0 == ListState(true, k)
    ensures StartsWith(line, "1.") ==> Step(st, line).1 == NatToString(k) + ". " + MarkerRest(line)
  {
    assert NatToString(1) == "1";
  }

  /** An indented `1.` line is pushed as it is, yet it counts as an item of the run. */
  lemma IndentedStart(lines: seq<string>, i: nat)
    requires i < |lines| && IsNumberedStart(Trim(JavaScript, lines[i])) && !StartsWith(lines[i], "1.")
    ensures OutputAt(lines, i) == lines[i]
    ensures StateAt(lines, i + 1).inNumberedList
    ensures StateAt(lines, i + 1).listNumber
         == if StateAt(lines, i).inNumberedList then StateAt(lines, i).listNumber + 1 else 1
  {
    StateStep(lines, i);
  }

  /** Inside a run, an explicit `n.` item is kept and sets the counter to n, so that a `1.` line
      right after it becomes item n + 1. */
  lemma ExplicitNumberInRun(lines: seq<string>, i: nat, n: nat)
    requires i < |lines| && StateAt(lines, i).inNumberedList
    requires !IsNumberedStart(Trim(JavaScript, lines[i]))
    requires NumberedPrefix(Trim(JavaScript, lines[i])) == Some(n)
    ensures OutputAt(lines, i) == lines[i]
    ensures StateAt(lines, i + 1) == ListState(true, n)
    ensures i + 1 < |lines| && IsNumberedStart(Trim(JavaScript, lines[i + 1])) && StartsWith(lines[i + 1], "1.")
      ==> OutputAt(lines, i + 1) == NatToString(n + 1) + ". " + MarkerRest(lines[i + 1])
  {
    StateStep(lines, i);
  }

  /** Outside a run, an explicit number other than a `1.` start never opens one. */
  lemma ExplicitNumberOutsideRun(lines: seq<string>, i: nat)
    requires i < |lines| && !StateAt(lines, i).inNumberedList
    requires !IsNumberedStart(Trim(JavaScript, lines[i]))
    ensures OutputAt(lines, i) == lines[i]
    ensures StateAt(lines, i + 1) == Initial
  {
    StateStep(lines, i);
  }

  /** Every line the pass rewrites carries the counter's new value and keeps the rest of the
      line after `1.` and at most one whitespace character; every other line is kept. */
  lemma RewrittenLine(lines: seq<string>, i: nat)
    requires i < |lines|
    ensures OutputAt(lines, i) != lines[i] ==>
      IsNumberedStart(Trim(JavaScript, lines[i])) && StartsWith(lines[i], "1.")
      && OutputAt(lines, i) == NatToString(StateAt(lines, i + 1).listNumber) + ". " + MarkerRest(lines[i])
  {
    StateStep(lines, i);
    StepRewrites(StateAt(lines, i), lines[i]);
  }

  lemma StepRewrites(st: ListState, line: string)
    ensures Step(st, line).1 != line ==>
      IsNumberedStart(Trim(JavaScript, line)) && StartsWith(line, "1.")
      && Step(st, line).1 == NatToString(Step(st, line).0.listNumber) + ". " + MarkerRest(line)
  {
    if Step(st, line).1 != line && !st.inNumberedList {
      assert NatToString(1) == "1";
    }
  }
}
