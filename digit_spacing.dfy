/** The "space after the number" repair. static/script.js:108 replaces every match of
    `(\d+)\.([A-Za-z])` by `$1. $2`; main.py:87 does the same for `(\d+)\.([A-Z])` and then
    main.py:90 for `(\d+)\.([a-zA-Z])`.

    A global replacement of that pattern scans left to right. A match starting at a digit needs
    the period right after the maximal run of digits, so every match ends up being a digit
    immediately followed by `.` and a letter, and the replacement inserts one space after the
    period. The digits themselves are rewritten to themselves, hence it does not matter where the
    run starts. The letter is consumed, but it is not a digit, so it can never start the next
    match. The scanner below therefore reads the input one character at a time and inserts the
    space at each such site. */
module DigitSpacing {
  import opened Strings

  /** The letter class after the period: `[A-Z]` (main.py:87) or `[A-Za-z]` (script.js:108, main.py:90). */
  datatype LetterClass = UpperOnly | AnyLetter

  predicate InClass(k: LetterClass, c: char) {
    match k
    case UpperOnly => IsUpper(c)
    case AnyLetter => IsLetter(c)
  }

  /** A digit, a period and a letter of the class, starting at index `i`. */
  predicate SiteAt(k: LetterClass, s: string, i: nat) {
    i + 3 <= |s| && IsDigit(s[i]) && s[i + 1] == '.' && InClass(k, s[i + 2])
  }

  predicate NoSite(k: LetterClass, s: string) {
    forall i: nat :: i < |s| ==> !SiteAt(k, s, i)
  }

  /** Number of sites in `s`. */
  function SiteCount(k: LetterClass, s: string): nat
    decreases |s|
  {
    if |s| == 0 then 0 else (if SiteAt(k, s, 0) then 1 else 0) + SiteCount(k, s[1..])
  }

  /** The replacement: a space goes in after the period of every site. The first two characters
      are always kept, and the third is the inserted space exactly when a site starts the text. */
  function SpaceAfterNumber(k: LetterClass, s: string): (r: string)
    ensures |r| >= |s|
    ensures |s| >= 1 ==> r[0] == s[0]
    ensures |s| >= 2 ==> r[1] == s[1]
    ensures |s| >= 3 ==> r[2] == if SiteAt(k, s, 0) then ' ' else s[2]
    decreases |s|
  {
    if |s| < 3 then s
    else if SiteAt(k, s, 0) then s[..2] + " " + SpaceAfterNumber(k, s[2..])
    else [s[0]] + SpaceAfterNumber(k, s[1..])
  }

  /** After the replacement no digit is directly followed by a period and a letter of the class. */
  lemma {:induction false} NoSiteAfterSpacing(k: LetterClass, s: string)
    ensures NoSite(k, SpaceAfterNumber(k, s))
    decreases |s|
  {
    var r := SpaceAfterNumber(k, s);
    if |s| < 3 {
    } else if SiteAt(k, s, 0) {
      var tail := SpaceAfterNumber(k, s[2..]);
      NoSiteAfterSpacing(k, s[2..]);
      assert r == s[..2] + " " + tail;
      forall i: nat | i < |r| ensures !SiteAt(k, r, i) {
        if i >= 3 {
          assert !SiteAt(k, tail, i - 3);
          assert r[i..] == tail[i - 3..];
        }
      }
    } else {
      var tail := SpaceAfterNumber(k, s[1..]);
      NoSiteAfterSpacing(k, s[1..]);
      assert r == [s[0]] + tail;
      forall i: nat | i < |r| ensures !SiteAt(k, r, i) {
        if i >= 1 {
          assert !SiteAt(k, tail, i - 1);
          assert r[i..] == tail[i - 1..];
        }
      }
    }
  }

  /** Text without a site passes through unchanged. */
  lemma {:induction false} SpacingWithoutSite(k: LetterClass, s: string)
    requires NoSite(k, s)
    ensures SpaceAfterNumber(k, s) == s
    decreases |s|
  {
    if |s| >= 3 {
      assert !SiteAt(k, s, 0);
      forall i: nat | i < |s| - 1 ensures !SiteAt(k, s[1..], i) {
        assert !SiteAt(k, s, i + 1);
      }
      SpacingWithoutSite(k, s[1..]);
      assert s == [s[0]] + s[1..];
    }
  }

  /** Applying the repair a second time changes nothing. */
  lemma SpacingIdempotent(k: LetterClass, s: string)
    ensures SpaceAfterNumber(k, SpaceAfterNumber(k, s)) == SpaceAfterNumber(k, s)
  {
    NoSiteAfterSpacing(k, s);
    SpacingWithoutSite(k, SpaceAfterNumber(k, s));
  }

  /** The repair only inserts spaces, exactly one per site: every other character keeps its count. */
  lemma {:induction false} SpacingCounts(k: LetterClass, s: string, c: char)
    ensures CountChar(SpaceAfterNumber(k, s), c)
         == CountChar(s, c) + (if c == ' ' then SiteCount(k, s) else 0)
    ensures |SpaceAfterNumber(k, s)| == |s| + SiteCount(k, s)
    decreases |s|
  {
    var r := SpaceAfterNumber(k, s);
    if |s| < 3 {
      SiteCountShort(k, s);
    } else if SiteAt(k, s, 0) {
      SpacingCounts(k, s[2..], c);
      var tail := SpaceAfterNumber(k, s[2..]);
      assert !SiteAt(k, s[1..], 0);
      assert s[1..][1..] == s[2..];
      assert SiteCount(k, s) == 1 + SiteCount(k, s[2..]);
      CountCharAppend(s[..2] + " ", tail, c);
      CountCharAppend(s[..2], " ", c);
      CountCharAppend(s[..2], s[2..], c);
      assert s[..2] + s[2..] == s;
      assert CountChar(" ", c) == if c == ' ' then 1 else 0;
    } else {
      SpacingCounts(k, s[1..], c);
      CountCharAppend([s[0]], SpaceAfterNumber(k, s[1..]), c);
      CountCharAppend([s[0]], s[1..], c);
      assert [s[0]] + s[1..] == s;
    }
  }

  lemma {:induction false} SiteCountShort(k: LetterClass, s: string)
    requires |s| < 3
    ensures SiteCount(k, s) == 0
    decreases |s|
  {
    if |s| > 0 {
      SiteCountShort(k, s[1..]);
    }
  }

  /** Every site of the input reappears in the output with the space inserted: digit, period,
      space, letter. */
  lemma {:induction false} SiteSpaced(k: LetterClass, s: string, i: nat) returns (j: nat)
    requires SiteAt(k, s, i)
    ensures j + 4 <= |SpaceAfterNumber(k, s)|
    ensures SpaceAfterNumber(k, s)[j..j + 4] == [s[i], '.', ' ', s[i + 2]]
    decreases |s|
  {
    if SiteAt(k, s, 0) && i == 0 {
      j := 0;
      FirstSiteSpaced(k, s);
    } else {
      // the scan moves past the site found at 0, or past one character; a site cannot start
      // at the period of the first one
      var d := if SiteAt(k, s, 0) then 2 else 1;
      SiteShift(k, s, i, d);
      var j' := SiteSpaced(k, s[d..], i - d);
      j := j' + 2 * d - 1;
      SpacedTail(k, s, d, j', [s[i], '.', ' ', s[i + 2]]);
    }
  }

  lemma FirstSiteSpaced(k: LetterClass, s: string)
    requires SiteAt(k, s, 0)
    ensures 4 <= |SpaceAfterNumber(k, s)|
    ensures SpaceAfterNumber(k, s)[0..4] == [s[0], '.', ' ', s[2]]
  {
    var r := SpaceAfterNumber(k, s);
    var tail := SpaceAfterNumber(k, s[2..]);
    assert r == s[..2] + " " + tail;
    assert r[3] == tail[0] == s[2];
    assert r[0..4] == [r[0], r[1], r[2], r[3]];
  }

  /** A piece of the output of the text after the first `d` characters sits `2d - 1` places
      further on in the output of the whole text. */
  lemma SpacedTail(k: LetterClass, s: string, d: nat, j: nat, x: string)
    requires |s| >= 3 && (d == 2 <==> SiteAt(k, s, 0)) && 1 <= d <= 2
    requires j + |x| <= |SpaceAfterNumber(k, s[d..])| && SpaceAfterNumber(k, s[d..])[j..j + |x|] == x
    ensures j + 2 * d - 1 + |x| <= |SpaceAfterNumber(k, s)|
    ensures SpaceAfterNumber(k, s)[j + 2 * d - 1..j + 2 * d - 1 + |x|] == x
  {
    var pre: string := if d == 2 then s[..2] + " " else [s[0]];
    var tail := SpaceAfterNumber(k, s[d..]);
    assert SpaceAfterNumber(k, s) == pre + tail;
    SliceAfter(pre, tail, j, |x|);
  }

  lemma SiteShift(k: LetterClass, s: string, i: nat, d: nat)
    requires SiteAt(k, s, i) && d <= i
    ensures SiteAt(k, s[d..], i - d)
    ensures s[d..][i - d] == s[i] && s[d..][i - d + 2] == s[i + 2]
  {
  }

  lemma SliceAfter(pre: string, tail: string, j: nat, n: nat)
    requires j + n <= |tail|
    ensures (pre + tail)[|pre| + j..|pre| + j + n] == tail[j..j + n]
  {
  }

  /** main.py:87 followed by main.py:90 is the single repair with the full letter class: the first
      pass already spaces the upper-case sites and the second one does the rest. */
  lemma {:induction false} TwoPassesAsOne(s: string)
    ensures SpaceAfterNumber(AnyLetter, SpaceAfterNumber(UpperOnly, s)) == SpaceAfterNumber(AnyLetter, s)
    decreases |s|
  {
    var u := SpaceAfterNumber(UpperOnly, s);
    if |s| < 3 {
      SpacingWithoutSite(AnyLetter, s);
    } else if SiteAt(UpperOnly, s, 0) {
      // u = d . ' ' U ...  ; the full pass sees no site at the digit any more
      var tail := SpaceAfterNumber(UpperOnly, s[2..]);
      assert u == s[..2] + " " + tail;
      TwoPassesAsOne(s[2..]);
      SkipTwo(AnyLetter, u);
      assert u[2..] == " " + tail;
      SkipOne(AnyLetter, u[2..]);
      assert u[2..][1..] == tail;
      var full := SpaceAfterNumber(AnyLetter, s[2..]);
      assert SpaceAfterNumber(AnyLetter, s) == s[..2] + " " + full;
    } else if SiteAt(AnyLetter, s, 0) {
      // a lower-case site: the first pass leaves d . l untouched and moves on past the letter
      assert s[1..][1..] == s[2..];
      assert !SiteAt(UpperOnly, s[1..], 0) && !SiteAt(UpperOnly, s[2..], 0);
      var t3 := SpaceAfterNumber(UpperOnly, s[3..]);
      PassOver(UpperOnly, s);
      assert u == s[..3] + t3;
      TwoPassesAsOne(s[3..]);
      assert SiteAt(AnyLetter, u, 0);
      var v := SpaceAfterNumber(AnyLetter, u);
      assert v == u[..2] + " " + SpaceAfterNumber(AnyLetter, u[2..]);
      assert u[2..] == [s[2]] + t3;
      SkipOne(AnyLetter, u[2..]);
      assert u[2..][1..] == t3;
      var w := SpaceAfterNumber(AnyLetter, s);
      assert w == s[..2] + " " + SpaceAfterNumber(AnyLetter, s[2..]);
      SkipOne(AnyLetter, s[2..]);
      assert s[2..][1..] == s[3..];
    } else {
      var tail := SpaceAfterNumber(UpperOnly, s[1..]);
      assert u == [s[0]] + tail;
      TwoPassesAsOne(s[1..]);
      assert !SiteAt(AnyLetter, u, 0);
    }
  }

  /** A character that is not a digit is copied and the scan moves on. */
  lemma SkipOne(k: LetterClass, s: string)
    requires |s| > 0 && !IsDigit(s[0])
    ensures SpaceAfterNumber(k, s) == [s[0]] + SpaceAfterNumber(k, s[1..])
  {
    if |s| < 3 {
      SpacingWithoutSite(k, s);
      SpacingWithoutSite(k, s[1..]);
    }
  }

  /** A digit, a period and a space are copied and the scan moves on after the space. */
  lemma SkipTwo(k: LetterClass, s: string)
    requires |s| >= 3 && IsDigit(s[0]) && s[1] == '.' && s[2] == ' '
    ensures SpaceAfterNumber(k, s) == s[..3] + SpaceAfterNumber(k, s[3..])
  {
    assert !SiteAt(k, s, 0);
    SkipOne(k, s[1..]);
    assert s[1..][1..] == s[2..];
    SkipOne(k, s[2..]);
    assert s[2..][1..] == s[3..];
  }

  /** A digit, a period and a letter outside the class are copied and the scan moves on after the letter. */
  lemma PassOver(k: LetterClass, s: string)
    requires |s| >= 3 && IsDigit(s[0]) && s[1] == '.' && IsLetter(s[2]) && !SiteAt(k, s, 0)
    ensures SpaceAfterNumber(k, s) == s[..3] + SpaceAfterNumber(k, s[3..])
  {
    SkipOne(k, s[1..]);
    assert s[1..][1..] == s[2..];
    SkipOne(k, s[2..]);
    assert s[2..][1..] == s[3..];
  }
}
