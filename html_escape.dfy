/** `escapeHtml` (static/script.js): the text is assigned to a detached element's `textContent`
    and read back through `innerHTML`. The result is the HTML fragment serialisation of a single
    text node, that is the "escaping a string" algorithm of section 13.3 (Serializing HTML
    fragments) of the WHATWG HTML Living Standard outside attribute mode: `&`, U+00A0, `<` and `>`
    are replaced by character references and every other character, quotes included, is kept. */
module HtmlEscape {
  import opened Strings

  const Nbsp: char := '\U{00A0}'

  /** The characters the serialiser replaces. */
  predicate IsEscaped(c: char) {
    c == '&' || c == Nbsp || c == '<' || c == '>'
  }

  function EscapeChar(c: char): (r: string)
    ensures |r| >= 1 && (r[0] == '&' <==> IsEscaped(c))
    ensures !IsEscaped(c) ==> r == [c]
  {
    if c == '&' then "&amp;"
    else if c == Nbsp then "&nbsp;"
    else if c == '<' then "&lt;"
    else if c == '>' then "&gt;"
    else [c]
  }

  /** The escaped text: it holds no raw `<`, `>` or no-break space, and it is never shorter. */
  function Escape(s: string): (r: string)
    ensures '<' !in r && '>' !in r && Nbsp !in r
    ensures |r| >= |s|
    decreases |s|
  {
    if |s| == 0 then "" else EscapeChar(s[0]) + Escape(s[1..])
  }

  /** Reads the four character references back (the inverse that a browser's parser applies). */
  function Unescape(s: string): string
    decreases |s|
  {
    if |s| == 0 then ""
    else if StartsWith(s, "&amp;") then "&" + Unescape(s[5..])
    else if StartsWith(s, "&nbsp;") then [Nbsp] + Unescape(s[6..])
    else if StartsWith(s, "&lt;") then "<" + Unescape(s[4..])
    else if StartsWith(s, "&gt;") then ">" + Unescape(s[4..])
    else [s[0]] + Unescape(s[1..])
  }

  /** Escaping loses nothing: reading the references back gives the original text. */
  lemma {:induction false} UnescapeEscape(s: string)
    ensures Unescape(Escape(s)) == s
    decreases |s|
  {
    if |s| > 0 {
      UnescapeEscape(s[1..]);
      UnescapeEscapeChar(s[0], Escape(s[1..]));
      assert s == [s[0]] + s[1..];
    }
  }

  /** One escaped character in front of any text is read back as that character. */
  lemma UnescapeEscapeChar(c: char, t: string)
    ensures Unescape(EscapeChar(c) + t) == [c] + Unescape(t)
  {
    if c == '&' {
      UnescapeAmp(t);
    } else if c == Nbsp {
      UnescapeNbsp(t);
    } else if c == '<' {
      UnescapeLt(t);
    } else if c == '>' {
      UnescapeGt(t);
    } else {
      UnescapePlain(c, t);
    }
  }

  lemma UnescapePlain(c: char, t: string)
    requires c != '&'
    ensures Unescape([c] + t) == [c] + Unescape(t)
  {
    var e := [c] + t;
    assert e[0] == c && e[1..] == t;
    assert |e| >= 4 ==> e[..4][0] == c;
    assert |e| >= 5 ==> e[..5][0] == c;
    assert |e| >= 6 ==> e[..6][0] == c;
    assert !StartsWith(e, "&amp;") && !StartsWith(e, "&nbsp;");
    assert !StartsWith(e, "&lt;") && !StartsWith(e, "&gt;");
  }

  lemma UnescapeAmp(t: string)
    ensures Unescape("&amp;" + t) == "&" + Unescape(t)
  {
    var e := "&amp;" + t;
    assert e[..5] == "&amp;" && e[5..] == t;
  }

  lemma UnescapeNbsp(t: string)
    ensures Unescape("&nbsp;" + t) == [Nbsp] + Unescape(t)
  {
    var e := "&nbsp;" + t;
    assert !StartsWith(e, "&amp;") by { assert e[..5][1] == 'n'; }
    assert e[..6] == "&nbsp;" && e[6..] == t;
  }

  lemma UnescapeLt(t: string)
    ensures Unescape("&lt;" + t) == "<" + Unescape(t)
  {
    var e := "&lt;" + t;
    assert !StartsWith(e, "&amp;") by { if |e| >= 5 { assert e[..5][1] == 'l'; } }
    assert !StartsWith(e, "&nbsp;") by { if |e| >= 6 { assert e[..6][1] == 'l'; } }
    assert e[..4] == "&lt;" && e[4..] == t;
  }

  lemma UnescapeGt(t: string)
    ensures Unescape("&gt;" + t) == ">" + Unescape(t)
  {
    var e := "&gt;" + t;
    assert !StartsWith(e, "&amp;") by { if |e| >= 5 { assert e[..5][1] == 'g'; } }
    assert !StartsWith(e, "&nbsp;") by { if |e| >= 6 { assert e[..6][1] == 'g'; } }
    assert !StartsWith(e, "&lt;") by { assert e[..4][1] == 'g'; }
    assert e[..4] == "&gt;" && e[4..] == t;
  }

  /** Text with none of the four characters is unchanged (so escaping such text twice changes nothing). */
  lemma {:induction false} EscapePlain(s: string)
    requires forall i :: 0 <= i < |s| ==> !IsEscaped(s[i])
    ensures Escape(s) == s
    decreases |s|
  {
    if |s| > 0 {
      EscapePlain(s[1..]);
      assert s == [s[0]] + s[1..];
    }
  }

  /** Escaping works character by character, so it distributes over concatenation. */
  lemma {:induction false} EscapeAppend(a: string, b: string)
    ensures Escape(a + b) == Escape(a) + Escape(b)
    decreases |a|
  {
    if |a| == 0 {
      assert a + b == b;
    } else {
      assert (a + b)[1..] == a[1..] + b;
      EscapeAppend(a[1..], b);
    }
  }
}
