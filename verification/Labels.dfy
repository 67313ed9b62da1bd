/** Label escaping of the Prometheus export (src/llm_runtime/metrics/collector.py). */
module Labels {

  /** Python's `str.replace` for a pattern of one character. */
  function Replace(s: string, c: char, text: string): string {
    if s == "" then "" else (if s[0] == c then text else [s[0]]) + Replace(s[1..], c, text)
  }

  /** The code: three replacements, one after the other. */
  function EscapeLabel(value: string): string {
    Replace(Replace(Replace(value, '\\', "\\\\"), '"', "\\\""), '\n', "\\n")
  }

  /** The specification: every character is mapped on its own. */
  function EscapeChar(c: char): string {
    if c == '\\' then "\\\\" else if c == '"' then "\\\"" else if c == '\n' then "\\n" else [c]
  }

  function MapChars(s: string): string {
    if s == "" then "" else EscapeChar(s[0]) + MapChars(s[1..])
  }

  /** A one-pass reader of an escaped label. */
  function Unescape(s: string): string {
    if s == "" then ""
    else if s[0] == '\\' && |s| > 1 then [if s[1] == 'n' then '\n' else s[1]] + Unescape(s[2..])
    else [s[0]] + Unescape(s[1..])
  }

  /** The position at which a reader that skips escaped characters sees the closing quote of a label value, or
      the length if it never does. */
  function ClosingQuote(s: string): nat {
    if s == "" || s[0] == '"' then 0
    else if s[0] == '\\' && |s| > 1 then 2 + ClosingQuote(s[2..])
    else 1 + ClosingQuote(s[1..])
  }

  lemma {:induction false} ReplaceConcat(s: string, t: string, c: char, text: string)
    ensures Replace(s + t, c, text) == Replace(s, c, text) + Replace(t, c, text)
  {
    if s == "" {
      assert s + t == t;
    } else {
      assert (s + t)[1..] == s[1..] + t;
      ReplaceConcat(s[1..], t, c, text);
    }
  }

  lemma ReplaceOne(x: char, c: char, text: string)
    ensures Replace([x], c, text) == if x == c then text else [x]
  {
    assert Replace([x][1..], c, text) == "";
  }

  lemma ReplaceTwo(x: char, y: char, c: char, text: string)
    requires x != c && y != c
    ensures Replace([x, y], c, text) == [x, y]
  {
    assert [x, y] == [x] + [y];
    ReplaceConcat([x], [y], c, text);
    ReplaceOne(x, c, text);
    ReplaceOne(y, c, text);
  }

  lemma EscapeOne(x: char)
    ensures EscapeLabel([x]) == EscapeChar(x)
  {
    ReplaceOne(x, '\\', "\\\\");
    ReplaceOne(x, '"', "\\\"");
    ReplaceOne(x, '\n', "\\n");
    ReplaceTwo('\\', '\\', '"', "\\\"");
    ReplaceTwo('\\', '\\', '\n', "\\n");
    ReplaceTwo('\\', '"', '\n', "\\n");
  }

  /** The three passes never touch each other's output: together they are one character-wise map. */
  lemma {:induction false} EscapeIsACharacterMap(value: string)
    ensures EscapeLabel(value) == MapChars(value)
  {
    if value != "" {
      var x, rest := [value[0]], value[1..];
      assert value == x + rest;
      ReplaceConcat(x, rest, '\\', "\\\\");
      var x1, rest1 := Replace(x, '\\', "\\\\"), Replace(rest, '\\', "\\\\");
      ReplaceConcat(x1, rest1, '"', "\\\"");
      ReplaceConcat(Replace(x1, '"', "\\\""), Replace(rest1, '"', "\\\""), '\n', "\\n");
      EscapeOne(value[0]);
      EscapeIsACharacterMap(rest);
    }
  }

  lemma {:induction false} UnescapeMapChars(value: string)
    ensures Unescape(MapChars(value)) == value
  {
    if value != "" {
      var e, rest := EscapeChar(value[0]), MapChars(value[1..]);
      UnescapeMapChars(value[1..]);
      assert (e + rest)[|e|..] == rest;
      assert value == [value[0]] + value[1..];
    }
  }

  /** Reading an escaped label back gives the label, for every string. */
  lemma UnescapeInvertsEscape(value: string)
    ensures Unescape(EscapeLabel(value)) == value
  {
    EscapeIsACharacterMap(value);
    UnescapeMapChars(value);
  }

  /** Different labels stay different, so two time series never share a label set by escaping. */
  lemma EscapeIsInjective(a: string, b: string)
    ensures EscapeLabel(a) == EscapeLabel(b) <==> a == b
  {
    UnescapeInvertsEscape(a);
    UnescapeInvertsEscape(b);
  }

  lemma ClosingQuoteSkips(c: char, tail: string)
    ensures ClosingQuote(EscapeChar(c) + tail) == |EscapeChar(c)| + ClosingQuote(tail)
  {
    var e := EscapeChar(c);
    assert (e + tail)[|e|..] == tail;
  }

  lemma {:induction false} MapCharsIsContained(value: string, after: string)
    ensures '\n' !in MapChars(value)
    ensures ClosingQuote(MapChars(value) + "\"" + after) == |MapChars(value)|
  {
    if value == "" {
      assert MapChars(value) + "\"" + after == "\"" + after;
    } else {
      var rest := MapChars(value[1..]);
      MapCharsIsContained(value[1..], after);
      ClosingQuoteSkips(value[0], rest + "\"" + after);
      assert MapChars(value) + "\"" + after == EscapeChar(value[0]) + (rest + "\"" + after);
    }
  }

  /** An escaped label stays on its line and inside its quotes: whatever follows it, the first unescaped quote
      is the closing one. */
  lemma EscapedLabelIsContained(value: string, after: string)
    ensures '\n' !in EscapeLabel(value)
    ensures ClosingQuote(EscapeLabel(value) + "\"" + after) == |EscapeLabel(value)|
  {
    EscapeIsACharacterMap(value);
    MapCharsIsContained(value, after);
  }

  /** The order of the passes matters: with the quotes first, the backslash they add would be doubled. */
  lemma BackslashMustComeFirst()
    ensures Replace(Replace("\"", '"', "\\\""), '\\', "\\\\") != EscapeLabel("\"")
  {
    ReplaceOne('"', '"', "\\\"");
    assert "\\\"" == "\\" + "\"";
    ReplaceConcat("\\", "\"", '\\', "\\\\");
    ReplaceOne('\\', '\\', "\\\\");
    ReplaceOne('"', '\\', "\\\\");
    EscapeOne('"');
  }
}
