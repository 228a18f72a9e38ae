/**
 * `TokenValidationDTO.toIndentedString`: renders a nullable object as text
 * and indents every line after the first by four spaces, which is
 * `String.replace("\n", "\n    ")` on the object's `toString()`.
 */
module IndentedText {
  import opened Wrappers

  /** The number of line feeds in `s`. */
  function NewlineCount(s: string): nat
    decreases |s|
  {
    if s == [] then 0
    else (if s[0] == '\n' then 1 else 0) + NewlineCount(s[1..])
  }

  /** Four spaces follow position `i` of `r`. */
  predicate IndentedAfter(r: string, i: int)
  {
    0 <= i && i + 5 <= |r| && r[i + 1] == ' ' && r[i + 2] == ' ' && r[i + 3] == ' ' && r[i + 4] == ' '
  }

  /** Every line feed of `r` is followed by four spaces. */
  predicate NewlinesIndented(r: string)
  {
    forall i :: 0 <= i < |r| && r[i] == '\n' ==> IndentedAfter(r, i)
  }

  lemma {:induction false} NewlineCountAppend(a: string, b: string)
    ensures NewlineCount(a + b) == NewlineCount(a) + NewlineCount(b)
    decreases |a|
  {
    if a != [] {
      assert (a + b)[1..] == a[1..] + b;
      NewlineCountAppend(a[1..], b);
    } else {
      assert a + b == b;
    }
  }

  /** Text that is indented line by line stays so when joined. */
  lemma NewlinesIndentedAppend(a: string, b: string)
    requires NewlinesIndented(a) && NewlinesIndented(b)
    ensures NewlinesIndented(a + b)
  {
  }

  /** Text without line feeds is trivially indented. */
  lemma SingleLineIndented(x: string)
    requires '\n' !in x
    ensures NewlinesIndented(x)
  {
  }

  /** `b` opens with four spaces. */
  predicate StartsIndented(b: string)
  {
    |b| >= 4 && b[0] == ' ' && b[1] == ' ' && b[2] == ' ' && b[3] == ' '
  }

  /** Joining at a line feed keeps the text indented when the second part opens with four spaces. */
  lemma JoinIndentedLine(a: string, b: string)
    requires NewlinesIndented(a) && NewlinesIndented(b) && StartsIndented(b)
    ensures NewlinesIndented(a + "\n" + b)
  {
  }

  /**
   * `s.replace("\n", "\n    ")`: each line feed becomes a line feed and four
   * spaces; the result keeps the line feeds, gains four characters per line
   * feed, and has every line feed indented.
   */
  function IndentLines(s: string): (r: string)
    ensures |r| == |s| + 4 * NewlineCount(s)
    ensures NewlineCount(r) == NewlineCount(s)
    ensures NewlinesIndented(r)
    decreases |s|
  {
    if s == [] then []
    else
      var rest := IndentLines(s[1..]);
      if s[0] == '\n' then
        NewlineCountAppend("\n    ", rest);
        NewlinesIndentedAppend("\n    ", rest);
        "\n    " + rest
      else
        NewlineCountAppend([s[0]], rest);
        NewlinesIndentedAppend([s[0]], rest);
        [s[0]] + rest
  }

  /** The inverse rewrite: every line feed followed by four spaces loses the spaces. */
  function Unindent(r: string): string
    decreases |r|
  {
    if r == [] then []
    else if |r| >= 5 && r[..5] == "\n    " then "\n" + Unindent(r[5..])
    else [r[0]] + Unindent(r[1..])
  }

  /** Indenting loses nothing: unindenting gives the original text back. */
  lemma {:induction false} UnindentIndentLines(s: string)
    ensures Unindent(IndentLines(s)) == s
    decreases |s|
  {
    if s != [] {
      var rest := IndentLines(s[1..]);
      UnindentIndentLines(s[1..]);
      if s[0] == '\n' {
        var r := "\n    " + rest;
        assert r[..5] == "\n    " && r[5..] == rest;
      } else {
        var r := [s[0]] + rest;
        assert r[1..] == rest;
      }
    }
  }

  /** Text without line feeds is left as it is. */
  lemma {:induction false} IndentLinesWithoutNewlines(s: string)
    requires '\n' !in s
    ensures IndentLines(s) == s
    decreases |s|
  {
    if s != [] {
      IndentLinesWithoutNewlines(s[1..]);
    }
  }

  /**
   * `toIndentedString(o)`, given the `toString()` of `o` (`None` when `o` is
   * `null`): `"null"` for `null`, otherwise that text with every line after
   * the first indented by four spaces.
   */
  function ToIndentedString(o: Option<string>): (r: string)
    ensures o.None? ==> r == "null"
    ensures o.Some? ==> Unindent(r) == o.value
    ensures o.Some? ==> |r| == |o.value| + 4 * NewlineCount(o.value)
    ensures o.Some? && '\n' !in o.value ==> r == o.value
    ensures NewlinesIndented(r)
  {
    match o
    case None => "null"
    case Some(text) =>
      UnindentIndentLines(text);
      if '\n' !in text then IndentLinesWithoutNewlines(text); IndentLines(text)
      else IndentLines(text)
  }

  /** The lines of `s`, split at every line feed (a text with n line feeds has n + 1 lines). */
  function Lines(s: string): (ls: seq<string>)
    ensures |ls| == NewlineCount(s) + 1
    decreases |s|
  {
    if s == [] then [""]
    else
      var rest := Lines(s[1..]);
      if s[0] == '\n' then [""] + rest
      else
        assert ([s[0]] + rest[0])[1..] == rest[0];
        [[s[0]] + rest[0]] + rest[1..]
  }

  /** A line followed by a line feed is the first line of the whole. */
  lemma {:induction false} LinesJoin(a: string, b: string)
    requires '\n' !in a
    ensures Lines(a + "\n" + b) == [a] + Lines(b)
    decreases |a|
  {
    if a == [] {
      assert a + "\n" + b == "\n" + b;
      assert ("\n" + b)[1..] == b;
    } else {
      assert (a + "\n" + b)[1..] == a[1..] + "\n" + b;
      LinesJoin(a[1..], b);
      assert [a[0]] + a[1..] == a;
    }
  }

  /** Text without line feeds is one line. */
  lemma {:induction false} LinesOfLine(a: string)
    requires '\n' !in a
    ensures Lines(a) == [a]
    decreases |a|
  {
    if a != [] {
      LinesOfLine(a[1..]);
      assert [a[0]] + a[1..] == a;
    }
  }
}
