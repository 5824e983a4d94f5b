/**
 * The display escaping applied to docstring text before it is placed in the
 * page: `text.replace("\n", "<br>").replace("\t", "&nbsp;" * 4)`.
 */
module DisplayText {

  const LineBreak: string := "<br>"
  const TabSpaces: string := "&nbsp;&nbsp;&nbsp;&nbsp;"

  /** `s.replace(c, repl)` for a one-character pattern. */
  function ReplaceChar(s: string, c: char, repl: string): (r: string)
    ensures forall d {:trigger d in r} :: d in r ==> (d in s && d != c) || d in repl
    ensures c !in s ==> r == s
  {
    if s == [] then []
    else (if s[0] == c then repl else [s[0]]) + ReplaceChar(s[1..], c, repl)
  }

  /** Newlines first, then tabs, as the two chained `replace` calls do. */
  function Escape(s: string): (r: string)
    ensures '\n' !in r && '\t' !in r
  {
    ReplaceChar(ReplaceChar(s, '\n', LineBreak), '\t', TabSpaces)
  }

  /** Reference definition: what one character becomes. */
  function EscapeChar(ch: char): string {
    if ch == '\n' then LineBreak else if ch == '\t' then TabSpaces else [ch]
  }

  /** Reference definition: escape the text one character at a time. */
  function EscapeEach(s: string): string {
    if s == [] then [] else EscapeChar(s[0]) + EscapeEach(s[1..])
  }

  function Occurrences(s: string, c: char): nat {
    if s == [] then 0 else (if s[0] == c then 1 else 0) + Occurrences(s[1..], c)
  }

  /** Reads display markup back: `<br>` to a newline, four `&nbsp;` to a tab. */
  function Unescape(t: string): string
    decreases |t|
  {
    if t == [] then []
    else if |t| >= |LineBreak| && t[..|LineBreak|] == LineBreak then "\n" + Unescape(t[|LineBreak|..])
    else if |t| >= |TabSpaces| && t[..|TabSpaces|] == TabSpaces then "\t" + Unescape(t[|TabSpaces|..])
    else [t[0]] + Unescape(t[1..])
  }

  lemma {:induction false} ReplaceCharConcat(a: string, b: string, c: char, repl: string)
    ensures ReplaceChar(a + b, c, repl) == ReplaceChar(a, c, repl) + ReplaceChar(b, c, repl)
  {
    if a != [] {
      var head := if a[0] == c then repl else [a[0]];
      assert (a + b)[0] == a[0];
      assert (a + b)[1..] == a[1..] + b;
      assert ReplaceChar(a + b, c, repl) == head + ReplaceChar(a[1..] + b, c, repl);
      ReplaceCharConcat(a[1..], b, c, repl);
      assert ReplaceChar(a, c, repl) == head + ReplaceChar(a[1..], c, repl);
    } else {
      assert a + b == b;
    }
  }

  /** The chained replacements agree with the character-by-character reference. */
  lemma {:induction false} EscapeIsCharwise(s: string)
    ensures Escape(s) == EscapeEach(s)
  {
    if s != [] {
      var head := if s[0] == '\n' then LineBreak else [s[0]];
      var rest := ReplaceChar(s[1..], '\n', LineBreak);
      assert ReplaceChar(s, '\n', LineBreak) == head + rest;
      ReplaceCharConcat(head, rest, '\t', TabSpaces);
      if s[0] != '\n' {
        assert head == [s[0]] + [];
        ReplaceCharConcat([s[0]], [], '\t', TabSpaces);
      }
      assert ReplaceChar(head, '\t', TabSpaces) == EscapeChar(s[0]);
      EscapeIsCharwise(s[1..]);
    }
  }

  lemma {:induction false} EscapeEachConcat(a: string, b: string)
    ensures EscapeEach(a + b) == EscapeEach(a) + EscapeEach(b)
  {
    if a != [] {
      assert (a + b)[0] == a[0];
      assert (a + b)[1..] == a[1..] + b;
      EscapeEachConcat(a[1..], b);
    } else {
      assert a + b == b;
    }
  }

  /** Escaping text piecewise gives the same result as escaping it whole. */
  lemma EscapeConcat(a: string, b: string)
    ensures Escape(a + b) == Escape(a) + Escape(b)
  {
    EscapeIsCharwise(a);
    EscapeIsCharwise(b);
    EscapeIsCharwise(a + b);
    EscapeEachConcat(a, b);
  }

  /** Text is left as it is exactly when it holds neither a newline nor a tab. */
  lemma EscapeFixedPoints(s: string)
    ensures Escape(s) == s <==> ('\n' !in s && '\t' !in s)
  {
  }

  lemma {:induction false} EscapeEachLength(s: string)
    ensures |EscapeEach(s)| == |s| + 3 * Occurrences(s, '\n') + 23 * Occurrences(s, '\t')
  {
    if s != [] {
      EscapeEachLength(s[1..]);
    }
  }

  /** Each newline grows the text by three characters and each tab by twenty-three. */
  lemma EscapeLength(s: string)
    ensures |Escape(s)| == |s| + 3 * Occurrences(s, '\n') + 23 * Occurrences(s, '\t')
  {
    EscapeIsCharwise(s);
    EscapeEachLength(s);
  }

  /** Unescaping consumes the markup of one escaped character and nothing more. */
  lemma UnescapeEscapeChar(ch: char, rest: string)
    requires ch != '<' && ch != '&'
    ensures Unescape(EscapeChar(ch) + rest) == [ch] + Unescape(rest)
  {
    var t := EscapeChar(ch) + rest;
    if ch == '\n' {
      assert t[..|LineBreak|] == LineBreak;
      assert t[|LineBreak|..] == rest;
    } else if ch == '\t' {
      assert t[0] == '&';
      assert t[..|TabSpaces|] == TabSpaces;
      assert t[|TabSpaces|..] == rest;
    } else {
      assert t[0] == ch;
      assert |t| >= |LineBreak| ==> t[..|LineBreak|][0] != LineBreak[0];
      assert |t| >= |TabSpaces| ==> t[..|TabSpaces|][0] != TabSpaces[0];
      assert t[1..] == rest;
    }
  }

  lemma {:induction false} UnescapeEscapeEach(s: string)
    requires '<' !in s && '&' !in s
    ensures Unescape(EscapeEach(s)) == s
  {
    if s != [] {
      assert '<' !in s[1..] && '&' !in s[1..] by {
        forall d | d in s[1..] ensures d in s { }
      }
      UnescapeEscapeEach(s[1..]);
      UnescapeEscapeChar(s[0], EscapeEach(s[1..]));
      assert [s[0]] + s[1..] == s;
    }
  }

  /** Round trip: text free of `<` and `&` is recovered from its escaped form. */
  lemma EscapeRoundTrip(s: string)
    requires '<' !in s && '&' !in s
    ensures Unescape(Escape(s)) == s
  {
    EscapeIsCharwise(s);
    UnescapeEscapeEach(s);
  }

  /** Without that restriction the escaping is lossy: a newline and literal `<br>` look alike. */
  lemma EscapeMergesMarkup()
    ensures Escape("\n") == Escape(LineBreak)
  {
  }
}
