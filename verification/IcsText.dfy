// The TEXT value type of RFC 5545 section 3.3.11: the exporter's escaper and a
// reader for the grammar of that section.

module IcsText {
  import opened Wrappers
  import opened Strings

  // `_ics_escape`: six replacements, one after the other.
  function Escape(text: string): string {
    Replace(Replace(Replace(Replace(Replace(Replace(text,
      "\\", "\\\\"), ";", "\\;"), ",", "\\,"), "\r\n", "\\n"), "\n", "\\n"), "\r", "\\n")
  }

  // The same output in one pass, left to right.
  function EscapeChar(c: char): string {
    if c == '\\' then "\\\\"
    else if c == ';' then "\\;"
    else if c == ',' then "\\,"
    else if c == '\n' || c == '\r' then "\\n"
    else [c]
  }

  function Transduce(s: string): string {
    if s == "" then ""
    else if "\r\n" <= s then "\\n" + Transduce(s[2..])
    else EscapeChar(s[0]) + Transduce(s[1..])
  }

  // What the first three replacements do to one character.
  function EscapePunct(c: char): string {
    if c == '\\' then "\\\\" else if c == ';' then "\\;" else if c == ',' then "\\," else [c]
  }

  function EscapePuncts(s: string): string {
    if s == "" then "" else EscapePunct(s[0]) + EscapePuncts(s[1..])
  }

  lemma PunctChar(c: char)
    ensures Replace(Replace(Replace([c], "\\", "\\\\"), ";", "\\;"), ",", "\\,") == EscapePunct(c)
  {
    ReplaceCharConcat("\\", "\\", ';', "\\;");
    ReplaceCharConcat("\\", "\\", ',', "\\,");
    ReplaceCharConcat("\\", ";", ',', "\\,");
    assert "\\" + "\\" == "\\\\" && "\\" + ";" == "\\;";
    ReplaceOne(c, '\\', "\\\\");
    ReplaceOne(c, ';', "\\;");
    ReplaceOne(c, ',', "\\,");
    ReplaceOne('\\', ';', "\\;");
    ReplaceOne('\\', ',', "\\,");
    ReplaceOne(';', ',', "\\,");
  }

  lemma {:induction false} PunctPass(s: string)
    ensures Replace(Replace(Replace(s, "\\", "\\\\"), ";", "\\;"), ",", "\\,") == EscapePuncts(s)
  {
    if s != "" {
      var h, t := [s[0]], s[1..];
      assert s == h + t;
      ReplaceCharConcat(h, t, '\\', "\\\\");
      var h1, t1 := Replace(h, "\\", "\\\\"), Replace(t, "\\", "\\\\");
      ReplaceCharConcat(h1, t1, ';', "\\;");
      var h2, t2 := Replace(h1, ";", "\\;"), Replace(t1, ";", "\\;");
      ReplaceCharConcat(h2, t2, ',', "\\,");
      PunctChar(s[0]);
      PunctPass(t);
    }
  }

  // The three newline replacements.
  function Newlines(s: string): string {
    Replace(Replace(Replace(s, "\r\n", "\\n"), "\n", "\\n"), "\r", "\\n")
  }

  lemma NewlinesSkip(a: string, b: string)
    requires '\r' !in a && '\n' !in a
    ensures Newlines(a + b) == a + Newlines(b)
  {
    ReplaceSkips(a, b, "\r\n", "\\n");
    var b1 := Replace(b, "\r\n", "\\n");
    ReplaceSkips(a, b1, "\n", "\\n");
    ReplaceSkips(a, Replace(b1, "\n", "\\n"), "\r", "\\n");
  }

  lemma NewlinesCrLf(b: string)
    ensures Newlines("\r\n" + b) == "\\n" + Newlines(b)
  {
    assert ("\r\n" + b)[2..] == b;
    var b1 := Replace(b, "\r\n", "\\n");
    ReplaceSkips("\\n", b1, "\n", "\\n");
    ReplaceSkips("\\n", Replace(b1, "\n", "\\n"), "\r", "\\n");
  }

  lemma NewlinesLf(b: string)
    ensures Newlines("\n" + b) == "\\n" + Newlines(b)
  {
    ReplaceSkips("\n", b, "\r\n", "\\n");
    var b1 := Replace(b, "\r\n", "\\n");
    ReplaceCharConcat("\n", b1, '\n', "\\n");
    ReplaceSkips("\\n", Replace(b1, "\n", "\\n"), "\r", "\\n");
  }

  lemma NewlinesCr(b: string)
    requires !("\n" <= b)
    ensures Newlines("\r" + b) == "\\n" + Newlines(b)
  {
    var b1 := Replace(b, "\r\n", "\\n");
    assert ("\r" + b)[1..] == b;
    assert b == "" || b[0] != '\n';
    ReplaceSkips("\r", b1, "\n", "\\n");
    ReplaceCharConcat("\r", Replace(b1, "\n", "\\n"), '\r', "\\n");
  }

  // The chain of replacements is the one-pass transducer.
  lemma {:induction false} EscapeIsTransduce(s: string)
    ensures Escape(s) == Transduce(s)
    decreases |s|
  {
    PunctPass(s);
    EscapeNewlines(s);
  }

  lemma PairStep(s: string)
    requires "\r\n" <= s
    ensures EscapePuncts(s) == "\r\n" + EscapePuncts(s[2..]) && Transduce(s) == "\\n" + Transduce(s[2..])
  {
    assert s[1..][0] == '\n' && s[1..][1..] == s[2..];
    assert EscapePuncts(s) == "\r" + ("\n" + EscapePuncts(s[2..]));
  }

  lemma PunctHead(s: string)
    requires s != ""
    ensures EscapePuncts(s) != "" && (EscapePuncts(s)[0] == '\n' ==> s[0] == '\n')
  {
    hide Transduce;
    assert EscapePunct(s[0]) != "" && (EscapePunct(s[0])[0] == '\n' ==> s[0] == '\n');
    assert EscapePuncts(s)[0] == EscapePunct(s[0])[0];
  }

  // A CR that no LF follows still has none after it once escaped.
  lemma LoneCr(s: string)
    requires s != "" && s[0] == '\r' && !("\r\n" <= s)
    ensures !("\n" <= EscapePuncts(s[1..]))
  {
    if s[1..] != "" {
      assert s[1] != '\n' && s[1..][0] == s[1];
      PunctHead(s[1..]);
    }
  }

  // The newline replacements on what one character was escaped to.
  lemma NewlinesChar(c: char, t: string)
    requires c == '\r' ==> !("\n" <= t)
    ensures Newlines(EscapePunct(c) + t) == EscapeChar(c) + Newlines(t)
  {
    hide Newlines;
    if c == '\r' {
      NewlinesCr(t);
    } else if c == '\n' {
      NewlinesLf(t);
    } else {
      NewlinesSkip(EscapePunct(c), t);
    }
  }

  lemma PunctStep(s: string)
    requires s != ""
    ensures EscapePuncts(s) == EscapePunct(s[0]) + EscapePuncts(s[1..])
  {}

  lemma CharStep(s: string)
    requires s != "" && !("\r\n" <= s)
    ensures Transduce(s) == EscapeChar(s[0]) + Transduce(s[1..])
  {}

  lemma {:induction false} EscapeNewlines(s: string)
    ensures Newlines(EscapePuncts(s)) == Transduce(s)
    decreases |s|
  {
    if s == "" {
    } else if "\r\n" <= s {
      PairStep(s);
      hide Newlines, EscapePuncts, Transduce, EscapePunct, EscapeChar;
      NewlinesCrLf(EscapePuncts(s[2..]));
      EscapeNewlines(s[2..]);
    } else {
      PunctStep(s);
      CharStep(s);
      hide Newlines, EscapePuncts, Transduce, EscapePunct, EscapeChar;
      if s[0] == '\r' { LoneCr(s); }
      NewlinesChar(s[0], EscapePuncts(s[1..]));
      EscapeNewlines(s[1..]);
    }
  }

  // A reader for TEXT: None on a bare comma, semicolon, CR or LF and on a
  // backslash not followed by one of the five characters the grammar allows.
  function Unescape(s: string): Option<string> {
    if s == "" then Some("")
    else if s[0] in {',', ';', '\r', '\n'} then None
    else if s[0] != '\\' then Prefix(s[0], Unescape(s[1..]))
    else if |s| == 1 then None
    else if s[1] in {'\\', ',', ';'} then Prefix(s[1], Unescape(s[2..]))
    else if s[1] in {'n', 'N'} then Prefix('\n', Unescape(s[2..]))
    else None
  }

  function Prefix(c: char, rest: Option<string>): Option<string> {
    match rest
    case None => None
    case Some(t) => Some([c] + t)
  }

  // CRLF, CR and LF all read as LF.
  function Normalize(s: string): string {
    if s == "" then ""
    else if "\r\n" <= s then "\n" + Normalize(s[2..])
    else [if s[0] == '\r' then '\n' else s[0]] + Normalize(s[1..])
  }

  lemma UnescapeChar(c: char, t: string)
    ensures Unescape(EscapeChar(c) + t) == Prefix(if c == '\r' then '\n' else c, Unescape(t))
  {
    var e := EscapeChar(c);
    assert (e + t)[|e|..] == t;
  }

  lemma {:induction false} UnescapeTransduce(s: string)
    ensures Unescape(Transduce(s)) == Some(Normalize(s))
    decreases |s|
  {
    hide Unescape, EscapeChar;
    if s == "" {
      UnescapeEmpty();
    } else if "\r\n" <= s {
      UnescapeTransduce(s[2..]);
      UnescapeNewline(Transduce(s[2..]));
    } else {
      UnescapeTransduce(s[1..]);
      UnescapeChar(s[0], Transduce(s[1..]));
    }
  }

  lemma UnescapeEmpty()
    ensures Unescape("") == Some("")
  {}

  lemma UnescapeNewline(t: string)
    ensures Unescape("\\n" + t) == Prefix('\n', Unescape(t))
  {
    UnescapeChar('\n', t);
  }

  // Reading back what the exporter wrote gives the text with its newlines
  // normalised. As the reader refuses bare separators, none is left over.
  lemma EscapeRoundTrip(s: string)
    ensures Unescape(Escape(s)) == Some(Normalize(s))
  {
    EscapeIsTransduce(s);
    UnescapeTransduce(s);
  }

  lemma {:induction false} NormalizeFixes(s: string)
    ensures Normalize(s) == s <==> '\r' !in s
    ensures '\r' !in Normalize(s)
    decreases |s|
  {
    if s == "" {
    } else if "\r\n" <= s {
      NormalizeFixes(s[2..]);
      assert Normalize(s)[0] == '\n' != s[0];
      assert s[0] in s;
    } else {
      NormalizeFixes(s[1..]);
      assert s == [s[0]] + s[1..];
      assert Normalize(s)[1..] == Normalize(s[1..]);
    }
  }

  lemma {:induction false} TransduceNormalize(s: string)
    ensures Transduce(Normalize(s)) == Transduce(s)
    decreases |s|
  {
    NormalizeFixes(s);
    if s == "" {
    } else if "\r\n" <= s {
      TransduceNormalize(s[2..]);
      assert Normalize(s)[1..] == Normalize(s[2..]);
    } else {
      TransduceNormalize(s[1..]);
      assert Normalize(s)[1..] == Normalize(s[1..]);
    }
  }

  // Two texts are exported alike exactly when they differ only in newline style.
  lemma EscapeInjective(a: string, b: string)
    ensures Escape(a) == Escape(b) <==> Normalize(a) == Normalize(b)
  {
    EscapeRoundTrip(a);
    EscapeRoundTrip(b);
    EscapeIsTransduce(a);
    EscapeIsTransduce(b);
    TransduceNormalize(a);
    TransduceNormalize(b);
  }

  // What comes out holds no raw line break, so it cannot end a content line.
  lemma {:induction false} EscapeOneLine(s: string)
    ensures '\r' !in Escape(s) && '\n' !in Escape(s)
  {
    EscapeIsTransduce(s);
    TransduceOneLine(s);
  }

  lemma {:induction false} TransduceOneLine(s: string)
    ensures '\r' !in Transduce(s) && '\n' !in Transduce(s)
    decreases |s|
  {
    if s == "" {
    } else if "\r\n" <= s {
      TransduceOneLine(s[2..]);
    } else {
      TransduceOneLine(s[1..]);
    }
  }
}
