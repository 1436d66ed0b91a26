/** The text transformations of the agent-details view: the HTML escape
    applied to an agent's joined output before it is rendered, and the
    display name made from an author id. */
module Display {
  import opened Text

  // ---------------------------------------------------------------------
  // Markup produced by escaping
  // ---------------------------------------------------------------------

  /** Escaped text is safe to embed: it has no raw newline, and every `<` and
      every `>` in it belongs to a `<br>` tag the escape inserted. */
  predicate SafeMarkup(r: string)
  {
    && '\n' !in r
    && (forall i :: 0 <= i < |r| && r[i] == '<' ==> i + 4 <= |r| && r[i..i + 4] == "<br>")
    && (forall i :: 0 <= i < |r| && r[i] == '>' ==> i >= 3 && r[i - 3..i + 1] == "<br>")
  }

  /** Safe markup stays safe when safe markup is appended. */
  lemma SafeMarkupAppend(a: string, b: string)
    requires SafeMarkup(a) && SafeMarkup(b)
    ensures SafeMarkup(a + b)
  {
  }

  // ---------------------------------------------------------------------
  // The escape as written
  // ---------------------------------------------------------------------

  /** `text.replace('<', '&lt;').replace('>', '&gt;').replace("\n", "<br>")`. */
  function EscapeAsWritten(text: string): string
  {
    ReplaceChar(ReplaceChar(ReplaceChar(text, '<', "&lt;"), '>', "&gt;"), '\n', "<br>")
  }

  /** What the three replacements do to one character. */
  function EscapeCharAsWritten(c: char): string
  {
    if c == '<' then "&lt;" else if c == '>' then "&gt;" else if c == '\n' then "<br>" else [c]
  }

  /** The chain of replacements distributes over concatenation. */
  lemma EscapeAsWrittenAppend(a: string, b: string)
    ensures EscapeAsWritten(a + b) == EscapeAsWritten(a) + EscapeAsWritten(b)
  {
    var lt, lt' := ReplaceChar(a, '<', "&lt;"), ReplaceChar(b, '<', "&lt;");
    ReplaceCharAppend(a, b, '<', "&lt;");
    ReplaceCharAppend(lt, lt', '>', "&gt;");
    ReplaceCharAppend(ReplaceChar(lt, '>', "&gt;"), ReplaceChar(lt', '>', "&gt;"), '\n', "<br>");
  }

  /** Text without `<`, `>` or a newline passes through unchanged. */
  lemma EscapeAsWrittenPlain(s: string)
    requires '<' !in s && '>' !in s && '\n' !in s
    ensures EscapeAsWritten(s) == s
  {
    ReplaceCharAbsent(s, '<', "&lt;");
    ReplaceCharAbsent(s, '>', "&gt;");
    ReplaceCharAbsent(s, '\n', "<br>");
  }

  /** What the chain of replacements does to a single character. */
  lemma EscapeAsWrittenChar(c: char)
    ensures EscapeAsWritten([c]) == EscapeCharAsWritten(c)
  {
    if c == '<' {
      assert ReplaceChar([c], '<', "&lt;") == "&lt;";
      EscapeAsWrittenPlain("&lt;");
      ReplaceCharAbsent("&lt;", '>', "&gt;");
      ReplaceCharAbsent("&lt;", '\n', "<br>");
    } else if c == '>' {
      assert ReplaceChar([c], '<', "&lt;") == [c];
      assert ReplaceChar([c], '>', "&gt;") == "&gt;";
      ReplaceCharAbsent("&gt;", '\n', "<br>");
    } else if c == '\n' {
      assert ReplaceChar([c], '<', "&lt;") == [c];
      assert ReplaceChar([c], '>', "&gt;") == [c];
      assert ReplaceChar([c], '\n', "<br>") == "<br>";
    } else {
      EscapeAsWrittenPlain([c]);
    }
  }

  /** The chain of replacements works character by character. */
  lemma EscapeAsWrittenCons(c: char, rest: string)
    ensures EscapeAsWritten([c] + rest) == EscapeCharAsWritten(c) + EscapeAsWritten(rest)
  {
    EscapeAsWrittenAppend([c], rest);
    EscapeAsWrittenChar(c);
  }

  /** The escape as written yields safe markup, whatever the text. */
  lemma {:induction false} EscapeAsWrittenSafe(text: string)
    ensures SafeMarkup(EscapeAsWritten(text))
  {
    if text == [] {
    } else {
      EscapeAsWrittenCons(text[0], text[1..]);
      assert [text[0]] + text[1..] == text;
      EscapeAsWrittenSafe(text[1..]);
      var e := EscapeCharAsWritten(text[0]);
      assert SafeMarkup(e) by {
        if e == "<br>" {
          assert e[0..4] == "<br>";
        }
      }
      SafeMarkupAppend(e, EscapeAsWritten(text[1..]));
    }
  }

  /** `&` is not escaped, so a text that spells an entity renders like the
      character it names: "<" and "&lt;" become the same markup. */
  lemma EscapeAsWrittenCollides()
    ensures EscapeAsWritten("<") == EscapeAsWritten("&lt;")
    ensures "<" != "&lt;"
  {
    EscapeAsWrittenCons('<', "");
    EscapeAsWrittenPlain("");
    EscapeAsWrittenPlain("&lt;");
  }

  // ---------------------------------------------------------------------
  // The escape with `&` escaped first
  // ---------------------------------------------------------------------

  /** The escape with `&` replaced by `&amp;` before the other three replacements. */
  function Escape(text: string): string
  {
    EscapeAsWritten(ReplaceChar(text, '&', "&amp;"))
  }

  /** What the four replacements do to one character. */
  function EscapeChar(c: char): string
  {
    if c == '&' then "&amp;" else EscapeCharAsWritten(c)
  }

  lemma EscapeCons(c: char, rest: string)
    ensures Escape([c] + rest) == EscapeChar(c) + Escape(rest)
  {
    var head, tail := AmpersandFirst(c), ReplaceChar(rest, '&', "&amp;");
    AmpersandFirstCons(c, rest);
    EscapeAsWrittenAppend(head, tail);
    EscapeAmpersandFirst(c);
  }

  /** What replacing `&` by `&amp;` does to one character. */
  function AmpersandFirst(c: char): string
  {
    if c == '&' then "&amp;" else [c]
  }

  lemma AmpersandFirstCons(c: char, rest: string)
    ensures ReplaceChar([c] + rest, '&', "&amp;") == AmpersandFirst(c) + ReplaceChar(rest, '&', "&amp;")
  {
  }

  lemma EscapeAmpersandFirst(c: char)
    ensures EscapeAsWritten(AmpersandFirst(c)) == EscapeChar(c)
  {
    if c == '&' {
      EscapeAsWrittenPlain("&amp;");
    } else {
      EscapeAsWrittenChar(c);
    }
  }

  /** Escaping `&` as well leaves the markup safe. */
  lemma EscapeSafe(text: string)
    ensures SafeMarkup(Escape(text))
  {
    EscapeAsWrittenSafe(ReplaceChar(text, '&', "&amp;"));
  }

  /** The correction changes nothing for a text without `&`. */
  lemma EscapeAgreesWithoutAmpersand(text: string)
    requires '&' !in text
    ensures Escape(text) == EscapeAsWritten(text)
  {
    ReplaceCharAbsent(text, '&', "&amp;");
  }

  /** What a browser shows for escaped markup: the four entities and `<br>`
      turn back into the characters they stand for. */
  function Unescape(r: string): string
    decreases |r|
  {
    if r == [] then []
    else if |r| >= 5 && r[..5] == "&amp;" then "&" + Unescape(r[5..])
    else if |r| >= 4 && r[..4] == "&lt;" then "<" + Unescape(r[4..])
    else if |r| >= 4 && r[..4] == "&gt;" then ">" + Unescape(r[4..])
    else if |r| >= 4 && r[..4] == "<br>" then "\n" + Unescape(r[4..])
    else [r[0]] + Unescape(r[1..])
  }

  /** Rendering undoes the escape of one character in front of any text. */
  lemma UnescapeEscapeChar(c: char, t: string)
    ensures Unescape(EscapeChar(c) + t) == [c] + Unescape(t)
  {
    if c == '&' {
      UnescapeAmp(t);
    } else if c == '<' {
      UnescapeTag("&lt;", '<', t);
    } else if c == '>' {
      UnescapeTag("&gt;", '>', t);
    } else if c == '\n' {
      UnescapeTag("<br>", '\n', t);
    } else {
      var r := [c] + t;
      assert r[0] == c && r[1..] == t;
    }
  }

  // Each entity and `<br>` in front of any text renders as its character.

  lemma UnescapeAmp(t: string)
    ensures Unescape("&amp;" + t) == "&" + Unescape(t)
  {
    var r := "&amp;" + t;
    assert r[..5] == "&amp;" && r[5..] == t;
  }

  lemma UnescapeTag(tag: string, c: char, t: string)
    requires (tag, c) in [("&lt;", '<'), ("&gt;", '>'), ("<br>", '\n')]
    ensures Unescape(tag + t) == [c] + Unescape(t)
  {
    var r := tag + t;
    assert r[..4] == tag && r[4..] == t;
    assert r[1] == tag[1] && tag[1] != 'a';
  }

  /** The rendered escape shows exactly the original text. */
  lemma {:induction false} UnescapeEscape(text: string)
    ensures Unescape(Escape(text)) == text
  {
    if text != [] {
      assert text == [text[0]] + text[1..];
      EscapeCons(text[0], text[1..]);
      UnescapeEscapeChar(text[0], Escape(text[1..]));
      UnescapeEscape(text[1..]);
    }
  }

  /** Different texts render differently. */
  lemma EscapeInjective(a: string, b: string)
    requires Escape(a) == Escape(b)
    ensures a == b
  {
    UnescapeEscape(a);
    UnescapeEscape(b);
  }

  /** The markup the agent-details view shows for an agent's output: its texts
      joined with blank lines, then escaped by the chain as written. It is
      safe, and it renders back to the joined text when no text has `&`. */
  function ContentMarkupAsWritten(contentParts: seq<string>): (r: string)
    ensures SafeMarkup(r)
    ensures (forall k :: 0 <= k < |contentParts| ==> '&' !in contentParts[k]) ==>
              r == ContentMarkup(contentParts) && Unescape(r) == Join("\n\n", contentParts)
  {
    var full := Join("\n\n", contentParts);
    EscapeAsWrittenSafe(full);
    ContentMarkupAgrees(contentParts);
    EscapeAsWritten(full)
  }

  /** Without `&` in any text, the view's markup is the corrected markup. */
  lemma ContentMarkupAgrees(contentParts: seq<string>)
    ensures (forall k :: 0 <= k < |contentParts| ==> '&' !in contentParts[k]) ==>
              EscapeAsWritten(Join("\n\n", contentParts)) == ContentMarkup(contentParts)
  {
    if forall k :: 0 <= k < |contentParts| ==> '&' !in contentParts[k] {
      JoinLacks("\n\n", contentParts, '&');
      EscapeAgreesWithoutAmpersand(Join("\n\n", contentParts));
    }
  }

  /** An output whose text is `&lt;` is shown as `<`: the view's markup for it
      is that of the output `<`, and it does not render back to the text. */
  lemma ContentMarkupAsWrittenCollides()
    ensures ContentMarkupAsWritten(["&lt;"]) == ContentMarkupAsWritten(["<"])
    ensures Unescape(ContentMarkupAsWritten(["&lt;"])) == "<"
  {
    var entity := "&lt;";
    assert Join("\n\n", [entity]) == entity;
    assert Join("\n\n", ["<"]) == "<";
    EscapeAsWrittenCollides();
    EscapeAsWrittenPlain(entity);
    UnescapeTag(entity, '<', "");
    assert entity + "" == entity;
  }

  /** The markup with `&` escaped first, for an agent's output: its texts
      joined with blank lines, then escaped. */
  function ContentMarkup(contentParts: seq<string>): (r: string)
    ensures SafeMarkup(r)
    ensures Unescape(r) == Join("\n\n", contentParts)
  {
    EscapeSafe(Join("\n\n", contentParts));
    UnescapeEscape(Join("\n\n", contentParts));
    Escape(Join("\n\n", contentParts))
  }

  // ---------------------------------------------------------------------
  // Display names
  // ---------------------------------------------------------------------

  predicate IsUpper(c: char) { 'A' <= c <= 'Z' }

  predicate IsLower(c: char) { 'a' <= c <= 'z' }

  predicate IsLetter(c: char) { IsUpper(c) || IsLower(c) }

  function UpperChar(c: char): char
  {
    if IsLower(c) then (c as int - 32) as char else c
  }

  /** `str.title()` from a position whose preceding character was (`afterLetter`)
      or was not a letter: a letter after a letter is lower-cased, any other
      letter upper-cased, and every other character is kept. */
  function TitleFrom(s: string, afterLetter: bool): string
  {
    if s == [] then []
    else if IsLetter(s[0]) then
      [if afterLetter then LowerChar(s[0]) else UpperChar(s[0])] + TitleFrom(s[1..], true)
    else [s[0]] + TitleFrom(s[1..], false)
  }

  /** `s.title()`. */
  function Title(s: string): string
  {
    TitleFrom(s, false)
  }

  /** `s.title()` position by position: the length is kept; a letter is
      upper-case when it starts a word (first, or after a non-letter) and
      lower-case otherwise; every other character is unchanged. */
  lemma {:induction false} TitleAt(s: string, afterLetter: bool, i: nat)
    requires i < |s|
    ensures |TitleFrom(s, afterLetter)| == |s|
    ensures TitleFrom(s, afterLetter)[i] ==
              if !IsLetter(s[i]) then s[i]
              else if (if i == 0 then afterLetter else IsLetter(s[i - 1])) then LowerChar(s[i])
              else UpperChar(s[i])
  {
    if i > 0 {
      TitleAt(s[1..], IsLetter(s[0]), i - 1);
    } else if |s| > 1 {
      TitleAt(s[1..], IsLetter(s[0]), 0);
    }
  }

  /** `author.replace('_', ' ').title()`. */
  function DisplayName(author: string): string
  {
    Title(ReplaceChar(author, '_', " "))
  }

  /** A one-character replacement by one character works position by position. */
  lemma {:induction false} ReplaceCharAt(s: string, c: char, d: char, i: nat)
    requires i < |s|
    ensures |ReplaceChar(s, c, [d])| == |s|
    ensures ReplaceChar(s, c, [d])[i] == if s[i] == c then d else s[i]
  {
    if i > 0 {
      ReplaceCharAt(s[1..], c, d, i - 1);
    } else if |s| > 1 {
      ReplaceCharAt(s[1..], c, d, 0);
    }
  }

  /** The display name position by position: it has the author id's length;
      an underscore becomes a space, any other non-letter is kept, and a
      letter is upper-cased when it starts a word (first, or after a
      non-letter) and lower-cased otherwise. */
  lemma DisplayNameAt(author: string, i: nat)
    requires i < |author|
    ensures |DisplayName(author)| == |author|
    ensures DisplayName(author)[i] ==
              if author[i] == '_' then ' '
              else if !IsLetter(author[i]) then author[i]
              else if i > 0 && IsLetter(author[i - 1]) then LowerChar(author[i])
              else UpperChar(author[i])
  {
    var spaced := ReplaceChar(author, '_', " ");
    ReplaceCharAt(author, '_', ' ', i);
    if i > 0 {
      ReplaceCharAt(author, '_', ' ', i - 1);
    }
    TitleAt(spaced, false, i);
  }

  /** The author id "scoring_agent" is shown as "Scoring Agent". */
  lemma DisplayNameExample(author: string)
    requires author == "scoring_agent"
    ensures DisplayName(author) == "Scoring Agent"
  {
    var shown := "Scoring Agent";
    DisplayNameAt(author, 0);
    forall i | 0 <= i < |author| ensures DisplayName(author)[i] == shown[i] {
      DisplayNameAt(author, i);
    }
  }
}
