/** POSIX shell tokens: words with backslash and single-quote quoting, blanks, and output redirection. */
module Shell {
  import opened Wrappers
  import opened Text

  datatype Token = Word(text: string) | RedirectOut

  /** What would start something else than a plain word (POSIX.1-2017, Shell Command Language, section 2.2). */
  predicate Special(c: char) {
    c == '|' || c == '&' || c == ';' || c == '<' || c == '(' || c == ')' || c == '$' || c == '`' || c == '"'
    || c == '\n' || c == '*' || c == '?' || c == '[' || c == '#' || c == '~'
  }

  function Flush(word: Option<string>): seq<Token> {
    if word.Some? then [Word(word.value)] else []
  }

  function Extend(word: Option<string>, c: char): Option<string> {
    Some((if word.Some? then word.value else "") + [c])
  }

  predicate Descriptor(word: Option<string>) {
    word.Some? && word.value != "" && AllDigits(word.value)
  }

  /**
   * The tokens of `s`, given the word under construction and whether a single quote is open.
   * Inside single quotes every character stands for itself (section 2.2.2); outside, a backslash
   * preserves the next character (2.2.1). `None` when something else than such words is met, and when
   * digits stand right before `>`, which would make them the number of a file descriptor (2.10.1).
   */
  function Lex(s: string, word: Option<string>, quoted: bool): Option<seq<Token>>
    decreases |s|
  {
    if s == "" then if quoted then None else Some(Flush(word))
    else if quoted then
      if s[0] == '\'' then Lex(s[1..], word, false) else Lex(s[1..], Extend(word, s[0]), true)
    else if s[0] == '\'' then Lex(s[1..], if word.Some? then word else Some(""), true)
    else if s[0] == '\\' then
      if |s| == 1 || s[1] == '\n' then None else Lex(s[2..], Extend(word, s[1]), false)
    else if s[0] == ' ' || s[0] == '\t' then Prepend(Flush(word), Lex(s[1..], None, false))
    else if s[0] == '>' then
      if Descriptor(word) || (s[1..] != "" && (s[1] == '>' || s[1] == '&' || s[1] == '|')) then None
      else Prepend(Flush(word) + [RedirectOut], Lex(s[1..], None, false))
    else if Special(s[0]) then None
    else Lex(s[1..], Extend(word, s[0]), false)
  }

  function Prepend(ts: seq<Token>, rest: Option<seq<Token>>): Option<seq<Token>> {
    if rest.Some? then Some(ts + rest.value) else None
  }

  function Tokenise(script: string): Option<seq<Token>> {
    Lex(script, None, false)
  }

  /** Replacing each single quote by `'\''`. */
  function EscapeQuotes(s: string): string {
    if s == "" then ""
    else (if s[0] == '\'' then "'\\''" else [s[0]]) + EscapeQuotes(s[1..])
  }

  predicate PlainWord(s: string) {
    forall i :: 0 <= i < |s| ==>
      s[i] != '\'' && s[i] != '\\' && s[i] != ' ' && s[i] != '\t' && s[i] != '>' && !Special(s[i])
  }

  function Soften(word: Option<string>, s: string): Option<string> {
    if s == "" then word else Some((if word.Some? then word.value else "") + s)
  }

  lemma LexPlainStep(c: char, rest: string, word: Option<string>)
    requires PlainWord([c])
    ensures Lex([c] + rest, word, false) == Lex(rest, Extend(word, c), false)
  {
    assert [c][0] == c && ([c] + rest)[1..] == rest;
  }

  lemma SoftenStep(s: string, word: Option<string>)
    requires s != ""
    ensures Soften(Extend(word, s[0]), s[1..]) == Soften(word, s)
  {
    var w := if word.Some? then word.value else "";
    assert w + [s[0]] + s[1..] == w + s;
    assert s[1..] == "" ==> s == [s[0]];
  }

  lemma {:induction false} LexPlain(s: string, rest: string, word: Option<string>)
    requires PlainWord(s)
    ensures Lex(s + rest, word, false) == Lex(rest, Soften(word, s), false)
  {
    hide Lex, Special;
    if s == "" {
      assert s + rest == rest;
    } else {
      assert PlainWord([s[0]]) && PlainWord(s[1..]);
      LexPlain(s[1..], rest, Extend(word, s[0]));
      LexPlainStep(s[0], s[1..] + rest, word);
      assert s + rest == [s[0]] + (s[1..] + rest);
      SoftenStep(s, word);
    }
  }

  /** An escaped text, met inside quotes, contributes exactly itself and leaves the quotes open. */
  lemma {:induction false} LexEscaped(s: string, rest: string, word: string)
    ensures Lex(EscapeQuotes(s) + rest, Some(word), true) == Lex(rest, Some(word + s), true)
    decreases |s|
  {
    if s == "" {
      assert EscapeQuotes(s) + rest == rest && word + s == word;
    } else {
      LexEscaped(s[1..], rest, word + [s[0]]);
      assert word + [s[0]] + s[1..] == word + s;
      var tail := EscapeQuotes(s[1..]) + rest;
      if s[0] == '\'' {
        assert EscapeQuotes(s) + rest == "'\\''" + tail;
        LexQuoteEscape(tail, word);
      } else {
        assert (EscapeQuotes(s) + rest)[1..] == tail;
      }
    }
  }

  lemma LexQuoteEscape(tail: string, word: string)
    ensures Lex("'\\''" + tail, Some(word), true) == Lex(tail, Some(word + ['\'']), true)
  {
    var s1, s2, s3 := "'" + tail, "\\''" + tail, "'\\''" + tail;
    assert s1[1..] == tail && s2[2..] == s1 && s3[1..] == s2;
    assert Lex(s1, Some(word + ['\'']), false) == Lex(tail, Some(word + ['\'']), true);
    assert Lex(s2, Some(word), false) == Lex(s1, Some(word + ['\'']), false);
  }

  lemma LexBlank(rest: string, word: Option<string>)
    ensures Lex(" " + rest, word, false) == Prepend(Flush(word), Lex(rest, None, false))
  {
    assert (" " + rest)[1..] == rest;
  }

  lemma LexOpenQuote(rest: string)
    ensures Lex("'" + rest, None, false) == Lex(rest, Some(""), true)
  {
    assert ("'" + rest)[1..] == rest;
  }

  lemma LexCloseQuote(rest: string, word: string)
    ensures Lex("'" + rest, Some(word), true) == Lex(rest, Some(word), false)
  {
    assert ("'" + rest)[1..] == rest;
  }

  lemma LexRedirect(rest: string, word: Option<string>)
    requires !Descriptor(word) && (rest == "" || (rest[0] != '>' && rest[0] != '&' && rest[0] != '|'))
    ensures Lex(">" + rest, word, false) == Prepend(Flush(word) + [RedirectOut], Lex(rest, None, false))
  {
    assert (">" + rest)[1..] == rest;
  }

  lemma LexLastWord(word: string)
    requires word != "" && PlainWord(word)
    ensures Lex(word, None, false) == Some([Word(word)])
  {
    LexPlain(word, "", None);
    assert word + "" == word && "" + word == word;
  }

  /** A word in single quotes, its quotes escaped, then whatever follows. */
  lemma LexQuotedWord(text: string, rest: string)
    ensures Lex("'" + (EscapeQuotes(text) + ("'" + rest)), None, false) == Lex(rest, Some(text), false)
  {
    hide Lex, EscapeQuotes;
    LexOpenQuote(EscapeQuotes(text) + ("'" + rest));
    LexEscaped(text, "'" + rest, "");
    assert "" + text == text;
    LexCloseQuote(rest, text);
  }

  /** A blank, `>`, a blank and a path, after a word. */
  lemma RedirectTokens(word: string, path: string)
    requires path != "" && PlainWord(path)
    ensures Lex(" " + (">" + (" " + path)), Some(word), false) == Some([Word(word), RedirectOut, Word(path)])
  {
    hide Lex, PlainWord;
    LexLastWord(path);
    LexBlank(path, None);
    assert [] + [Word(path)] == [Word(path)];
    LexRedirect(" " + path, None);
    assert [] + [RedirectOut] + [Word(path)] == [RedirectOut, Word(path)];
    LexBlank(">" + (" " + path), Some(word));
    assert [Word(word)] + [RedirectOut, Word(path)] == [Word(word), RedirectOut, Word(path)];
  }

  /** After a word: a blank and a quoted word. */
  lemma QuotedTokens(word: string, text: string, rest: string, ts: seq<Token>)
    requires Lex(rest, Some(text), false) == Some(ts)
    ensures Lex(" " + ("'" + (EscapeQuotes(text) + ("'" + rest))), Some(word), false) == Some([Word(word)] + ts)
  {
    hide Lex, EscapeQuotes;
    LexQuotedWord(text, rest);
    LexBlank("'" + (EscapeQuotes(text) + ("'" + rest)), Some(word));
  }

  lemma CommandTokens(name: string, rest: string)
    requires name != "" && PlainWord(name)
    ensures Lex(name + rest, None, false) == Lex(rest, Some(name), false)
  {
    hide Lex, PlainWord;
    LexPlain(name, rest, None);
    assert "" + name == name;
  }

  /** `printf '%s' '<text>' > <path>`, for any text and any plain path. */
  lemma PrintfTokens(text: string, path: string)
    requires path != "" && PlainWord(path)
    ensures Tokenise("printf" + (" " + ("'" + (EscapeQuotes("%s") + ("'" +
                     (" " + ("'" + (EscapeQuotes(text) + ("'" + (" " + (">" + (" " + path)))))))))))) ==
            Some([Word("printf"), Word("%s"), Word(text), RedirectOut, Word(path)])
  {
    assert PlainWord("printf");
    hide Lex, EscapeQuotes, PlainWord;
    var redirect := " " + (">" + (" " + path));
    var last := " " + ("'" + (EscapeQuotes(text) + ("'" + redirect)));
    RedirectTokens(text, path);
    QuotedTokens("%s", text, redirect, [Word(text), RedirectOut, Word(path)]);
    QuotedTokens("printf", "%s", last, [Word("%s")] + [Word(text), RedirectOut, Word(path)]);
    CommandTokens("printf", " " + ("'" + (EscapeQuotes("%s") + ("'" + last))));
    assert [Word("printf")] + ([Word("%s")] + [Word(text), RedirectOut, Word(path)]) ==
           [Word("printf"), Word("%s"), Word(text), RedirectOut, Word(path)];
  }
}
