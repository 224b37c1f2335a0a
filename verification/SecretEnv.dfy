/** Secret environment entries of a deploy: validation, and the env-file text they are written to. */
module SecretEnv {
  import opened Wrappers
  import opened Text

  datatype Secret = Secret(name: string, value: string)

  datatype SecretError = NameEmpty | NameStart | NameChar | ValueNewline

  predicate NameStartChar(c: char) {
    'A' <= c <= 'Z' || c == '_'
  }

  predicate NameRestChar(c: char) {
    NameStartChar(c) || IsDigit(c)
  }

  /** `[A-Z_][A-Z0-9_]*`, once trimmed. */
  ghost predicate ValidName(name: string) {
    var n := Trim(name);
    n != "" && NameStartChar(n[0]) && forall i :: 0 < i < |n| ==> NameRestChar(n[i])
  }

  predicate ValidValue(value: string) {
    Lacks(value, '\n') && Lacks(value, '\r')
  }

  ghost predicate ValidSecret(s: Secret) {
    ValidName(s.name) && ValidValue(s.value)
  }

  ghost predicate AllValid(vars: seq<Secret>) {
    forall i :: 0 <= i < |vars| ==> ValidSecret(vars[i])
  }

  /** Why a name is refused. */
  ghost function NameError(name: string): (e: Option<SecretError>)
    ensures e.None? <==> ValidName(name)
  {
    var n := Trim(name);
    if n == "" then Some(NameEmpty)
    else if !NameStartChar(n[0]) then Some(NameStart)
    else if ValidName(name) then None
    else Some(NameChar)
  }

  /** Why an entry is refused: its name comes before its value. */
  ghost function EntryError(s: Secret): (e: Option<SecretError>)
    ensures e.None? <==> ValidSecret(s)
  {
    if NameError(s.name).Some? then NameError(s.name)
    else if ValidValue(s.value) then None
    else Some(ValueNewline)
  }

  /** The first entry that is refused is refused for this. */
  ghost predicate FirstInvalid(vars: seq<Secret>, e: SecretError) {
    exists i :: 0 <= i < |vars| && AllValid(vars[..i]) && EntryError(vars[i]) == Some(e)
  }

  /** `validate_deploy_secret_env_name`. */
  method ValidateName(name: string) returns (r: Option<SecretError>)
    ensures r.None? <==> ValidName(name)
    ensures r.None? <==> var n := Trim(name); n != "" && forall i :: 0 <= i < |n| ==>
                           'A' <= n[i] <= 'Z' || n[i] == '_' || (i > 0 && '0' <= n[i] <= '9')
    ensures r == Some(NameEmpty) <==> Blank(name)
    ensures r == Some(NameStart) <==> !Blank(name) && !NameStartChar(Trim(name)[0])
    ensures r == Some(NameChar) <==> !Blank(name) && NameStartChar(Trim(name)[0]) && !ValidName(name)
  {
    hide Trim;
    var n := Trim(name);
    if n == "" { return Some(NameEmpty); }
    if !NameStartChar(n[0]) { return Some(NameStart); }
    for i := 1 to |n|
      invariant forall j :: 0 < j < i ==> NameRestChar(n[j])
    {
      if !NameRestChar(n[i]) { return Some(NameChar); }
    }
    return None;
  }

  /** `validate_deploy_secret_env_vars`. */
  method ValidateVars(vars: seq<Secret>) returns (r: Option<SecretError>)
    ensures r.None? <==> AllValid(vars)
    ensures r.None? ==> forall i :: 0 <= i < |vars| ==> Lacks(vars[i].value, '\n') && Lacks(vars[i].value, '\r')
    ensures r.Some? ==> FirstInvalid(vars, r.value)
  {
    hide Trim, ValidName;
    for i := 0 to |vars|
      invariant AllValid(vars[..i])
    {
      var name := ValidateName(Trim(vars[i].name));
      TrimmedNameValid(vars[i].name);
      if name.Some? {
        assert EntryError(vars[i]) == name;
        return name;
      }
      if !Lacks(vars[i].value, '\n') || !Lacks(vars[i].value, '\r') {
        assert EntryError(vars[i]) == Some(ValueNewline);
        return Some(ValueNewline);
      }
    }
    return None;
  }

  lemma TrimmedNameValid(name: string)
    ensures ValidName(Trim(name)) <==> ValidName(name)
  {
    assert Trim(Trim(name)) == Trim(name);
  }

  // ---- One line

  predicate Special(c: char) {
    IsWhitespace(c) || c == '#' || c == '$' || c == '"' || c == '\\' || c == '\''
  }

  predicate NeedsQuote(value: string) {
    exists i :: 0 <= i < |value| && Special(value[i])
  }

  /** `str::replace` of one character. */
  function Replace(s: string, c: char, sub: string): string {
    if s == "" then "" else (if s[0] == c then sub else [s[0]]) + Replace(s[1..], c, sub)
  }

  /** What stands after the `=`. */
  function Quoted(value: string): string {
    if !NeedsQuote(value) then value
    else "\"" + Replace(Replace(value, '\\', "\\\\"), '"', "\\\"") + "\""
  }

  /** `env_file_line`. */
  function EnvFileLine(key: string, value: string): string {
    key + "=" + Quoted(value) + "\n"
  }

  function EscapeChar(c: char): string {
    if c == '\\' || c == '"' then ['\\', c] else [c]
  }

  /** Escaping character by character. */
  function Escape(s: string): string {
    if s == "" then "" else EscapeChar(s[0]) + Escape(s[1..])
  }

  lemma Regroup(x: string, y: string, z: string)
    ensures x + (y + z) == x + y + z
  {
  }

  lemma ReplaceFirst(s: string, c: char, sub: string)
    requires s != ""
    ensures Replace(s, c, sub) == (if s[0] == c then sub else [s[0]]) + Replace(s[1..], c, sub)
  {
  }

  lemma {:induction false} ReplaceAppend(a: string, b: string, c: char, sub: string)
    ensures Replace(a + b, c, sub) == Replace(a, c, sub) + Replace(b, c, sub)
  {
    assert a == "" ==> Replace(a, c, sub) == "" && a + b == b;
    hide Replace;
    if a != "" {
      ReplaceAppend(a[1..], b, c, sub);
      assert (a + b)[1..] == a[1..] + b;
      ReplaceFirst(a, c, sub);
      ReplaceFirst(a + b, c, sub);
      Regroup(if a[0] == c then sub else [a[0]], Replace(a[1..], c, sub), Replace(b, c, sub));
    }
  }

  /** The two passes amount to escaping each character: the second does not touch what the first wrote. */
  lemma {:induction false} TwoPasses(s: string)
    ensures Replace(Replace(s, '\\', "\\\\"), '"', "\\\"") == Escape(s)
  {
    if s != "" {
      TwoPasses(s[1..]);
      var first := if s[0] == '\\' then "\\\\" else [s[0]];
      ReplaceAppend(first, Replace(s[1..], '\\', "\\\\"), '"', "\\\"");
      if s[0] == '\\' {
        assert first == ['\\'] + ['\\'] && ['\\', '\\'][1..] == ['\\'] && ['\\'][1..] == "";
        assert Replace(['\\'], '"', "\\\"") == ['\\'];
        assert Replace(first, '"', "\\\"") == ['\\', '\\'];
      } else {
        assert first[1..] == "";
        assert Replace(first, '"', "\\\"") == EscapeChar(s[0]);
      }
    }
  }

  function Unescape(s: string): string
    decreases |s|
  {
    if s == "" then ""
    else if s[0] == '\\' && |s| > 1 then [s[1]] + Unescape(s[2..])
    else [s[0]] + Unescape(s[1..])
  }

  lemma UnescapeStep(c: char, rest: string)
    ensures Unescape(EscapeChar(c) + rest) == [c] + Unescape(rest)
  {
    var s := EscapeChar(c) + rest;
    if c == '\\' || c == '"' {
      assert s[0] == '\\' && s[1] == c && s[2..] == rest;
    } else {
      assert s[0] == c && s[1..] == rest;
    }
  }

  lemma {:induction false} UnescapeEscape(s: string)
    ensures Unescape(Escape(s)) == s
  {
    hide Unescape, EscapeChar;
    if s == "" {
      UnescapeNothing();
    } else {
      UnescapeEscape(s[1..]);
      UnescapeStep(s[0], Escape(s[1..]));
      assert s == [s[0]] + s[1..];
    }
  }

  lemma UnescapeNothing()
    ensures Unescape("") == ""
  {
  }

  /** A reader of what stands after the `=`: in double quotes with escapes, or as it is. */
  function Unquote(text: string): string {
    if |text| >= 2 && text[0] == '"' && text[|text| - 1] == '"' then Unescape(text[1..|text| - 1]) else text
  }

  /** The quoted and the raw form cannot be confused. */
  lemma UnquoteQuoted(value: string)
    ensures Unquote(Quoted(value)) == value
  {
    TwoPasses(value);
    UnescapeEscape(value);
    if NeedsQuote(value) {
      var text := "\"" + Escape(value) + "\"";
      assert text[1..|text| - 1] == Escape(value);
    } else if |value| >= 2 {
      assert !Special(value[0]);
    }
  }

  lemma {:induction false} EscapeLacks(s: string, c: char)
    requires Lacks(s, c) && c != '\\'
    ensures Lacks(Escape(s), c)
  {
    if s != "" {
      EscapeLacks(s[1..], c);
    }
  }

  lemma QuotedLacks(value: string, c: char)
    requires Lacks(value, c) && c != '\\' && c != '"'
    ensures Lacks(Quoted(value), c)
  {
    TwoPasses(value);
    EscapeLacks(value, c);
  }

  lemma EscapeGrows(s: string)
    ensures |Escape(s)| >= |s|
  {
  }

  /** A character that may stand in a value without quotes. */
  predicate Bare(c: char) {
    !IsWhitespace(c) && c !in {'#', '$', '"', '\'', '\\'}
  }

  /** A reader that takes the text after the `=` literally sees the value exactly when each character may stand bare. */
  lemma LiteralExactly(value: string)
    ensures Quoted(value) == value <==> forall i :: 0 <= i < |value| ==> Bare(value[i])
  {
    TwoPasses(value);
    EscapeGrows(value);
    hide Replace, Escape;
    assert forall i :: 0 <= i < |value| ==> (Special(value[i]) <==> !Bare(value[i]));
  }

  // ---- The file

  function Line(s: Secret): string {
    Trim(s.name) + "=" + Quoted(s.value)
  }

  function LinesOf(vars: seq<Secret>): seq<string> {
    if vars == [] then [] else [Line(vars[0])] + LinesOf(vars[1..])
  }

  function Contents(vars: seq<Secret>): string {
    Unlines(LinesOf(vars))
  }

  lemma FirstLine(vars: seq<Secret>)
    requires vars != []
    ensures Contents(vars) == Line(vars[0]) + "\n" + Contents(vars[1..])
  {
    hide Line;
  }

  /** `write_deploy_secret_env_file`, up to the text handed to the file system. */
  method WriteContents(vars: seq<Secret>) returns (r: Result<string, SecretError>)
    ensures r.Ok? <==> AllValid(vars)
    ensures r.Ok? ==> r.value == Contents(vars)
    ensures r.Err? ==> FirstInvalid(vars, r.error)
  {
    assert Contents(vars[|vars|..]) == "" && vars[0..] == vars;
    hide Trim, Quoted, AllValid, Contents, FirstInvalid;
    var error := ValidateVars(vars);
    if error.Some? { return Err(error.value); }
    var contents := "";
    for i := 0 to |vars|
      invariant contents + Contents(vars[i..]) == Contents(vars)
    {
      FirstLine(vars[i..]);
      assert vars[i..][1..] == vars[i + 1..];
      Regroup(contents, Line(vars[i]) + "\n", Contents(vars[i + 1..]));
      contents := contents + EnvFileLine(Trim(vars[i].name), vars[i].value);
    }
    return Ok(contents);
  }

  function ReadLines(lines: seq<string>): Option<seq<Secret>> {
    if lines == [] then Some([])
    else
      match (SplitOnce(lines[0], '='), ReadLines(lines[1..]))
      case (Some((name, text)), Some(rest)) => Some([Secret(name, Unquote(text))] + rest)
      case _ => None
  }

  /** A reader of the file: `name=text` lines, each text unquoted. */
  function ReadContents(text: string): Option<seq<Secret>> {
    var pieces := Split(text, '\n');
    if pieces == [] then None else ReadLines(pieces[..|pieces| - 1])
  }

  function TrimNames(vars: seq<Secret>): seq<Secret> {
    if vars == [] then [] else [Secret(Trim(vars[0].name), vars[0].value)] + TrimNames(vars[1..])
  }

  lemma {:induction false} TrimNamesAt(vars: seq<Secret>)
    ensures |TrimNames(vars)| == |vars|
    ensures forall i :: 0 <= i < |vars| ==> TrimNames(vars)[i] == Secret(Trim(vars[i].name), vars[i].value)
  {
    hide Trim;
    if vars != [] {
      TrimNamesAt(vars[1..]);
    }
  }

  lemma ValidNameLacks(name: string, c: char)
    requires ValidName(name) && !NameRestChar(c)
    ensures Lacks(Trim(name), c)
  {
    hide Trim;
  }

  lemma LineReads(s: Secret)
    requires ValidSecret(s)
    ensures SplitOnce(Line(s), '=') == Some((Trim(s.name), Quoted(s.value))) && Lacks(Line(s), '\n')
  {
    hide ValidName, Trim, Quoted;
    ValidNameLacks(s.name, '=');
    ValidNameLacks(s.name, '\n');
    QuotedLacks(s.value, '\n');
    assert Line(s) == Trim(s.name) + ['='] + Quoted(s.value);
    SplitOnceAfter(Trim(s.name), '=', Quoted(s.value));
  }

  lemma FirstLineRead(lines: seq<string>, name: string, text: string, rest: seq<Secret>)
    requires lines != [] && SplitOnce(lines[0], '=') == Some((name, text)) && ReadLines(lines[1..]) == Some(rest)
    ensures ReadLines(lines) == Some([Secret(name, Unquote(text))] + rest)
  {
    hide Unquote, SplitOnce;
  }

  lemma {:induction false} ReadLinesOf(vars: seq<Secret>)
    requires AllValid(vars)
    ensures ReadLines(LinesOf(vars)) == Some(TrimNames(vars))
    ensures |LinesOf(vars)| == |vars| && forall i :: 0 <= i < |vars| ==> Lacks(LinesOf(vars)[i], '\n')
  {
    hide ValidSecret, Line, Quoted, Trim, Unquote, SplitOnce, Lacks;
    if vars != [] {
      ReadLinesOf(vars[1..]);
      LineReads(vars[0]);
      UnquoteQuoted(vars[0].value);
      FirstLineRead(LinesOf(vars), Trim(vars[0].name), Quoted(vars[0].value), TrimNames(vars[1..]));
    }
  }

  /** The file says exactly the trimmed names and the values. */
  lemma ContentsReadBack(vars: seq<Secret>)
    requires AllValid(vars)
    ensures ReadContents(Contents(vars)) == Some(TrimNames(vars))
  {
    hide ValidSecret, Line, Split, LinesOf, ReadLines, TrimNames, Unlines;
    ReadLinesOf(vars);
    SplitUnlines(LinesOf(vars));
    assert (LinesOf(vars) + [""])[..|vars|] == LinesOf(vars);
  }

  /** Two validated lists with one text agree on every trimmed name and value. */
  lemma ContentsInjective(a: seq<Secret>, b: seq<Secret>)
    requires AllValid(a) && AllValid(b) && Contents(a) == Contents(b)
    ensures |a| == |b| && forall i :: 0 <= i < |a| ==> Trim(a[i].name) == Trim(b[i].name) && a[i].value == b[i].value
  {
    hide AllValid, Contents, ReadContents, Trim, TrimNames;
    ContentsReadBack(a);
    ContentsReadBack(b);
    TrimNamesAt(a);
    TrimNamesAt(b);
  }
}
