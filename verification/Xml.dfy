/** Just enough XML 1.0 to read a document back: elements and character data, no attributes or references. */
module Xml {
  import opened Wrappers
  import opened Text

  /** A list of sibling nodes. */
  datatype Forest =
    | Nil
    | Chars(text: string, next: Forest)
    | Element(name: string, kids: Forest, next: Forest)

  function Print(f: Forest): string {
    match f
    case Nil => ""
    case Chars(text, next) => text + Print(next)
    case Element(name, kids, next) => "<" + name + ">" + Print(kids) + "</" + name + ">" + Print(next)
  }

  datatype Token = Open(name: string) | Close(name: string) | Data(text: string)

  /** Cutting a text at its markup: `<name>`, `</name>`, and the runs between them. */
  function Tokens(s: string): Option<seq<Token>>
    decreases |s|
  {
    if s == "" then Some([])
    else if s[0] == '<' then
      match SplitOnce(s[1..], '>')
      case None => None
      case Some((tag, rest)) =>
        match Tokens(rest)
        case None => None
        case Some(ts) =>
          Some([if tag != "" && tag[0] == '/' then Close(tag[1..]) else Open(tag)] + ts)
    else
      var n := FirstIndex(s, '<');
      match Tokens(s[n..])
      case None => None
      case Some(ts) => Some([Data(s[..n])] + ts)
  }

  /** Siblings up to the first closing tag that is not theirs, and the tokens from there on. */
  function Siblings(ts: seq<Token>): (r: Option<(Forest, seq<Token>)>)
    ensures r.Some? ==> |r.value.1| <= |ts| && (r.value.1 != [] ==> r.value.1[0].Close?)
    decreases |ts|
  {
    if ts == [] || ts[0].Close? then Some((Nil, ts))
    else if ts[0].Data? then
      match Siblings(ts[1..])
      case None => None
      case Some((next, rest)) => Some((Chars(ts[0].text, next), rest))
    else
      match Siblings(ts[1..])
      case None => None
      case Some((kids, after)) =>
        if after == [] || after[0].name != ts[0].name then None
        else
          match Siblings(after[1..])
          case None => None
          case Some((next, rest)) => Some((Element(ts[0].name, kids, next), rest))
  }

  predicate NameStart(c: char) {
    'A' <= c <= 'Z' || 'a' <= c <= 'z' || c == '_' || c == ':'
  }

  predicate NameChar(c: char) {
    NameStart(c) || IsDigit(c) || c == '-' || c == '.'
  }

  /** The ASCII part of production [5] of XML 1.0 (Fifth Edition). */
  predicate Name(s: string) {
    s != "" && NameStart(s[0]) && forall i :: 0 <= i < |s| ==> NameChar(s[i])
  }

  /** Production [2] of XML 1.0, for scalar values. */
  predicate XmlChar(c: char) {
    c == '\t' || c == '\n' || c == '\r' || (c >= ' ' && c != '\U{FFFE}' && c != '\U{FFFF}')
  }

  /** Production [14] of XML 1.0: no markup, and no end of a CDATA section; `Delimited` keeps `<` out. */
  predicate CharacterData(s: string) {
    Lacks(s, '&') && !Contains(s, "]]>") && forall i :: 0 <= i < |s| ==> XmlChar(s[i])
  }

  lemma NoSectionEnd(s: string)
    requires Lacks(s, '>')
    ensures !Contains(s, "]]>")
  {
    assert |"]]>"| == 3 && "]]>"[2] == '>';
    forall k | 0 <= k <= |s| ensures !OccursAt(s, "]]>", k) {
      assert k + 3 <= |s| ==> s[k..k + 3][2] == s[k + 2];
    }
  }

  predicate Legal(f: Forest) {
    match f
    case Nil => true
    case Chars(text, next) => CharacterData(text) && Legal(next)
    case Element(name, kids, next) => Name(name) && Legal(kids) && Legal(next)
  }

  /** Reading a whole text as legal XML content. */
  function Read(s: string): Option<Forest> {
    match Tokens(s)
    case None => None
    case Some(ts) =>
      match Siblings(ts)
      case None => None
      case Some((f, rest)) => if rest == [] && Legal(f) then Some(f) else None
  }

  /** Forests whose names and texts cannot be mistaken for markup, and whose adjacent texts do not merge. */
  predicate Delimited(f: Forest) {
    match f
    case Nil => true
    case Chars(text, next) => text != "" && Lacks(text, '<') && !next.Chars? && Delimited(next)
    case Element(name, kids, next) =>
      Lacks(name, '>') && (name != "" ==> name[0] != '/') && Delimited(kids) && Delimited(next)
  }

  function TokensOf(f: Forest): seq<Token> {
    match f
    case Nil => []
    case Chars(text, next) => [Data(text)] + TokensOf(next)
    case Element(name, kids, next) => [Open(name)] + TokensOf(kids) + [Close(name)] + TokensOf(next)
  }

  lemma TokensTag(tag: string, rest: string)
    requires Lacks(tag, '>') && Tokens(rest).Some?
    ensures Tokens("<" + tag + ">" + rest) ==
            Some([if tag != "" && tag[0] == '/' then Close(tag[1..]) else Open(tag)] + Tokens(rest).value)
  {
    var s := "<" + tag + ">" + rest;
    assert s[1..] == tag + ['>'] + rest;
    SplitOnceAfter(tag, '>', rest);
  }

  lemma TokensData(text: string, rest: string)
    requires text != "" && Lacks(text, '<') && Tokens(rest).Some? && (rest != "" ==> rest[0] == '<')
    ensures Tokens(text + rest) == Some([Data(text)] + Tokens(rest).value)
  {
    var s := text + rest;
    assert s[0] == text[0];
    if rest == "" {
      assert s == text && FirstIndex(s, '<') == |s|;
    } else {
      assert s == text + ['<'] + rest[1..];
      FirstIndexAfter(text, '<', rest[1..]);
    }
    assert s[..|text|] == text && s[|text|..] == rest;
  }

  lemma PrintStart(f: Forest, rest: string)
    requires !f.Chars? && (rest != "" ==> rest[0] == '<')
    ensures Print(f) + rest != "" ==> (Print(f) + rest)[0] == '<'
  {
  }

  lemma Regroup<T>(a: seq<T>, b: seq<T>, c: seq<T>, d: seq<T>, e: seq<T>)
    ensures (a + b + c + d) + e == a + (b + (c + (d + e)))
  {
  }

  lemma TokensElement(name: string, inner: string, outer: string, kids: seq<Token>, next: seq<Token>)
    requires Lacks(name, '>') && (name != "" ==> name[0] != '/') && Tokens(outer) == Some(next)
    requires var close := "</" + name + ">" + outer;
             Tokens(close).Some? ==> Tokens(inner + close) == Some(kids + Tokens(close).value)
    ensures Tokens("<" + name + ">" + (inner + ("</" + name + ">" + outer))) ==
            Some([Open(name)] + (kids + ([Close(name)] + next)))
  {
    hide Tokens;
    var close := "</" + name + ">" + outer;
    assert close == "<" + ("/" + name) + ">" + outer && ("/" + name)[1..] == name;
    TokensTag("/" + name, outer);
    TokensTag(name, inner + close);
  }

  lemma PrintElement(name: string, kids: Forest, next: Forest, rest: string)
    ensures Print(Element(name, kids, next)) + rest ==
            "<" + name + ">" + (Print(kids) + ("</" + name + ">" + (Print(next) + rest)))
  {
    PrintTags(name, kids, next);
    hide Print;
    Regroup("<" + name + ">", Print(kids), "</" + name + ">", Print(next), rest);
  }

  lemma PrintTags(name: string, kids: Forest, next: Forest)
    ensures Print(Element(name, kids, next)) ==
            ("<" + name + ">") + Print(kids) + ("</" + name + ">") + Print(next)
  {
    TagRegroup(name, Print(kids), Print(next));
  }

  lemma TagRegroup(name: string, body: string, more: string)
    ensures "<" + name + ">" + body + "</" + name + ">" + more ==
            ("<" + name + ">") + body + ("</" + name + ">") + more
  {
    var head := "<" + name + ">" + body;
    assert head + "</" + name + ">" == head + ("</" + name + ">");
  }

  lemma PrintChars(text: string, next: Forest, rest: string, ts: seq<Token>)
    ensures Print(Chars(text, next)) + rest == text + (Print(next) + rest)
    ensures TokensOf(Chars(text, next)) + ts == [Data(text)] + (TokensOf(next) + ts)
  {
  }

  lemma {:induction false} TokensPrint(f: Forest, rest: string, ts: seq<Token>)
    requires Delimited(f) && Tokens(rest) == Some(ts) && (rest != "" ==> rest[0] == '<')
    ensures Tokens(Print(f) + rest) == Some(TokensOf(f) + ts)
    decreases f
  {
    hide Tokens;
    match f {
      case Nil =>
        assert Print(f) + rest == rest && TokensOf(f) + ts == ts;
      case Chars(text, next) =>
        TokensPrint(next, rest, ts);
        PrintStart(next, rest);
        TokensData(text, Print(next) + rest);
        PrintChars(text, next, rest, ts);
      case Element(name, kids, next) =>
        TokensPrint(next, rest, ts);
        var outer := Print(next) + rest;
        var close := "</" + name + ">" + outer;
        if Tokens(close).Some? {
          TokensPrint(kids, close, Tokens(close).value);
        }
        TokensElement(name, Print(kids), outer, TokensOf(kids), TokensOf(next) + ts);
        PrintElement(name, kids, next, rest);
        Regroup([Open(name)], TokensOf(kids), [Close(name)], TokensOf(next), ts);
    }
  }

  lemma SiblingsElement(ts: seq<Token>, name: string, kids: Forest, after: seq<Token>, next: Forest, rest: seq<Token>)
    requires ts != [] && ts[0] == Open(name) && Siblings(ts[1..]) == Some((kids, after))
    requires after != [] && after[0].name == name && Siblings(after[1..]) == Some((next, rest))
    ensures Siblings(ts) == Some((Element(name, kids, next), rest))
  {
  }

  lemma SiblingsData(ts: seq<Token>, next: Forest, rest: seq<Token>)
    requires ts != [] && ts[0].Data? && Siblings(ts[1..]) == Some((next, rest))
    ensures Siblings(ts) == Some((Chars(ts[0].text, next), rest))
  {
  }

  lemma {:induction false} SiblingsOf(f: Forest, rest: seq<Token>)
    requires rest != [] ==> rest[0].Close?
    ensures Siblings(TokensOf(f) + rest) == Some((f, rest))
  {
    var ts := TokensOf(f) + rest;
    assert rest == [] || rest[0].Close? ==> Siblings(rest) == Some((Nil, rest));
    hide Siblings;
    match f {
      case Nil =>
        assert ts == rest;
      case Chars(text, next) =>
        SiblingsOf(next, rest);
        assert ts == [Data(text)] + (TokensOf(next) + rest);
        SiblingsData(ts, next, rest);
      case Element(name, kids, next) =>
        var after := [Close(name)] + (TokensOf(next) + rest);
        SiblingsOf(kids, after);
        SiblingsOf(next, rest);
        Regroup([Open(name)], TokensOf(kids), [Close(name)], TokensOf(next), rest);
        SiblingsElement(ts, name, kids, after, next, rest);
    }
  }

  /** A printed forest reads back as itself if and only if its names and texts are legal XML. */
  lemma ReadPrint(f: Forest)
    requires Delimited(f)
    ensures Read(Print(f)) == if Legal(f) then Some(f) else None
  {
    TokensPrint(f, "", []);
    SiblingsOf(f, []);
    assert Print(f) + "" == Print(f) && TokensOf(f) + [] == TokensOf(f);
  }
}
