/** The `parton.env` text format: one `KEY=value` line for each entry, read into an ordered map. */
module EnvFile {
  import opened Wrappers
  import opened Text
  import opened OrderedMap

  /** What one line of the file adds to the entries read so far. */
  function AddLine(es: seq<Entry>, raw: string): seq<Entry> {
    var line := Trim(raw);
    if line == "" || line[0] == '#' then es
    else
      match SplitOnce(line, '=')
      case None => es
      case Some((k, v)) => if Trim(k) == "" then es else Insert(es, Trim(k), v)
  }

  function ParseLines(lines: seq<string>): seq<Entry> {
    if lines == [] then [] else AddLine(ParseLines(lines[..|lines| - 1]), lines[|lines| - 1])
  }

  function Parse(body: string): seq<Entry> {
    ParseLines(Lines(body))
  }

  /** `parse_env_file`: the loop over the lines. */
  method ParseEnvFile(body: string) returns (out: seq<Entry>)
    ensures out == Parse(body)
  {
    hide Lines, Trim, SplitOnce, Insert;
    out := [];
    var lines := Lines(body);
    for i := 0 to |lines|
      invariant out == ParseLines(lines[..i])
    {
      assert lines[..i + 1][..i] == lines[..i];
      var line := Trim(lines[i]);
      if line == "" || line[0] == '#' {
        continue;
      }
      var cut := SplitOnce(line, '=');
      if cut.None? {
        continue;
      }
      var key := Trim(cut.value.0);
      if key != "" {
        out := Insert(out, key, cut.value.1);
      }
    }
    assert lines[..|lines|] == lines;
  }

  function RenderEntry(e: Entry): (line: string)
    ensures |line| == |e.0| + 1 + |e.1|
  {
    e.0 + "=" + e.1
  }

  function RenderEntries(es: seq<Entry>): (lines: seq<string>)
    ensures |lines| == |es| && forall i :: 0 <= i < |es| ==> lines[i] == RenderEntry(es[i])
  {
    seq(|es|, i requires 0 <= i < |es| => RenderEntry(es[i]))
  }

  /** `render_env_file`. */
  function Render(es: seq<Entry>): string {
    Join(RenderEntries(es), "\n") + "\n"
  }

  /** The entries that survive being written and read back. */
  ghost predicate Storable(e: Entry) {
    StorableKey(e.0) && OneLine(e.1)
  }

  ghost predicate StorableKey(k: string) {
    k != "" && Trimmed(k) && k[0] != '#' && Lacks(k, '=') && Lacks(k, '\n')
  }

  /** No line feed inside and no whitespace at the end. */
  ghost predicate OneLine(s: string) {
    Lacks(s, '\n') && (s != "" ==> !IsWhitespace(s[|s| - 1]))
  }

  ghost predicate AllStorable(es: seq<Entry>) {
    forall i :: 0 <= i < |es| ==> Storable(es[i])
  }

  lemma ReadEntryStorable(line: string, k: string, v: string)
    requires Trimmed(line) && Lacks(line, '\n') && line == k + "=" + v && line[0] != '#'
    requires Lacks(k, '=') && Trim(k) != ""
    ensures Storable((Trim(k), v))
  {
    assert k[0] == line[0];
    TrimKeepsFirst(k);
    assert forall i :: 0 <= i < |k| ==> k[i] == line[i];
    assert forall i :: 0 <= i < |v| ==> v[i] == line[|k| + 1 + i];
    TrimLacks(k, '=');
    TrimLacks(k, '\n');
  }

  lemma {:induction false} InsertStorable(es: seq<Entry>, key: string, value: string)
    requires AllStorable(es) && Storable((key, value))
    ensures AllStorable(Insert(es, key, value))
  {
    if es != [] {
      InsertStorable(es[1..], key, value);
    }
  }

  /**
   * What a line of the file adds: nothing when it is blank, a comment, without `=` or without a key; else the value
   * behind the first `=` under the key before it, blanks around the line and around the key aside.
   */
  lemma LineExactly(es: seq<Entry>, before: string, line: string, after: string)
    requires AllBlank(before) && AllBlank(after) && Trimmed(line)
    ensures var raw := before + line + after;
            && (line == "" || line[0] == '#' || Lacks(line, '=') ==> AddLine(es, raw) == es)
            && forall k, v :: line == k + "=" + v && Lacks(k, '=') && line[0] != '#' ==>
                 AddLine(es, raw) == if Trim(k) == "" then es else Insert(es, Trim(k), v)
  {
    hide Trim, Insert, AllBlank, SplitOnce;
    TrimExactly(before, line, after);
    assert SplitOnce(line, '=').None? <==> Lacks(line, '=');
    forall k, v | line == k + "=" + v && Lacks(k, '=') ensures SplitOnce(line, '=') == Some((k, v)) {
      SplitOnceAfter(k, '=', v);
    }
  }

  lemma AddLineStorable(es: seq<Entry>, raw: string)
    requires AllStorable(es) && Sorted(es) && Lacks(raw, '\n')
    ensures AllStorable(AddLine(es, raw)) && Sorted(AddLine(es, raw))
  {
    var line := Trim(raw);
    TrimLacks(raw, '\n');
    var cut := SplitOnce(line, '=');
    if line != "" && line[0] != '#' && cut.Some? && Trim(cut.value.0) != "" {
      var key, v := Trim(cut.value.0), cut.value.1;
      assert Storable((key, v)) by {
        ReadEntryStorable(line, cut.value.0, v);
      }
      InsertStorable(es, key, v);
      InsertSorted(es, key, v);
    }
  }

  /** Whatever the text, reading it yields a well-formed map of storable entries. */
  lemma {:induction false} ParseStorable(body: string)
    ensures AllStorable(Parse(body)) && Sorted(Parse(body))
  {
    ParseLinesStorable(Lines(body));
  }

  lemma {:induction false} ParseLinesStorable(lines: seq<string>)
    requires forall i :: 0 <= i < |lines| ==> Lacks(lines[i], '\n')
    ensures AllStorable(ParseLines(lines)) && Sorted(ParseLines(lines))
  {
    if lines != [] {
      ParseLinesStorable(lines[..|lines| - 1]);
      AddLineStorable(ParseLines(lines[..|lines| - 1]), lines[|lines| - 1]);
    }
  }

  lemma RenderedLine(e: Entry)
    requires Storable(e)
    ensures PlainLine(RenderEntry(e)) && Trimmed(RenderEntry(e)) && RenderEntry(e)[0] != '#'
  {
    var line := RenderEntry(e);
    assert line[0] == e.0[0];
    assert line[|line| - 1] == if e.1 == "" then '=' else e.1[|e.1| - 1];
  }

  /** Reading a rendered entry inserts it. */
  lemma AddStored(es: seq<Entry>, e: Entry)
    requires Storable(e)
    ensures AddLine(es, RenderEntry(e)) == Insert(es, e.0, e.1)
  {
    hide Insert;
    RenderedLine(e);
    SplitOnceAfter(e.0, '=', e.1);
  }

  lemma AddRenderedLine(es: seq<Entry>, e: Entry)
    requires Storable(e) && forall i :: 0 <= i < |es| ==> Less(es[i].0, e.0)
    ensures AddLine(es, RenderEntry(e)) == es + [e]
  {
    hide AddLine, Storable;
    AddStored(es, e);
    InsertLast(es, e.0, e.1);
  }

  /** Rendered entries of other keys do not touch what a key was read as. */
  lemma {:induction false} ParseKeeps(lines: seq<string>, es: seq<Entry>, k: string)
    requires forall i :: 0 <= i < |es| ==> Storable(es[i]) && es[i].0 != k
    ensures Get(ParseLines(lines + RenderEntries(es)), k) == Get(ParseLines(lines), k)
  {
    hide AddLine, RenderEntry, Storable, Get, Insert;
    if es == [] {
      assert lines + RenderEntries(es) == lines;
    } else {
      var init, last := es[..|es| - 1], es[|es| - 1];
      ParseKeeps(lines, init, k);
      var before, all := lines + RenderEntries(init), lines + RenderEntries(es);
      assert all[..|all| - 1] == before && all[|all| - 1] == RenderEntry(last);
      AddStored(ParseLines(before), last);
      GetInsert(ParseLines(before), last.0, last.1, k);
    }
  }

  lemma {:induction false} ParseRendered(es: seq<Entry>)
    requires AllStorable(es) && Sorted(es)
    ensures ParseLines(RenderEntries(es)) == es
  {
    hide AddLine, RenderEntry, Storable, Less;
    if es != [] {
      var n := |es| - 1;
      assert RenderEntries(es)[..n] == RenderEntries(es[..n]);
      ParseRendered(es[..n]);
      AddRenderedLine(es[..n], es[n]);
    }
  }

  /** Reading what was written. */
  lemma ParseRender(es: seq<Entry>)
    requires AllStorable(es) && Sorted(es)
    ensures Parse(Render(es)) == es
  {
    var lines := RenderEntries(es);
    if es == [] {
      LinesAfter("", "");
    } else {
      JoinIsUnlines(lines);
      forall i | 0 <= i < |lines| ensures PlainLine(lines[i]) {
        RenderedLine(es[i]);
      }
      LinesUnlines(lines);
      ParseRendered(es);
    }
  }

  /** A map round-trips through the file if and only if every entry of it is storable. */
  lemma RoundTripExactly(es: seq<Entry>)
    requires Sorted(es)
    ensures Parse(Render(es)) == es <==> AllStorable(es)
  {
    ParseStorable(Render(es));
    if AllStorable(es) {
      ParseRender(es);
    }
  }

  /** Rewriting a file without changing its map changes nothing a reader can see, whatever the text was. */
  lemma Normalising(body: string)
    ensures Parse(Render(Parse(body))) == Parse(body)
    ensures Render(Parse(Render(Parse(body)))) == Render(Parse(body))
  {
    ParseStorable(body);
    ParseRender(Parse(body));
  }
}
