/** The string operations of the Rust standard library that the agent relies on, over Unicode scalar values. */
module Text {
  import opened Wrappers

  /** The Unicode `White_Space` property, which `char::is_whitespace` and `str::trim` use. */
  predicate IsWhitespace(c: char) {
    '\t' <= c <= '\r' || c == ' ' || c == '\U{0085}' || c == '\U{00A0}' || c == '\U{1680}'
    || '\U{2000}' <= c <= '\U{200A}' || c == '\U{2028}' || c == '\U{2029}' || c == '\U{202F}'
    || c == '\U{205F}' || c == '\U{3000}'
  }

  predicate Lacks(s: string, c: char) {
    forall k :: 0 <= k < |s| ==> s[k] != c
  }

  function TrimStart(s: string): (r: string)
    ensures |r| <= |s| && r == s[|s| - |r|..]
    ensures r != "" ==> !IsWhitespace(r[0])
    ensures forall i :: 0 <= i < |s| - |r| ==> IsWhitespace(s[i])
  {
    if s != "" && IsWhitespace(s[0]) then TrimStart(s[1..]) else s
  }

  function TrimEnd(s: string): (r: string)
    ensures |r| <= |s| && r == s[..|r|]
    ensures r != "" ==> !IsWhitespace(r[|r| - 1])
    ensures forall i :: |r| <= i < |s| ==> IsWhitespace(s[i])
  {
    if s != "" && IsWhitespace(s[|s| - 1]) then TrimEnd(s[..|s| - 1]) else s
  }

  /** `str::trim`. */
  function Trim(s: string): (r: string)
    ensures Trimmed(r)
    ensures Trimmed(s) ==> r == s
  {
    TrimEnd(TrimStart(s))
  }

  lemma TrimLacks(s: string, c: char)
    requires Lacks(s, c)
    ensures Lacks(Trim(s), c)
  {
  }

  lemma TrimKeepsFirst(s: string)
    requires s != "" && !IsWhitespace(s[0])
    ensures Trim(s) != "" && Trim(s)[0] == s[0]
  {
    assert TrimStart(s) == s;
  }

  ghost predicate AllBlank(s: string) {
    forall i :: 0 <= i < |s| ==> IsWhitespace(s[i])
  }

  lemma TrimStartPast(blanks: string, rest: string)
    requires AllBlank(blanks) && (rest != "" ==> !IsWhitespace(rest[0]))
    ensures TrimStart(blanks + rest) == rest
  {
    var s := blanks + rest;
    assert forall i :: 0 <= i < |blanks| ==> s[i] == blanks[i];
    assert rest != "" ==> s[|blanks|] == rest[0];
    assert |TrimStart(s)| == |rest|;
  }

  lemma TrimEndPast(rest: string, blanks: string)
    requires AllBlank(blanks) && (rest != "" ==> !IsWhitespace(rest[|rest| - 1]))
    ensures TrimEnd(rest + blanks) == rest
  {
    var s := rest + blanks;
    assert forall i :: |rest| <= i < |s| ==> s[i] == blanks[i - |rest|];
    assert rest != "" ==> s[|rest| - 1] == rest[|rest| - 1];
    assert |TrimEnd(s)| == |rest|;
  }

  /** Trimming takes away the blanks around a text, and nothing else. */
  lemma TrimExactly(before: string, core: string, after: string)
    requires AllBlank(before) && AllBlank(after) && Trimmed(core)
    ensures Trim(before + core + after) == core
  {
    hide TrimStart, TrimEnd, IsWhitespace;
    if core == "" {
      assert before + core + after == before + after + "";
      assert AllBlank(before + after);
      TrimStartPast(before + after, "");
      TrimEndPast("", "");
      assert "" + "" == "";
    } else {
      assert before + core + after == before + (core + after);
      TrimStartPast(before, core + after);
      TrimEndPast(core, after);
    }
  }

  predicate Trimmed(s: string) {
    s != "" ==> !IsWhitespace(s[0]) && !IsWhitespace(s[|s| - 1])
  }

  predicate Blank(s: string) {
    Trim(s) == ""
  }

  /** Position of the first `c` at or after `k`, or the length when there is none. */
  function IndexFrom(s: string, c: char, k: nat): (i: nat)
    requires k <= |s|
    ensures k <= i <= |s| && forall j :: k <= j < i ==> s[j] != c
    ensures i < |s| ==> s[i] == c
    decreases |s| - k
  {
    if k == |s| || s[k] == c then k else IndexFrom(s, c, k + 1)
  }

  /** Position of the last `c` below `k`, or -1 when there is none. */
  function LastIndexBelow(s: string, c: char, k: nat): (i: int)
    requires k <= |s|
    ensures -1 <= i < k && forall j :: i < j < k ==> s[j] != c
    ensures i >= 0 ==> s[i] == c
  {
    if k == 0 then -1 else if s[k - 1] == c then k - 1 else LastIndexBelow(s, c, k - 1)
  }

  function FirstIndex(s: string, c: char): (i: nat)
    ensures i <= |s| && Lacks(s[..i], c)
    ensures i < |s| ==> s[i] == c
  {
    IndexFrom(s, c, 0)
  }

  lemma FirstIndexAfter(a: string, c: char, rest: string)
    requires Lacks(a, c)
    ensures FirstIndex(a + [c] + rest, c) == |a|
  {
    assert (a + [c] + rest)[|a|] == c;
  }

  /** `str::split_once`: cut at the first `c`. */
  function SplitOnce(s: string, c: char): (r: Option<(string, string)>)
    ensures r.Some? ==> s == r.value.0 + [c] + r.value.1 && Lacks(r.value.0, c)
    ensures r.None? <==> Lacks(s, c)
  {
    var i := FirstIndex(s, c);
    if i == |s| then assert s[..i] == s; None else Some((s[..i], s[i + 1..]))
  }

  lemma SplitOnceAfter(a: string, c: char, b: string)
    requires Lacks(a, c)
    ensures SplitOnce(a + [c] + b, c) == Some((a, b))
  {
    FirstIndexAfter(a, c, b);
    assert (a + [c] + b)[..|a|] == a && (a + [c] + b)[|a| + 1..] == b;
  }

  /** `str::rsplit_once`: cut at the last `c`. */
  function RSplitOnce(s: string, c: char): (r: Option<(string, string)>)
    ensures r.Some? ==> s == r.value.0 + [c] + r.value.1 && Lacks(r.value.1, c)
    ensures r.None? <==> Lacks(s, c)
  {
    var i := LastIndexBelow(s, c, |s|);
    if i < 0 then None else Some((s[..i], s[i + 1..]))
  }

  lemma RSplitOnceAfter(a: string, c: char, b: string)
    requires Lacks(b, c)
    ensures RSplitOnce(a + [c] + b, c) == Some((a, b))
  {
    var s := a + [c] + b;
    assert s[|a|] == c && forall j :: |a| < j < |s| ==> s[j] == b[j - |a| - 1];
    assert LastIndexBelow(s, c, |s|) == |a|;
    assert s[..|a|] == a && s[|a| + 1..] == b;
  }

  /** `str::split` on one character: every piece, empty ones included. */
  function Split(s: string, c: char): (r: seq<string>)
    decreases |s|
  {
    var i := FirstIndex(s, c);
    if i == |s| then [s] else [s[..i]] + Split(s[i + 1..], c)
  }

  lemma {:induction false} SplitPieces(s: string, c: char)
    ensures |Split(s, c)| >= 1
    ensures forall k :: 0 <= k < |Split(s, c)| ==> Lacks(Split(s, c)[k], c)
    decreases |s|
  {
    var i := FirstIndex(s, c);
    if i < |s| {
      SplitPieces(s[i + 1..], c);
    }
  }

  lemma SplitAfter(a: string, c: char, rest: string)
    requires Lacks(a, c)
    ensures Split(a + [c] + rest, c) == [a] + Split(rest, c)
  {
    var s := a + [c] + rest;
    FirstIndexAfter(a, c, rest);
    assert s[..|a|] == a && s[|a| + 1..] == rest;
  }

  lemma SplitAppendStep(a: string, c: char, rest: string, q: string, x: seq<string>, y: seq<string>)
    requires Lacks(a, c)
    requires Split(rest, c) == x && Split(rest + [c] + q, c) == x + y
    ensures Split(a + [c] + (rest + [c] + q), c) == Split(a + [c] + rest, c) + y
  {
    hide Split, Lacks;
    SplitAfter(a, c, rest);
    SplitAfter(a, c, rest + [c] + q);
    PiecesRegroup([a], x, y);
  }

  lemma PiecesRegroup(a: seq<string>, b: seq<string>, c: seq<string>)
    ensures a + (b + c) == a + b + c
  {
  }

  /** Splitting distributes over joining at a separator, whatever the two sides contain. */
  lemma {:induction false} SplitAppend(p: string, c: char, q: string)
    ensures Split(p + [c] + q, c) == Split(p, c) + Split(q, c)
    decreases |p|
  {
    if Lacks(p, c) {
      SplitAfter(p, c, q);
    } else {
      var (a, rest) := SplitOnce(p, c).value;
      assert p + [c] + q == a + [c] + (rest + [c] + q);
      SplitAppend(rest, c, q);
      SplitAppendStep(a, c, rest, q, Split(rest, c), Split(q, c));
    }
  }

  /** Dropping empty pieces: `.filter(|p| !p.is_empty())`. */
  function NonEmpty(parts: seq<string>): (r: seq<string>)
    ensures forall k :: 0 <= k < |r| ==> r[k] in parts && r[k] != ""
  {
    if parts == [] then []
    else if parts[0] == "" then NonEmpty(parts[1..])
    else [parts[0]] + NonEmpty(parts[1..])
  }

  lemma {:induction false} NonEmptyUnchanged(parts: seq<string>)
    requires forall k :: 0 <= k < |parts| ==> parts[k] != ""
    ensures NonEmpty(parts) == parts
  {
    if parts != [] {
      NonEmptyUnchanged(parts[1..]);
    }
  }

  lemma NonEmptyStep(parts: seq<string>)
    requires parts != []
    ensures NonEmpty(parts) == (if parts[0] == "" then [] else [parts[0]]) + NonEmpty(parts[1..])
  {
  }

  lemma {:induction false} NonEmptyAppend(a: seq<string>, b: seq<string>)
    ensures NonEmpty(a + b) == NonEmpty(a) + NonEmpty(b)
  {
    assert a == [] ==> a + b == b && NonEmpty(a) == [];
    hide NonEmpty;
    if a != [] {
      NonEmptyAppend(a[1..], b);
      assert (a + b)[1..] == a[1..] + b && (a + b)[0] == a[0];
      NonEmptyStep(a);
      NonEmptyStep(a + b);
      PiecesRegroup(if a[0] == "" then [] else [a[0]], NonEmpty(a[1..]), NonEmpty(b));
    }
  }

  lemma NonEmptyOne(part: string)
    ensures NonEmpty([part]) == if part == "" then [] else [part]
  {
    assert [part][1..] == [];
  }

  function Join(parts: seq<string>, sep: string): string {
    if parts == [] then ""
    else if |parts| == 1 then parts[0]
    else parts[0] + sep + Join(parts[1..], sep)
  }

  /** Splitting what was joined gives the parts back, for separator-free parts. */
  lemma {:induction false} SplitJoin(parts: seq<string>, c: char)
    requires parts != [] && forall k :: 0 <= k < |parts| ==> Lacks(parts[k], c)
    ensures Split(Join(parts, [c]), c) == parts
  {
    if |parts| == 1 {
      assert Split(parts[0], c) == [parts[0]];
    } else {
      SplitJoin(parts[1..], c);
      SplitAfter(parts[0], c, Join(parts[1..], [c]));
      assert parts == [parts[0]] + parts[1..];
    }
  }

  function StripCr(s: string): string {
    if s != "" && s[|s| - 1] == '\r' then s[..|s| - 1] else s
  }

  /** `str::lines`: pieces ended by LF or CR LF, and a last unterminated piece kept as it is. */
  function Lines(s: string): (r: seq<string>)
    ensures forall k :: 0 <= k < |r| ==> Lacks(r[k], '\n')
    decreases |s|
  {
    if s == "" then []
    else
      var i := FirstIndex(s, '\n');
      if i == |s| then [s] else [StripCr(s[..i])] + Lines(s[i + 1..])
  }

  lemma LinesAfter(a: string, rest: string)
    requires Lacks(a, '\n')
    ensures Lines(a + "\n" + rest) == [StripCr(a)] + Lines(rest)
  {
    var s := a + "\n" + rest;
    assert s == a + ['\n'] + rest;
    FirstIndexAfter(a, '\n', rest);
    assert s[..|a|] == a && s[|a| + 1..] == rest;
  }

  /** A line ends at its LF, without the CR before it; a last piece without LF is a line as it is. */
  lemma LinesExactly(a: string, rest: string)
    requires Lacks(a, '\n')
    ensures Lines("") == [] && (a != "" ==> Lines(a) == [a])
    ensures (a == "" || a[|a| - 1] != '\r') ==> Lines(a + "\n" + rest) == [a] + Lines(rest)
    ensures Lines(a + "\r" + "\n" + rest) == [a] + Lines(rest)
  {
    assert a != "" ==> FirstIndex(a, '\n') == |a|;
    var b := a + "\r";
    LinesAfter(a, rest);
    LinesAfter(b, rest);
    assert b[..|b| - 1] == a;
  }

  lemma LinesAppendStep(p: string, a: string, rest: string, q: string)
    requires p == a + "\n" + rest && Lacks(a, '\n') && Lines(rest + "\n" + q) == Lines(rest + "\n") + Lines(q)
    ensures Lines(p + "\n" + q) == Lines(p + "\n") + Lines(q)
  {
    hide Lines, StripCr, Lacks;
    LinesAfter(a, rest + "\n" + q);
    LinesAfter(a, rest + "\n");
    LinesCut(a, rest, q);
    LinesCut(a, rest, "");
    assert [StripCr(a)] + (Lines(rest + "\n") + Lines(q)) == [StripCr(a)] + Lines(rest + "\n") + Lines(q);
  }

  lemma LinesCut(a: string, rest: string, q: string)
    ensures a + "\n" + rest + "\n" + q == a + "\n" + (rest + "\n" + q)
    ensures a + "\n" + rest + "\n" == a + "\n" + (rest + "\n")
  {
  }

  lemma LinesOne(p: string, q: string)
    requires Lacks(p, '\n')
    ensures Lines(p + "\n" + q) == Lines(p + "\n") + Lines(q)
  {
    LinesAfter(p, q);
    LinesAfter(p, "");
    assert p + "\n" + "" == p + "\n" && [StripCr(p)] + [] == [StripCr(p)];
  }

  /** Text that ends a line does not run into what follows. */
  lemma {:induction false} LinesAppend(p: string, q: string)
    ensures Lines(p + "\n" + q) == Lines(p + "\n") + Lines(q)
    decreases |p|
  {
    hide Lines, StripCr, SplitOnce, Lacks;
    if Lacks(p, '\n') {
      LinesOne(p, q);
    } else {
      var (a, rest) := SplitOnce(p, '\n').value;
      LinesAppend(rest, q);
      LinesAppendStep(p, a, rest, q);
    }
  }

  /** Every line followed by LF. */
  function Unlines(ls: seq<string>): string {
    if ls == [] then "" else ls[0] + "\n" + Unlines(ls[1..])
  }

  lemma UnlinesFirst(ls: seq<string>, rest: string)
    requires ls != []
    ensures Unlines(ls) + rest == ls[0] + "\n" + (Unlines(ls[1..]) + rest)
  {
  }

  lemma {:induction false} UnlinesAppend(a: seq<string>, b: seq<string>)
    ensures Unlines(a + b) == Unlines(a) + Unlines(b)
  {
    assert a == [] ==> a + b == b && Unlines(a) + Unlines(b) == Unlines(b);
    hide Unlines;
    if a != [] {
      UnlinesAppend(a[1..], b);
      assert (a + b)[1..] == a[1..] + b;
      UnlinesFirst(a, Unlines(b));
      UnlinesFirst(a + b, "");
      assert Unlines(a + b) + "" == Unlines(a + b) && Unlines(a[1..] + b) + "" == Unlines(a[1..] + b);
    }
  }

  lemma NoLines(rest: string)
    ensures Lines(Unlines([]) + rest) == Lines(Unlines([])) + Lines(rest)
  {
    assert Lines(Unlines([])) == [];
    hide Lines;
    assert Unlines([]) + rest == rest;
  }

  /** The lines of LF-terminated texts, one after the other. */
  lemma LinesOfUnlines(ls: seq<string>, rest: string)
    ensures Lines(Unlines(ls) + rest) == Lines(Unlines(ls)) + Lines(rest)
  {
    hide Lines, Unlines;
    if ls == [] {
      NoLines(rest);
    } else {
      LinesAppend(Unlined(ls), rest);
    }
  }

  /** LF-terminated text without its last LF. */
  function Unlined(ls: seq<string>): (p: string)
    requires ls != []
    ensures Unlines(ls) == p + "\n"
  {
    if |ls| == 1 then ls[0] else ls[0] + "\n" + Unlined(ls[1..])
  }

  predicate PlainLine(l: string) {
    Lacks(l, '\n') && (l != "" ==> l[|l| - 1] != '\r')
  }

  lemma {:induction false} LinesUnlines(ls: seq<string>)
    requires forall k :: 0 <= k < |ls| ==> PlainLine(ls[k])
    ensures Lines(Unlines(ls)) == ls
  {
    if ls != [] {
      LinesUnlines(ls[1..]);
      LinesAfter(ls[0], Unlines(ls[1..]));
      assert ls == [ls[0]] + ls[1..];
    }
  }

  lemma {:induction false} SplitUnlines(ls: seq<string>)
    requires forall k :: 0 <= k < |ls| ==> Lacks(ls[k], '\n')
    ensures Split(Unlines(ls), '\n') == ls + [""]
  {
    assert Split("", '\n') == [""];
    hide Split;
    if ls != [] {
      var tail := Unlines(ls[1..]);
      SplitUnlines(ls[1..]);
      SplitAfter(ls[0], '\n', tail);
      assert Unlines(ls) == ls[0] + ['\n'] + tail;
      calc {
        Split(Unlines(ls), '\n');
        [ls[0]] + Split(tail, '\n');
        [ls[0]] + (ls[1..] + [""]);
        ls + [""];
      }
    }
  }

  lemma {:induction false} JoinIsUnlines(ls: seq<string>)
    requires ls != []
    ensures Join(ls, "\n") + "\n" == Unlines(ls)
  {
    if |ls| == 1 {
      assert ls[1..] == [];
    } else {
      JoinIsUnlines(ls[1..]);
    }
  }

  predicate OccursAt(s: string, pattern: string, k: nat) {
    k + |pattern| <= |s| && s[k..k + |pattern|] == pattern
  }

  /** `str::contains`. */
  predicate Contains(s: string, pattern: string) {
    exists k :: 0 <= k <= |s| && OccursAt(s, pattern, k)
  }

  /** Length in UTF-8 bytes: what `str::len` returns. */
  function Utf8Len(s: string): (n: nat)
    ensures n >= |s|
  {
    if s == "" then 0
    else (if s[0] < '\U{0080}' then 1 else if s[0] < '\U{0800}' then 2 else if s[0] < '\U{10000}' then 3 else 4)
         + Utf8Len(s[1..])
  }

  predicate IsDigit(c: char) {
    '0' <= c <= '9'
  }

  predicate AllDigits(s: string) {
    forall k :: 0 <= k < |s| ==> IsDigit(s[k])
  }

  function DigitsValue(s: string): nat
    requires AllDigits(s)
  {
    if s == "" then 0 else assert IsDigit(s[|s| - 1]); 10 * DigitsValue(s[..|s| - 1]) + (s[|s| - 1] as int - '0' as int)
  }

  /** `str::parse` for an unsigned integer of the given largest value: an optional `+`, then digits. */
  function ParseUnsigned(s: string, max: nat): (r: Option<nat>)
    ensures r.Some? ==> r.value <= max
    ensures r.Some? ==> s != "" && forall k :: 0 <= k < |s| ==> IsDigit(s[k]) || s[k] == '+'
  {
    var digits := if s != "" && s[0] == '+' then s[1..] else s;
    if digits != "" && AllDigits(digits) && DigitsValue(digits) <= max then Some(DigitsValue(digits)) else None
  }

  /** `to_string` of an unsigned integer. */
  function Decimal(n: nat): (s: string)
    ensures s != "" && AllDigits(s) && DigitsValue(s) == n
  {
    if n < 10 then ['0' + n as char]
    else
      var s := Decimal(n / 10) + ['0' + (n % 10) as char];
      assert s[..|s| - 1] == Decimal(n / 10);
      s
  }

  /** Printing a number and parsing it back. */
  lemma ParseDecimal(n: nat, max: nat)
    ensures ParseUnsigned(Decimal(n), max) == if n <= max then Some(n) else None
  {
    assert IsDigit(Decimal(n)[0]);
  }
}
