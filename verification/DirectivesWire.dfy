/** The canonical messages that a control-plane authority signs. */
module DirectivesWire {
  import opened Wrappers
  import opened Text

  /** A point in time, in nanoseconds. */
  type Instant = int

  const SECOND: int := 1_000_000_000

  /** RFC 3339 text of an instant, to the second. */
  type Formatter = Instant -> string

  ghost predicate FormatsSeconds(fmt: Formatter) {
    && (forall t :: Lacks(fmt(t), '\n'))
    && (forall t, u :: fmt(t) == fmt(u) ==> t / SECOND == u / SECOND)
  }

  datatype ReenrollFields = ReenrollFields(
    directiveId: string, targetNodeId: string, newCpUrl: string, newAuthorityId: string,
    newAuthorityVerifyKey: string, newTokenCiphertext: string, newTokenSha256Hex: string,
    notBefore: Instant, notAfter: Instant, issuedByAuthorityId: string, issuedAt: Instant)

  datatype RevokeFields = RevokeFields(directiveId: string, reason: string, revokedAt: Instant,
                                       issuedByAuthorityId: string)

  const REENROLL_HEADER := "pion_handoff_directive/v1/re_enroll"
  const REVOKE_HEADER := "pion_handoff_directive/v1/revoke"

  function Line(name: string, value: string): string {
    name + "=" + value
  }

  /** `handoff_reenroll_directive_signature_message_v1`. */
  function ReenrollMessage(fmt: Formatter, d: ReenrollFields): string {
    Unlines([REENROLL_HEADER,
             Line("directive_id", d.directiveId),
             Line("target_node_id", d.targetNodeId),
             Line("new_cp_url", d.newCpUrl),
             Line("new_authority_id", d.newAuthorityId),
             Line("new_authority_verify_key", d.newAuthorityVerifyKey),
             Line("new_token_ciphertext", d.newTokenCiphertext),
             Line("new_token_sha256_hex", d.newTokenSha256Hex),
             Line("not_before", fmt(d.notBefore)),
             Line("not_after", fmt(d.notAfter)),
             Line("issued_by_authority_id", d.issuedByAuthorityId),
             Line("issued_at", fmt(d.issuedAt))])
  }

  /** `handoff_revoke_directive_signature_message_v1`. */
  function RevokeMessage(fmt: Formatter, d: RevokeFields): string {
    Unlines([REVOKE_HEADER,
             Line("directive_id", d.directiveId),
             Line("reason", d.reason),
             Line("revoked_at", fmt(d.revokedAt)),
             Line("issued_by_authority_id", d.issuedByAuthorityId)])
  }

  type Field = (string, string)

  /** What each message says, as a header and named values. */
  function ReenrollContent(fmt: Formatter, d: ReenrollFields): (string, seq<Field>) {
    (REENROLL_HEADER,
     [("directive_id", d.directiveId), ("target_node_id", d.targetNodeId), ("new_cp_url", d.newCpUrl),
      ("new_authority_id", d.newAuthorityId), ("new_authority_verify_key", d.newAuthorityVerifyKey),
      ("new_token_ciphertext", d.newTokenCiphertext), ("new_token_sha256_hex", d.newTokenSha256Hex),
      ("not_before", fmt(d.notBefore)), ("not_after", fmt(d.notAfter)),
      ("issued_by_authority_id", d.issuedByAuthorityId), ("issued_at", fmt(d.issuedAt))])
  }

  function RevokeContent(fmt: Formatter, d: RevokeFields): (string, seq<Field>) {
    (REVOKE_HEADER,
     [("directive_id", d.directiveId), ("reason", d.reason), ("revoked_at", fmt(d.revokedAt)),
      ("issued_by_authority_id", d.issuedByAuthorityId)])
  }

  /** A reader of such messages: a header line, then `name=value` lines, each cut at its first `=`. */
  function ReadMessage(message: string): Option<(string, seq<Field>)> {
    var lines := Split(message, '\n');
    if |lines| < 2 || lines[|lines| - 1] != "" then None
    else
      match ReadFields(lines[1..|lines| - 1])
      case Some(fields) => Some((lines[0], fields))
      case None => None
  }

  function ReadFields(lines: seq<string>): Option<seq<Field>> {
    if lines == [] then Some([])
    else
      match (SplitOnce(lines[0], '='), ReadFields(lines[1..]))
      case (Some(f), Some(rest)) => Some([f] + rest)
      case _ => None
  }

  function Written(fields: seq<Field>): (lines: seq<string>)
    ensures |lines| == |fields| && forall i :: 0 <= i < |fields| ==> lines[i] == Line(fields[i].0, fields[i].1)
  {
    seq(|fields|, i requires 0 <= i < |fields| => Line(fields[i].0, fields[i].1))
  }

  ghost predicate NamesOk(fields: seq<Field>) {
    forall i :: 0 <= i < |fields| ==> NameOk(fields[i].0)
  }

  ghost predicate ValuesOk(fields: seq<Field>) {
    forall i :: 0 <= i < |fields| ==> Lacks(fields[i].1, '\n')
  }

  lemma {:induction false} ReadWritten(fields: seq<Field>)
    requires NamesOk(fields)
    ensures ReadFields(Written(fields)) == Some(fields)
  {
    if fields != [] {
      ReadWritten(fields[1..]);
      assert Written(fields)[1..] == Written(fields[1..]);
      SplitOnceAfter(fields[0].0, '=', fields[0].1);
      assert fields == [fields[0]] + fields[1..];
      assert Line(fields[0].0, fields[0].1) == fields[0].0 + ['='] + fields[0].1;
    }
  }

  lemma {:induction false} ReadValuesOk(lines: seq<string>)
    requires forall i :: 0 <= i < |lines| ==> Lacks(lines[i], '\n')
    ensures ReadFields(lines).Some? ==> ValuesOk(ReadFields(lines).value)
  {
    if lines != [] && ReadFields(lines).Some? {
      ReadValuesOk(lines[1..]);
      var f := SplitOnce(lines[0], '=').value;
      assert forall i :: 0 <= i < |f.1| ==> f.1[i] == lines[0][|f.0| + 1 + i];
    }
  }

  /** A message reads back as what it says if and only if no value holds a line feed. */
  lemma ReadsBackExactly(header: string, fields: seq<Field>)
    requires Lacks(header, '\n') && NamesOk(fields)
    ensures ReadMessage(Unlines([header] + Written(fields))) == Some((header, fields)) <==> ValuesOk(fields)
  {
    var lines := [header] + Written(fields);
    var message := Unlines(lines);
    if ValuesOk(fields) {
      SplitUnlines(lines);
      assert (lines + [""])[1..|lines|] == Written(fields);
      ReadWritten(fields);
    }
    if ReadMessage(message) == Some((header, fields)) {
      SplitPieces(message, '\n');
      var pieces := Split(message, '\n');
      ReadValuesOk(pieces[1..|pieces| - 1]);
    }
  }

  lemma ReenrollIsWritten(fmt: Formatter, d: ReenrollFields)
    ensures var (header, fields) := ReenrollContent(fmt, d);
            ReenrollMessage(fmt, d) == Unlines([header] + Written(fields))
  {
    var (header, fields) := ReenrollContent(fmt, d);
    assert [header] + Written(fields) == [header,
      Line("directive_id", d.directiveId), Line("target_node_id", d.targetNodeId),
      Line("new_cp_url", d.newCpUrl), Line("new_authority_id", d.newAuthorityId),
      Line("new_authority_verify_key", d.newAuthorityVerifyKey),
      Line("new_token_ciphertext", d.newTokenCiphertext), Line("new_token_sha256_hex", d.newTokenSha256Hex),
      Line("not_before", fmt(d.notBefore)), Line("not_after", fmt(d.notAfter)),
      Line("issued_by_authority_id", d.issuedByAuthorityId), Line("issued_at", fmt(d.issuedAt))];
  }

  ghost predicate NameOk(name: string) {
    Lacks(name, '=') && Lacks(name, '\n')
  }

  lemma NamesOk1()
    ensures NameOk("directive_id") && NameOk("target_node_id") && NameOk("new_cp_url") && NameOk("issued_at")
  {
  }

  lemma NamesOk2()
    ensures NameOk("new_authority_id") && NameOk("new_authority_verify_key") && NameOk("new_token_ciphertext")
  {
  }

  lemma NamesOk3()
    ensures NameOk("new_token_sha256_hex") && NameOk("issued_by_authority_id") && NameOk("not_before")
  {
  }

  lemma NamesOk4()
    ensures NameOk("not_after") && NameOk("reason") && NameOk("revoked_at")
    ensures Lacks(REENROLL_HEADER, '\n') && Lacks(REVOKE_HEADER, '\n')
  {
  }

  lemma RevokeIsWritten(fmt: Formatter, d: RevokeFields)
    ensures var (header, fields) := RevokeContent(fmt, d);
            RevokeMessage(fmt, d) == Unlines([header] + Written(fields))
  {
    var (header, fields) := RevokeContent(fmt, d);
    assert [header] + Written(fields) == [header, Line("directive_id", d.directiveId), Line("reason", d.reason),
      Line("revoked_at", fmt(d.revokedAt)), Line("issued_by_authority_id", d.issuedByAuthorityId)];
  }

  /** The signed re-enroll text says exactly its fields, each under its own name, if and only if they are LF-free. */
  lemma ReenrollReadsBackExactly(fmt: Formatter, d: ReenrollFields)
    ensures ReadMessage(ReenrollMessage(fmt, d)) == Some(ReenrollContent(fmt, d))
            <==> ValuesOk(ReenrollContent(fmt, d).1)
  {
    ReenrollIsWritten(fmt, d);
    NamesOk1();
    NamesOk2();
    NamesOk3();
    NamesOk4();
    ReadsBackExactly(ReenrollContent(fmt, d).0, ReenrollContent(fmt, d).1);
  }

  lemma RevokeReadsBackExactly(fmt: Formatter, d: RevokeFields)
    ensures ReadMessage(RevokeMessage(fmt, d)) == Some(RevokeContent(fmt, d)) <==> ValuesOk(RevokeContent(fmt, d).1)
  {
    RevokeIsWritten(fmt, d);
    NamesOk1();
    NamesOk3();
    NamesOk4();
    ReadsBackExactly(RevokeContent(fmt, d).0, RevokeContent(fmt, d).1);
  }

  /** Two LF-free re-enroll directives with one message agree on every field, times to the second. */
  lemma ReenrollInjective(fmt: Formatter, a: ReenrollFields, b: ReenrollFields)
    requires FormatsSeconds(fmt) && ReenrollMessage(fmt, a) == ReenrollMessage(fmt, b)
    requires ValuesOk(ReenrollContent(fmt, a).1) && ValuesOk(ReenrollContent(fmt, b).1)
    ensures a == b.(notBefore := a.notBefore, notAfter := a.notAfter, issuedAt := a.issuedAt)
    ensures a.notBefore / SECOND == b.notBefore / SECOND && a.notAfter / SECOND == b.notAfter / SECOND
    ensures a.issuedAt / SECOND == b.issuedAt / SECOND
  {
    ReenrollReadsBackExactly(fmt, a);
    ReenrollReadsBackExactly(fmt, b);
    var x, y := ReenrollContent(fmt, a).1, ReenrollContent(fmt, b).1;
    assert x == y;
    assert forall i :: 0 <= i < 11 ==> x[i].1 == y[i].1;
    assert x[0].1 == y[0].1 && x[1].1 == y[1].1 && x[2].1 == y[2].1 && x[3].1 == y[3].1 && x[4].1 == y[4].1;
    assert x[5].1 == y[5].1 && x[6].1 == y[6].1 && x[7].1 == y[7].1 && x[8].1 == y[8].1 && x[9].1 == y[9].1;
    assert x[10].1 == y[10].1;
  }

  lemma RevokeInjective(fmt: Formatter, a: RevokeFields, b: RevokeFields)
    requires FormatsSeconds(fmt) && RevokeMessage(fmt, a) == RevokeMessage(fmt, b)
    requires ValuesOk(RevokeContent(fmt, a).1) && ValuesOk(RevokeContent(fmt, b).1)
    ensures a == b.(revokedAt := a.revokedAt) && a.revokedAt / SECOND == b.revokedAt / SECOND
  {
    RevokeReadsBackExactly(fmt, a);
    RevokeReadsBackExactly(fmt, b);
    var x, y := RevokeContent(fmt, a).1, RevokeContent(fmt, b).1;
    assert x[0].1 == y[0].1 && x[1].1 == y[1].1 && x[2].1 == y[2].1 && x[3].1 == y[3].1;
  }

  /** No text is signed both as a re-enroll and as a revoke, whatever the fields hold. */
  lemma KindsDisjoint(fmt: Formatter, a: ReenrollFields, b: RevokeFields)
    ensures ReenrollMessage(fmt, a) != RevokeMessage(fmt, b)
  {
    assert REENROLL_HEADER[28] == '_' && REVOKE_HEADER[28] == 'v';
    assert ReenrollMessage(fmt, a)[28] == REENROLL_HEADER[28];
    assert RevokeMessage(fmt, b)[28] == REVOKE_HEADER[28];
  }

  /** Without the LF-free condition the revoke message is not injective. */
  lemma LineFeedsCollide(fmt: Formatter, t: Instant)
    ensures RevokeMessage(fmt, RevokeFields("a", "b\nreason=c", t, "")) ==
            RevokeMessage(fmt, RevokeFields("a\nreason=b", "c", t, ""))
  {
    hide Unlines, Line, REVOKE_HEADER;
    CollidingLines();
    var ra, ib := Line("revoked_at", fmt(t)), Line("issued_by_authority_id", "");
    FiveLines(REVOKE_HEADER, Line("directive_id", "a"), Line("reason", "b\nreason=c"), ra, ib);
    FiveLines(REVOKE_HEADER, Line("directive_id", "a\nreason=b"), Line("reason", "c"), ra, ib);
    var a, b, c, rest := Line("directive_id", "a"), Line("reason", "b"), Line("reason", "c"), Unlines([ra, ib]);
    assert a + "\n" + ((b + "\n" + c) + "\n" + rest) == (a + "\n" + b) + "\n" + (c + "\n" + rest);
  }

  lemma CollidingLines()
    ensures Line("reason", "b\nreason=c") == Line("reason", "b") + "\n" + Line("reason", "c")
    ensures Line("directive_id", "a\nreason=b") == Line("directive_id", "a") + "\n" + Line("reason", "b")
  {
  }

  lemma FiveLines(h: string, a: string, b: string, c: string, d: string)
    ensures Unlines([h, a, b, c, d]) == h + "\n" + (a + "\n" + (b + "\n" + Unlines([c, d])))
  {
    assert [b, c, d][1..] == [c, d];
    assert Unlines([b, c, d]) == b + "\n" + Unlines([c, d]);
    assert [a, b, c, d][1..] == [b, c, d];
    assert Unlines([a, b, c, d]) == a + "\n" + Unlines([b, c, d]);
    assert [h, a, b, c, d][1..] == [a, b, c, d];
  }
}
