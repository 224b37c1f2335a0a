/** What the checks on a directive come to, written out from the directive and the environment themselves. */
module DirectiveChecks {
  import opened Wrappers
  import opened Text
  import opened OrderedMap
  import opened EnvFile
  import opened EnvRewrite
  import opened DirectivesWire
  import opened Directives

  /** A variable of the environment holds this text, blanks around it aside. */
  predicate SetTo(w: World, name: string, value: string) {
    w.env(name).Some? && Trim(w.env(name).value) == value && value != ""
  }

  /** It holds none, or only blanks. */
  predicate Unset(w: World, name: string) {
    w.env(name).None? || Trim(w.env(name).value) == ""
  }

  // ---- The keys

  ghost predicate AuthorityKey(w: World, key: Bytes) {
    exists text :: SetTo(w, "PARTON_AUTHORITY_VERIFY_KEY", text) && w.crypto.verifyingKey(text) == Some(key)
  }

  /** A path is told by its variable, or else lies below the home directory. */
  predicate PathTold(w: World, name: string) {
    Unset(w, name) ==> w.env("HOME").Some?
  }

  /** The authority's key from the environment, and the agent's own from the identity file. */
  ghost predicate HasKeys(w: World, keys: Keys) {
    && AuthorityKey(w, keys.verifying) && PathTold(w, "PARTON_IDENTITY_PATH")
    && w.identity.Some? && w.crypto.boxSecret(w.identity.value) == Some(keys.box)
  }

  /** Why a batch has no keys. */
  ghost predicate KeysMissing(w: World, e: DirectiveError) {
    match e
    case MissingAuthorityVerifyKey => Unset(w, "PARTON_AUTHORITY_VERIFY_KEY")
    case InvalidVerifyKey =>
      exists text :: SetTo(w, "PARTON_AUTHORITY_VERIFY_KEY", text) && w.crypto.verifyingKey(text).None?
    case MissingHome => (exists key :: AuthorityKey(w, key)) && !PathTold(w, "PARTON_IDENTITY_PATH")
    case IdentityUnreadable =>
      (exists key :: AuthorityKey(w, key)) && PathTold(w, "PARTON_IDENTITY_PATH") && w.identity.None?
    case InvalidIdentity =>
      && (exists key :: AuthorityKey(w, key)) && PathTold(w, "PARTON_IDENTITY_PATH")
      && w.identity.Some? && w.crypto.boxSecret(w.identity.value).None?
    case _ => false
  }

  /** A batch has its keys, or lacks them for a cause, exactly then. */
  lemma SetupExactly(w: World, keys: Keys, e: DirectiveError)
    ensures Setup(w) == Ok(keys) <==> HasKeys(w, keys)
    ensures Setup(w) == Err(e) <==> KeysMissing(w, e)
  {
    hide Trim;
    var text := TrimmedVar(w, AUTHORITY_VERIFY_KEY);
    assert text != "" ==> SetTo(w, "PARTON_AUTHORITY_VERIFY_KEY", text);
    assert text != "" && w.crypto.verifyingKey(text).Some? ==> AuthorityKey(w, w.crypto.verifyingKey(text).value);
  }

  // ---- Re-enroll

  /** The text that an authority signs for a node to be re-enrolled with a token. */
  function ReenrollText(w: World, d: Directive, node: string, wire: Bytes): string
    requires d.ReEnroll?
  {
    Unlines(["pion_handoff_directive/v1/re_enroll",
             "directive_id" + "=" + d.directiveId,
             "target_node_id" + "=" + node,
             "new_cp_url" + "=" + d.newCpUrl,
             "new_authority_id" + "=" + d.newAuthorityId,
             "new_authority_verify_key" + "=" + d.newAuthorityVerifyKey,
             "new_token_ciphertext" + "=" + Trim(d.newTokenCiphertext),
             "new_token_sha256_hex" + "=" + w.crypto.sha256Hex(wire),
             "not_before" + "=" + w.fmt(d.notBefore),
             "not_after" + "=" + w.fmt(d.notAfter),
             "issued_by_authority_id" + "=" + d.issuedByAuthorityId,
             "issued_at" + "=" + w.fmt(d.issuedAt)])
  }

  /** What that text tells. */
  function ReenrollSays(w: World, d: Directive, node: string, wire: Bytes): seq<Field>
    requires d.ReEnroll?
  {
    [("directive_id", d.directiveId), ("target_node_id", node), ("new_cp_url", d.newCpUrl),
     ("new_authority_id", d.newAuthorityId), ("new_authority_verify_key", d.newAuthorityVerifyKey),
     ("new_token_ciphertext", Trim(d.newTokenCiphertext)), ("new_token_sha256_hex", w.crypto.sha256Hex(wire)),
     ("not_before", w.fmt(d.notBefore)), ("not_after", w.fmt(d.notAfter)),
     ("issued_by_authority_id", d.issuedByAuthorityId), ("issued_at", w.fmt(d.issuedAt))]
  }

  /** The token that a directive carries for the holder of the keys. */
  predicate Opens(w: World, keys: Keys, d: Directive, wire: Bytes)
    requires d.ReEnroll?
  {
    var ciphertext := w.crypto.decode(Trim(d.newTokenCiphertext));
    ciphertext.Some? && w.crypto.unseal(keys.box, ciphertext.value) == Some(wire)
  }

  /** A directive in its window, for this node, with a token for it, under the authority's signature. */
  ghost predicate Authorised(w: World, keys: Keys, i: nat, d: Directive, node: string, wire: Bytes)
    requires d.ReEnroll?
  {
    && d.notBefore <= w.clock(i) <= d.notAfter && SetTo(w, "PARTON_NODE_ID", node) && Opens(w, keys, d, wire)
    && w.crypto.verify(keys.verifying, ReenrollText(w, d, node, wire), d.signature)
  }

  /** What is then carried out. */
  ghost predicate AsksFor(w: World, i: nat, d: Directive, wire: Bytes, o: Order)
    requires d.ReEnroll?
  {
    && o.url == d.newCpUrl && o.key == d.newAuthorityVerifyKey && o.token == w.crypto.encode(wire)
    && (o.pathKnown <==> PathTold(w, "PARTON_ENV_PATH"))
    && o.firstReadOk == w.firstReadOk(i) && o.faults == w.faults(i)
  }

  lemma SignedText(w: World, d: Directive, wire: Bytes)
    requires d.ReEnroll?
    ensures ReenrollMessage(w.fmt, SignedFields(w, d, wire)) == ReenrollText(w, d, TrimmedVar(w, NODE_ID), wire)
  {
    hide Unlines, Trim, TrimmedVar, NODE_ID;
  }

  lemma NodeIdSet(w: World, node: string)
    ensures SetTo(w, "PARTON_NODE_ID", node) <==> node == TrimmedVar(w, NODE_ID) != ""
  {
    hide Trim;
  }

  lemma OrderAsks(w: World, i: nat, d: Directive, wire: Bytes, o: Order)
    requires d.ReEnroll?
    ensures o == OrderFor(w, i, d, wire) <==> AsksFor(w, i, d, wire, o)
  {
    hide Trim;
  }

  /** A re-enroll is accepted if and only if it is authorised, and is then what it says. */
  lemma AcceptedExactly(w: World, keys: Keys, i: nat, d: Directive, o: Order)
    requires d.ReEnroll?
    ensures Check(w, keys, i, d) == Accept(o) <==>
            exists node, wire :: Authorised(w, keys, i, d, node, wire) && AsksFor(w, i, d, wire, o)
  {
    hide ReenrollText, ReenrollMessage, SignedFields, OrderFor, AsksFor, SetTo, TrimmedVar, Trim;
    var node := TrimmedVar(w, NODE_ID);
    forall node' { NodeIdSet(w, node'); }
    forall wire { SignedText(w, d, wire); }
    forall wire { OrderAsks(w, i, d, wire, o); }
    if Check(w, keys, i, d) == Accept(o) {
      var wire := w.crypto.unseal(keys.box, w.crypto.decode(Trim(d.newTokenCiphertext)).value).value;
      assert Authorised(w, keys, i, d, node, wire);
    }
  }

  /** Why a re-enroll in its window is an error; with no such cause and no signature it is skipped. */
  predicate CannotOpen(w: World, keys: Keys, d: Directive, e: DirectiveError)
    requires d.ReEnroll?
  {
    var ciphertext := w.crypto.decode(Trim(d.newTokenCiphertext));
    match e
    case MissingNodeId => Unset(w, "PARTON_NODE_ID")
    case InvalidCiphertext => !Unset(w, "PARTON_NODE_ID") && ciphertext.None?
    case UnsealFailed =>
      !Unset(w, "PARTON_NODE_ID") && ciphertext.Some? && w.crypto.unseal(keys.box, ciphertext.value).None?
    case _ => false
  }

  lemma RefusedExactly(w: World, keys: Keys, i: nat, d: Directive, e: DirectiveError)
    ensures Check(w, keys, i, d) == Fail(e) <==>
            d.ReEnroll? && d.notBefore <= w.clock(i) <= d.notAfter && CannotOpen(w, keys, d, e)
  {
    hide ReenrollMessage, RevokeMessage, SignedFields, OrderFor, Trim;
  }

  /** The text it was checked against says the directive, field by field, if and only if no field holds a line feed. */
  lemma SignedTextSays(w: World, d: Directive, node: string, wire: Bytes)
    requires d.ReEnroll?
    ensures ReadMessage(ReenrollText(w, d, node, wire))
            == Some(("pion_handoff_directive/v1/re_enroll", ReenrollSays(w, d, node, wire)))
            <==> ValuesOk(ReenrollSays(w, d, node, wire))
  {
    hide ReadMessage, ValuesOk, Unlines, Trim;
    var fields := ReenrollFields(d.directiveId, node, d.newCpUrl, d.newAuthorityId, d.newAuthorityVerifyKey,
                                 Trim(d.newTokenCiphertext), w.crypto.sha256Hex(wire), d.notBefore, d.notAfter,
                                 d.issuedByAuthorityId, d.issuedAt);
    ReenrollReadsBackExactly(w.fmt, fields);
  }

  // ---- Revoke

  /** A revoke under the authority's signature. */
  predicate VerifiedRevoke(w: World, keys: Keys, d: Directive) {
    d.Revoke? && w.crypto.verify(keys.verifying, RevokeText(w, d), d.signature)
  }

  function RevokeText(w: World, d: Directive): string
    requires d.Revoke?
  {
    Unlines(["pion_handoff_directive/v1/revoke",
             "directive_id" + "=" + d.directiveId,
             "reason" + "=" + d.reason,
             "revoked_at" + "=" + w.fmt(d.revokedAt),
             "issued_by_authority_id" + "=" + d.issuedByAuthorityId])
  }

  lemma RevokedExactly(w: World, keys: Keys, i: nat, d: Directive)
    ensures Check(w, keys, i, d) == Revoked <==> VerifiedRevoke(w, keys, d)
  {
    hide Unlines, ReenrollMessage, SignedFields, OrderFor, TrimmedVar, Trim;
  }

  ghost predicate SomeVerifiedRevoke(w: World, keys: Keys, ds: seq<Directive>) {
    exists i :: 0 <= i < |ds| && VerifiedRevoke(w, keys, ds[i])
  }

  /** A batch that goes through reports a revoke if and only if one of its revokes verifies, wherever it stands. */
  lemma RevokeReportedExactly(w: World, keys: Keys, ds: seq<Directive>, disk: Disk)
    requires ds != [] && HasKeys(w, keys) && Apply(w, ds, disk).error.None?
    ensures Apply(w, ds, disk).out.revokeExit <==> SomeVerifiedRevoke(w, keys, ds)
  {
    hide HasKeys, Apply, Check, Setup, VerifiedRevoke, NoneFails, Orders, Rewrites, AllExecutable, Summary;
    SetupExactly(w, keys, MissingHome);
    ApplyIsFold(w, ds, disk);
    var vs := Verdicts(w, keys, ds);
    forall i | 0 <= i < |ds| ensures vs[i].Revoked? <==> VerifiedRevoke(w, keys, ds[i]) {
      RevokedExactly(w, keys, i, ds[i]);
    }
  }

  // ---- What a carried-out re-enroll reports

  lemma TokenKey()
    ensures forall es, url, key, token :: Expected(es, url, key, token, "PARTON_ENROLLMENT_TOKEN") == Some(token)
  {
    KeysDistinct();
  }

  /**
   * The previous endpoint and token are those of the file as it was, the shared token before the enrollment token;
   * the token to report is the one that the file now holds, if it fits a line.
   */
  lemma ReportedExactly(o: Order, b: Batch)
    requires b.error.None? && Enroll(o, b).error.None?
    ensures var es := Parse(b.disk.target.value.text); var out := Enroll(o, b).out;
            && b.disk.target.Some? && Enroll(o, b).disk.target.Some?
            && out.prevEndpoint == Get(es, "PARTON_HEARTBEAT_URL")
            && (Get(es, "PARTON_SHARED_TOKEN").Some? ==> out.prevToken == Get(es, "PARTON_SHARED_TOKEN"))
            && (Get(es, "PARTON_SHARED_TOKEN").None? ==> out.prevToken == Get(es, "PARTON_ENROLLMENT_TOKEN"))
            && out.nextAppliedToken == Some(o.token) && out.revokeExit == b.out.revokeExit
            && (OneLine(o.token) && Lacks(HeartbeatUrl(o.url), '\n') && Lacks(Trim(o.key), '\n') ==>
                  Get(Parse(Enroll(o, b).disk.target.value.text), "PARTON_ENROLLMENT_TOKEN") == out.nextAppliedToken)
  {
    TokenKey();
    hide Parse, Get, Updated, Render, Trim, HeartbeatUrl, NodeIdOf, Lacks, OneLine, Expected;
    var body := b.disk.target.value.text;
    if OneLine(o.token) {
      RereadExactly(body, o.url, o.key, o.token);
    }
  }
}
