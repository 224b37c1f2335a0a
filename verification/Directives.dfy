/** Applying a batch of signed directives to the agent's local state. */
module Directives {
  import opened Wrappers
  import opened Text
  import opened OrderedMap
  import opened EnvFile
  import opened EnvRewrite
  import opened DirectivesWire

  type Bytes = seq<bv8>

  /** The cryptographic and base64 calls, any functions of these shapes. */
  datatype Crypto = Crypto(
    verifyingKey: string -> Option<Bytes>,
    boxSecret: string -> Option<Bytes>,
    decode: string -> Option<Bytes>,
    encode: Bytes -> string,
    unseal: (Bytes, Bytes) -> Option<Bytes>,
    sha256Hex: Bytes -> string,
    verify: (Bytes, string, string) -> bool)

  /**
   * What a batch meets: the process environment and the identity file, neither of which it changes,
   * and for the directive at each position the clock reading and the file-system faults.
   */
  datatype World = World(crypto: Crypto, fmt: Formatter, env: string -> Option<string>, identity: Option<string>,
                         clock: nat -> Instant, firstReadOk: nat -> bool, faults: nat -> Faults)

  datatype Directive =
    | ReEnroll(directiveId: string, newCpUrl: string, newAuthorityId: string, newAuthorityVerifyKey: string,
               newTokenCiphertext: string, notBefore: Instant, notAfter: Instant, issuedByAuthorityId: string,
               issuedAt: Instant, signature: string)
    | Revoke(directiveId: string, reason: string, revokedAt: Instant, issuedByAuthorityId: string,
             signature: string)

  datatype DirectiveError =
    | MissingAuthorityVerifyKey | InvalidVerifyKey | MissingHome | IdentityUnreadable | InvalidIdentity
    | MissingNodeId | InvalidCiphertext | UnsealFailed | RewriteFailed(error: RewriteError)

  /** `DirectiveApplyOutcome`. */
  datatype ApplyOutcome = ApplyOutcome(nextAppliedToken: Option<string>, revokeExit: bool,
                                       prevEndpoint: Option<string>, prevToken: Option<string>)

  const NOTHING_APPLIED := ApplyOutcome(None, false, None, None)

  datatype Keys = Keys(verifying: Bytes, box: Bytes)

  function TrimmedVar(w: World, name: string): string {
    match w.env(name)
    case Some(v) => Trim(v)
    case None => ""
  }

  predicate PathKnown(w: World, name: string) {
    TrimmedVar(w, name) != "" || w.env("HOME").Some?
  }

  /** The keys of the batch: read once from the process environment and the identity file. */
  function Setup(w: World): Result<Keys, DirectiveError> {
    var vkText := TrimmedVar(w, AUTHORITY_VERIFY_KEY);
    if vkText == "" then Err(MissingAuthorityVerifyKey)
    else if w.crypto.verifyingKey(vkText).None? then Err(InvalidVerifyKey)
    else if !PathKnown(w, "PARTON_IDENTITY_PATH") then Err(MissingHome)
    else if w.identity.None? then Err(IdentityUnreadable)
    else if w.crypto.boxSecret(w.identity.value).None? then Err(InvalidIdentity)
    else Ok(Keys(w.crypto.verifyingKey(vkText).value, w.crypto.boxSecret(w.identity.value).value))
  }

  /** What an accepted re-enroll asks for, and what it will meet on the file system. */
  datatype Order = Order(url: string, key: string, token: string, pathKnown: bool, firstReadOk: bool, faults: Faults)

  /** What the checks on one directive conclude; none of them looks at the env file. */
  datatype Verdict = Skip | Fail(error: DirectiveError) | Revoked | Accept(order: Order)

  function SignedFields(w: World, d: Directive, wire: Bytes): ReenrollFields
    requires d.ReEnroll?
  {
    ReenrollFields(d.directiveId, TrimmedVar(w, NODE_ID), d.newCpUrl, d.newAuthorityId, d.newAuthorityVerifyKey,
                   Trim(d.newTokenCiphertext), w.crypto.sha256Hex(wire), d.notBefore, d.notAfter,
                   d.issuedByAuthorityId, d.issuedAt)
  }

  function OrderFor(w: World, i: nat, d: Directive, wire: Bytes): Order
    requires d.ReEnroll?
  {
    Order(d.newCpUrl, d.newAuthorityVerifyKey, w.crypto.encode(wire), PathKnown(w, "PARTON_ENV_PATH"),
          w.firstReadOk(i), w.faults(i))
  }

  /** The checks on a directive, in their order: decryption comes before the signature. */
  function Check(w: World, keys: Keys, i: nat, d: Directive): Verdict {
    if d.Revoke? then
      var fields := RevokeFields(d.directiveId, d.reason, d.revokedAt, d.issuedByAuthorityId);
      if w.crypto.verify(keys.verifying, RevokeMessage(w.fmt, fields), d.signature) then Revoked else Skip
    else if w.clock(i) < d.notBefore || w.clock(i) > d.notAfter then Skip
    else if TrimmedVar(w, NODE_ID) == "" then Fail(MissingNodeId)
    else
      match w.crypto.decode(Trim(d.newTokenCiphertext))
      case None => Fail(InvalidCiphertext)
      case Some(ciphertext) =>
        match w.crypto.unseal(keys.box, ciphertext)
        case None => Fail(UnsealFailed)
        case Some(wire) =>
          if w.crypto.verify(keys.verifying, ReenrollMessage(w.fmt, SignedFields(w, d, wire)), d.signature)
          then Accept(OrderFor(w, i, d, wire)) else Skip
  }

  /**
   * A re-enroll that no authority signed is skipped, as documented, only when the code reaches the
   * signature or the validity window excludes it. Otherwise it is an error, and ends the whole batch.
   */
  lemma UnsignedSkippedExactly(w: World, keys: Keys, i: nat, d: Directive)
    requires d.ReEnroll?
    requires forall wire ::
               !w.crypto.verify(keys.verifying, ReenrollMessage(w.fmt, SignedFields(w, d, wire)), d.signature)
    ensures Check(w, keys, i, d) == Skip <==>
            || !(d.notBefore <= w.clock(i) <= d.notAfter)
            || (TrimmedVar(w, NODE_ID) != "" && w.crypto.decode(Trim(d.newTokenCiphertext)).Some?
                && w.crypto.unseal(keys.box, w.crypto.decode(Trim(d.newTokenCiphertext)).value).Some?)
    ensures Check(w, keys, i, d) == Skip || Check(w, keys, i, d).Fail?
  {
    hide ReenrollMessage, SignedFields, OrderFor, TrimmedVar, Trim;
  }

  function Verdicts(w: World, keys: Keys, ds: seq<Directive>): (vs: seq<Verdict>)
    ensures |vs| == |ds| && forall i :: 0 <= i < |ds| ==> vs[i] == Check(w, keys, i, ds[i])
  {
    seq(|ds|, i requires 0 <= i < |ds| => Check(w, keys, i, ds[i]))
  }

  function PrevEndpoint(body: string): Option<string> {
    Get(Parse(body), HEARTBEAT_URL)
  }

  function PrevToken(body: string): Option<string> {
    var shared := Get(Parse(body), SHARED_TOKEN);
    if shared.Some? then shared else Get(Parse(body), ENROLLMENT_TOKEN)
  }

  /** The outcome so far, the disk, and the error that ended the batch. */
  datatype Batch = Batch(out: ApplyOutcome, disk: Disk, error: Option<DirectiveError>)

  /** Carrying out an accepted re-enroll. */
  function Enroll(o: Order, b: Batch): Batch {
    if !o.pathKnown then b.(error := Some(MissingHome))
    else
      match Readable(b.disk, o.firstReadOk)
      case None => b.(error := Some(RewriteFailed(EnvUnreadable)))
      case Some(body) =>
        var out := b.out.(prevEndpoint := PrevEndpoint(body), prevToken := PrevToken(body));
        var r := Rewrite(b.disk, o.url, o.key, o.token, o.faults);
        var disk := Last(b.disk, r.steps);
        if r.error.Some? then Batch(out, disk, Some(RewriteFailed(r.error.value)))
        else Batch(out.(nextAppliedToken := Some(o.token)), disk, None)
  }

  /** The disk states that carrying out an order goes through. */
  function OrderSteps(o: Order, disk: Disk): seq<Disk> {
    if !o.pathKnown || Readable(disk, o.firstReadOk).None? then []
    else Rewrite(disk, o.url, o.key, o.token, o.faults).steps
  }

  function Act(v: Verdict, b: Batch): Batch {
    match v
    case Skip => b
    case Fail(e) => b.(error := Some(e))
    case Revoked => b.(out := b.out.(revokeExit := true))
    case Accept(order) => Enroll(order, b)
  }

  /** A batch of verdicts, acted on up to the first error. */
  function ActAll(vs: seq<Verdict>, disk: Disk): Batch {
    if vs == [] then Batch(NOTHING_APPLIED, disk, None)
    else
      var b := ActAll(vs[..|vs| - 1], disk);
      if b.error.Some? then b else Act(vs[|vs| - 1], b)
  }

  function VerdictSteps(v: Verdict, disk: Disk): seq<Disk> {
    match v
    case Accept(order) => OrderSteps(order, disk)
    case _ => []
  }

  /** The disk states that a batch goes through. */
  function BatchTrail(vs: seq<Verdict>, disk: Disk): seq<Disk> {
    if vs == [] then []
    else
      var init := vs[..|vs| - 1];
      var b := ActAll(init, disk);
      BatchTrail(init, disk) + if b.error.Some? then [] else VerdictSteps(vs[|vs| - 1], b.disk)
  }

  /** What `apply_directives` does: nothing for an empty batch, else setup, then the batch. */
  function Apply(w: World, ds: seq<Directive>, disk: Disk): Batch {
    if ds == [] then Batch(NOTHING_APPLIED, disk, None)
    else
      match Setup(w)
      case Err(e) => Batch(NOTHING_APPLIED, disk, Some(e))
      case Ok(keys) => ActAll(Verdicts(w, keys, ds), disk)
  }

  function ApplyTrail(w: World, ds: seq<Directive>, disk: Disk): seq<Disk> {
    if ds == [] || Setup(w).Err? then [] else BatchTrail(Verdicts(w, Setup(w).value, ds), disk)
  }

  lemma EmptyBatch(w: World, disk: Disk)
    ensures Apply(w, [], disk) == Batch(NOTHING_APPLIED, disk, None)
  {
  }

  function Returned(b: Batch): Result<ApplyOutcome, DirectiveError> {
    if b.error.Some? then Err(b.error.value) else Ok(b.out)
  }

  /** `apply_reenroll_directive`. */
  method ApplyReenrollDirective(w: World, keys: Keys, i: nat, d: Directive, dir: EnvDir, before: ApplyOutcome)
    returns (out: ApplyOutcome, error: Option<DirectiveError>)
    requires d.ReEnroll?
    modifies dir
    ensures Batch(out, dir.disk, error) == Act(Check(w, keys, i, d), Batch(before, old(dir.disk), None))
    ensures dir.trail == old(dir.trail) + VerdictSteps(Check(w, keys, i, d), old(dir.disk))
  {
    hide Enroll, OrderSteps, Setup, ReenrollMessage, Trim, SignedFields, OrderFor, TrimmedVar;
    out := before;
    var now := w.clock(i);
    if now < d.notBefore || now > d.notAfter { return out, None; }
    if TrimmedVar(w, NODE_ID) == "" { return out, Some(MissingNodeId); }
    var ciphertext := w.crypto.decode(Trim(d.newTokenCiphertext));
    if ciphertext.None? { return out, Some(InvalidCiphertext); }
    var wire := w.crypto.unseal(keys.box, ciphertext.value);
    if wire.None? { return out, Some(UnsealFailed); }
    var message := ReenrollMessage(w.fmt, SignedFields(w, d, wire.value));
    if !w.crypto.verify(keys.verifying, message, d.signature) { return out, None; }
    out, error := EnrollDirective(OrderFor(w, i, d, wire.value), dir, out);
  }

  /** The second half of `apply_reenroll_directive`: the file work. */
  method EnrollDirective(o: Order, dir: EnvDir, before: ApplyOutcome)
    returns (out: ApplyOutcome, error: Option<DirectiveError>)
    modifies dir
    ensures Batch(out, dir.disk, error) == Enroll(o, Batch(before, old(dir.disk), None))
    ensures dir.trail == old(dir.trail) + OrderSteps(o, old(dir.disk))
  {
    out := before;
    if !o.pathKnown { return out, Some(MissingHome); }
    var body := dir.Read(o.firstReadOk);
    if body.None? { return out, Some(RewriteFailed(EnvUnreadable)); }
    var mapBefore := ParseEnvFile(body.value);
    var shared := Get(mapBefore, SHARED_TOKEN);
    out := out.(prevEndpoint := Get(mapBefore, HEARTBEAT_URL),
                prevToken := if shared.Some? then shared else Get(mapBefore, ENROLLMENT_TOKEN));
    var failed := dir.ApplyReenrollEnv(o.url, o.key, o.token, o.faults);
    if failed.Some? { return out, Some(RewriteFailed(failed.value)); }
    return out.(nextAppliedToken := Some(o.token)), None;
  }

  /** `apply_revoke_directive`. */
  method ApplyRevokeDirective(w: World, keys: Keys, i: nat, d: Directive, before: ApplyOutcome)
    returns (out: ApplyOutcome)
    requires d.Revoke?
    ensures out == if Check(w, keys, i, d).Revoked? then before.(revokeExit := true) else before
    ensures !Check(w, keys, i, d).Fail? && !Check(w, keys, i, d).Accept?
  {
    out := before;
    var message := RevokeMessage(w.fmt, RevokeFields(d.directiveId, d.reason, d.revokedAt, d.issuedByAuthorityId));
    if w.crypto.verify(keys.verifying, message, d.signature) {
      out := out.(revokeExit := true);
    }
  }

  lemma RevokeLeaves(w: World, keys: Keys, i: nat, d: Directive, disk: Disk)
    ensures d.Revoke? ==> VerdictSteps(Check(w, keys, i, d), disk) == []
    ensures d.Revoke? ==> forall out ::
              Act(Check(w, keys, i, d), Batch(out, disk, None))
              == Batch(if Check(w, keys, i, d).Revoked? then out.(revokeExit := true) else out, disk, None)
  {
    hide Enroll;
  }

  lemma BatchStep(vs: seq<Verdict>, i: nat, disk: Disk)
    requires i < |vs| && ActAll(vs[..i], disk).error.None?
    ensures ActAll(vs[..i + 1], disk) == Act(vs[i], ActAll(vs[..i], disk))
    ensures BatchTrail(vs[..i + 1], disk)
         == BatchTrail(vs[..i], disk) + VerdictSteps(vs[i], ActAll(vs[..i], disk).disk)
  {
    hide Act, VerdictSteps;
    assert vs[..i + 1][..i] == vs[..i];
  }

  lemma NothingActed(vs: seq<Verdict>, disk: Disk)
    ensures ActAll(vs[..0], disk) == Batch(NOTHING_APPLIED, disk, None) && BatchTrail(vs[..0], disk) == []
  {
  }

  /** `apply_directives`. */
  method ApplyDirectives(w: World, ds: seq<Directive>, dir: EnvDir) returns (r: Result<ApplyOutcome, DirectiveError>)
    modifies dir
    ensures r == Returned(Apply(w, ds, old(dir.disk))) && dir.disk == Apply(w, ds, old(dir.disk)).disk
    ensures dir.trail == old(dir.trail) + ApplyTrail(w, ds, old(dir.disk))
  {
    hide Check, Act, VerdictSteps, Setup, ActAll, BatchTrail;
    var out := NOTHING_APPLIED;
    if ds == [] { return Ok(out); }
    var setup := Setup(w);
    if setup.Err? { return Err(setup.error); }
    var keys := setup.value;
    ghost var vs := Verdicts(w, keys, ds);
    NothingActed(vs, dir.disk);
    for i := 0 to |ds|
      invariant ActAll(vs[..i], old(dir.disk)) == Batch(out, dir.disk, None)
      invariant dir.trail == old(dir.trail) + BatchTrail(vs[..i], old(dir.disk))
    {
      BatchStep(vs, i, old(dir.disk));
      RevokeLeaves(w, keys, i, ds[i], dir.disk);
      if ds[i].ReEnroll? {
        var error;
        out, error := ApplyReenrollDirective(w, keys, i, ds[i], dir, out);
        if error.Some? {
          FirstErrorStays(vs, i + 1, old(dir.disk));
          return Err(error.value);
        }
      } else {
        out := ApplyRevokeDirective(w, keys, i, ds[i], out);
      }
    }
    assert vs[..|ds|] == vs;
    return Ok(out);
  }

  lemma {:induction false} FirstErrorStays(vs: seq<Verdict>, n: nat, disk: Disk)
    requires n <= |vs| && ActAll(vs[..n], disk).error.Some?
    ensures ActAll(vs, disk) == ActAll(vs[..n], disk) && BatchTrail(vs, disk) == BatchTrail(vs[..n], disk)
    decreases |vs|
  {
    if n == |vs| {
      assert vs[..n] == vs;
    } else {
      assert vs[..|vs| - 1][..n] == vs[..n];
      FirstErrorStays(vs[..|vs| - 1], n, disk);
    }
  }

  // ---- A batch is the fold of its accepted re-enrolls

  function Orders(vs: seq<Verdict>): seq<Order> {
    if vs == [] then []
    else
      var rest := Orders(vs[..|vs| - 1]);
      match vs[|vs| - 1]
      case Accept(order) => rest + [order]
      case _ => rest
  }

  /** Carrying out rewrites one after the other. */
  function Rewrites(orders: seq<Order>, disk: Disk): Disk {
    if orders == [] then disk
    else
      var before := Rewrites(orders[..|orders| - 1], disk);
      var o := orders[|orders| - 1];
      Last(before, Rewrite(before, o.url, o.key, o.token, o.faults).steps)
  }

  function TextOf(disk: Disk): string {
    if disk.target.Some? then disk.target.value.text else ""
  }

  /** What the caller is told about the accepted re-enrolls: the last of them counts. */
  function Summary(orders: seq<Order>, disk: Disk): ApplyOutcome {
    if orders == [] then NOTHING_APPLIED
    else
      var before := TextOf(Rewrites(orders[..|orders| - 1], disk));
      ApplyOutcome(Some(orders[|orders| - 1].token), false, PrevEndpoint(before), PrevToken(before))
  }

  ghost predicate AnyRevoked(vs: seq<Verdict>) {
    exists i :: 0 <= i < |vs| && vs[i].Revoked?
  }

  lemma AnyRevokedSnoc(vs: seq<Verdict>)
    requires vs != []
    ensures AnyRevoked(vs) <==> AnyRevoked(vs[..|vs| - 1]) || vs[|vs| - 1].Revoked?
  {
    assert forall i :: 0 <= i < |vs| - 1 ==> vs[i] == vs[..|vs| - 1][i];
  }

  /**
   * A batch that succeeds leaves the file as rewriting for just its accepted re-enrolls, in order, and
   * reports the last of them and whether any revoke verifies, wherever it stands.
   */
  lemma {:induction false} OkBatchIsFold(vs: seq<Verdict>, disk: Disk)
    requires ActAll(vs, disk).error.None?
    ensures ActAll(vs, disk).disk == Rewrites(Orders(vs), disk)
    ensures ActAll(vs, disk).out == Summary(Orders(vs), disk).(revokeExit := AnyRevoked(vs))
  {
    assert Rewrites([], disk) == disk && Summary([], disk) == NOTHING_APPLIED && !AnyRevoked([]);
    hide Enroll, Rewrites, Summary, AnyRevoked;
    if vs != [] {
      var n := |vs| - 1;
      var b := ActAll(vs[..n], disk);
      OkBatchIsFold(vs[..n], disk);
      AnyRevokedSnoc(vs);
      if vs[n].Accept? {
        EnrollExtends(vs[n].order, b, Orders(vs[..n]), disk);
      }
    }
  }

  lemma EnrollExtends(o: Order, b: Batch, orders: seq<Order>, disk: Disk)
    requires b.error.None? && b.disk == Rewrites(orders, disk) && Enroll(o, b).error.None?
    ensures Enroll(o, b).disk == Rewrites(orders + [o], disk)
    ensures Enroll(o, b).out == Summary(orders + [o], disk).(revokeExit := b.out.revokeExit)
  {
    assert (orders + [o])[..|orders|] == orders;
  }

  /** An order that can be carried out on the disk it meets. */
  predicate Executable(o: Order, disk: Disk) {
    && o.pathKnown && o.firstReadOk && disk.target.Some?
    && Rewrite(disk, o.url, o.key, o.token, o.faults).error.None?
  }

  ghost predicate AllExecutable(orders: seq<Order>, disk: Disk) {
    forall k :: 0 <= k < |orders| ==> Executable(orders[k], Rewrites(orders[..k], disk))
  }

  lemma EnrollOkExactly(o: Order, b: Batch)
    requires b.error.None?
    ensures Enroll(o, b).error.None? <==> Executable(o, b.disk)
  {
  }

  lemma AllExecutableSnoc(orders: seq<Order>, o: Order, disk: Disk)
    ensures AllExecutable(orders + [o], disk) <==> AllExecutable(orders, disk) && Executable(o, Rewrites(orders, disk))
  {
    var more := orders + [o];
    assert forall k :: 0 <= k <= |orders| ==> more[..k] == orders[..k];
    assert orders[..|orders|] == orders && more[|orders|] == o;
    assert forall k :: 0 <= k < |orders| ==> more[k] == orders[k];
  }

  ghost predicate NoneFails(vs: seq<Verdict>) {
    forall i :: 0 <= i < |vs| ==> !vs[i].Fail?
  }

  lemma NoneFailsSnoc(vs: seq<Verdict>)
    requires vs != []
    ensures NoneFails(vs) <==> NoneFails(vs[..|vs| - 1]) && !vs[|vs| - 1].Fail?
  {
    assert forall i :: 0 <= i < |vs| - 1 ==> vs[i] == vs[..|vs| - 1][i];
  }

  /** A batch succeeds if and only if no check fails and each accepted re-enroll can rewrite the file it meets. */
  lemma {:induction false} OkExactly(vs: seq<Verdict>, disk: Disk)
    ensures ActAll(vs, disk).error.None? <==>
            NoneFails(vs) && AllExecutable(Orders(vs), disk)
  {
    assert AllExecutable([], disk) && NoneFails([]);
    hide Enroll, Executable, Rewrites, AllExecutable, NoneFails, Summary, AnyRevoked;
    if vs != [] {
      var n := |vs| - 1;
      var b := ActAll(vs[..n], disk);
      OkExactly(vs[..n], disk);
      NoneFailsSnoc(vs);
      if vs[n].Accept? {
        AllExecutableSnoc(Orders(vs[..n]), vs[n].order, disk);
        if b.error.None? {
          OkBatchIsFold(vs[..n], disk);
          EnrollOkExactly(vs[n].order, b);
        }
      }
    }
  }

  // ---- A batch that stops

  /** Why an order cannot be carried out on a disk. */
  function OrderError(o: Order, disk: Disk): (e: Option<DirectiveError>)
    ensures e.None? <==> Executable(o, disk)
  {
    if !o.pathKnown then Some(MissingHome)
    else if Readable(disk, o.firstReadOk).None? then Some(RewriteFailed(EnvUnreadable))
    else
      match Rewrite(disk, o.url, o.key, o.token, o.faults).error
      case None => None
      case Some(e) => Some(RewriteFailed(e))
  }

  /** A verdict that ends a batch, with the disk it met and what it left. */
  ghost predicate Stops(v: Verdict, before: Disk, b: Batch) {
    match v
    case Fail(e) => b.error == Some(e) && b.disk == before
    case Accept(o) =>
      OrderError(o, before).Some? && b.error == OrderError(o, before) && b.disk == Last(before, OrderSteps(o, before))
    case _ => false
  }

  lemma ActStops(v: Verdict, b: Batch)
    requires b.error.None? && Act(v, b).error.Some?
    ensures Stops(v, b.disk, Act(v, b))
  {
  }

  /**
   * Any batch, failing or not: up to the verdict that ends it, it rewrites the file for the accepted re-enrolls in
   * order, and that verdict adds no more than its own steps. Nothing done before is taken back.
   */
  lemma {:induction false} BatchExactly(vs: seq<Verdict>, disk: Disk) returns (n: nat)
    ensures n <= |vs| && NoneFails(vs[..n]) && AllExecutable(Orders(vs[..n]), disk)
    ensures n == |vs| <==> ActAll(vs, disk).error.None?
    ensures n == |vs| ==> ActAll(vs, disk).disk == Rewrites(Orders(vs), disk)
    ensures n < |vs| ==> Stops(vs[n], Rewrites(Orders(vs[..n]), disk), ActAll(vs, disk))
  {
    assert vs[..|vs|] == vs && AllExecutable([], disk) && NoneFails([]) && (vs == [] ==> Orders(vs) == []);
    hide Act, Enroll, Executable, Rewrites, AllExecutable, NoneFails, Summary, AnyRevoked, Stops, Orders;
    n := 0;
    if vs != [] {
      var init, last := vs[..|vs| - 1], vs[|vs| - 1];
      n := BatchExactly(init, disk);
      assert vs[..n] == init[..n];
      if n == |init| {
        var b := ActAll(init, disk);
        assert init[..n] == init && ActAll(vs, disk) == Act(last, b);
        if Act(last, b).error.Some? {
          ActStops(last, b);
        } else {
          n := |vs|;
          OkExactly(vs, disk);
          OkBatchIsFold(vs, disk);
        }
      }
    }
  }

  /** The same for a non-empty batch of directives: the keys and the checks come from the process environment alone. */
  lemma ApplyIsFold(w: World, ds: seq<Directive>, disk: Disk)
    requires ds != []
    ensures Apply(w, ds, disk).error.None? <==>
            Setup(w).Ok? &&
            var vs := Verdicts(w, Setup(w).value, ds);
            NoneFails(vs) && AllExecutable(Orders(vs), disk)
    ensures Apply(w, ds, disk).error.None? ==>
            var vs := Verdicts(w, Setup(w).value, ds);
            && Apply(w, ds, disk).disk == Rewrites(Orders(vs), disk)
            && Apply(w, ds, disk).out == Summary(Orders(vs), disk).(revokeExit := AnyRevoked(vs))
  {
    if Setup(w).Ok? {
      var vs := Verdicts(w, Setup(w).value, ds);
      OkExactly(vs, disk);
      if ActAll(vs, disk).error.None? {
        OkBatchIsFold(vs, disk);
      }
    }
  }
}
