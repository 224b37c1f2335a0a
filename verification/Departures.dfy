/** Single inputs at which the code does what its documentation, or a caller, would not expect. */
module Departures {
  import opened Integers
  import opened Wrappers
  import opened Text
  import opened OrderedMap
  import opened EnvFile
  import opened EnvRewrite
  import opened DirectivesWire
  import opened Directives
  import opened AgentRuntime
  import opened AgentRuns
  import AR = ActionRequest
  import DA = DockerArgs
  import DR = DeployReading
  import PR = PostgresReading
  import R = Runner
  import SE = SecretEnv
  import SB = Standby
  import SK = SlotKeys
  import TP = TemplatedParams

  // ---- A host where everything works

  function Env(name: string): Option<string> {
    if name == NODE_ID || name == AUTHORITY_VERIFY_KEY || name == "HOME" then Some("n") else None
  }

  /** Only the empty text is base64; every signature verifies, or none. */
  function SampleWorld(verifies: bool): World {
    World(Crypto(s => Some([]), s => Some([]), s => if s == "" then Some([]) else None, b => "",
                 (k, c) => Some([]), b => "", (k, m, s) => verifies),
          t => "", Env, Some(""), i => 0, i => true, i => Faults(true, true, true, 0, true, true, true, 0))
  }

  /** A re-enroll whose token is the empty text, or not base64. */
  function SampleDirective(ciphertext: string): Directive {
    ReEnroll("", "http://new", "", "", ciphertext, 0, 0, "", 0, "")
  }

  const URL_ENTRY: Entry := (HEARTBEAT_URL, "u")
  const NODE_ENTRY: Entry := (NODE_ID, "n")

  function SampleEntries(): seq<Entry> {
    [URL_ENTRY, NODE_ENTRY]
  }

  function SampleText(): string {
    Render(SampleEntries())
  }

  function SampleDisk(): Disk {
    Disk(Some(Inode(SampleText(), true, OWNER_ONLY)), None, {})
  }

  lemma PlainValues()
    ensures OneLine("u") && OneLine("n") && Trim("n") == "n"
  {
  }

  lemma SampleGets()
    ensures Get(SampleEntries(), HEARTBEAT_URL) == Some("u") && Get(SampleEntries(), NODE_ID) == Some("n")
    ensures Get(SampleEntries(), SHARED_TOKEN) == None && Get(SampleEntries(), ENROLLMENT_TOKEN) == None
  {
    hide HEARTBEAT_URL, NODE_ID, SHARED_TOKEN, ENROLLMENT_TOKEN, AUTHORITY_VERIFY_KEY, CELL_ID;
    KeysDistinct();
    var es := SampleEntries();
    assert es[1..] == [(NODE_ID, "n")] && es[1..][1..] == [];
    assert Get(es[1..][1..], SHARED_TOKEN) == None && Get(es[1..][1..], ENROLLMENT_TOKEN) == None;
    assert Get(es[1..], SHARED_TOKEN) == None && Get(es[1..], ENROLLMENT_TOKEN) == None;
    assert Get(es[1..], NODE_ID) == Some("n");
  }

  lemma SampleOrdered()
    ensures Less(HEARTBEAT_URL, NODE_ID)
  {
    LessAt(HEARTBEAT_URL, NODE_ID, 7);
  }

  lemma TwoEntriesParse(a: Entry, b: Entry)
    requires Storable(a) && Storable(b) && Less(a.0, b.0)
    ensures Parse(Render([a, b])) == [a, b]
  {
    hide Storable, Less, Parse, Render;
    ParseRender([a, b]);
  }

  lemma StorableEntry(k: string, v: string)
    requires StorableKey(k) && OneLine(v)
    ensures Storable((k, v))
  {
    hide StorableKey, OneLine;
  }

  lemma SampleStorable()
    ensures Storable(URL_ENTRY) && Storable(NODE_ENTRY) && Less(URL_ENTRY.0, NODE_ENTRY.0)
  {
    hide HEARTBEAT_URL, NODE_ID, StorableKey, OneLine, Less, Storable;
    SampleOrdered();
    KeysStorable();
    PlainValues();
    StorableEntry(HEARTBEAT_URL, "u");
    StorableEntry(NODE_ID, "n");
  }

  lemma SampleParses()
    ensures Parse(SampleText()) == SampleEntries()
  {
    hide URL_ENTRY, NODE_ENTRY, Storable, Less, Parse, Render;
    SampleStorable();
    TwoEntriesParse(URL_ENTRY, NODE_ENTRY);
  }

  lemma SampleRead()
    ensures NodeIdOf(Parse(SampleText())) == "n"
    ensures PrevEndpoint(SampleText()) == Some("u") && PrevToken(SampleText()) == None
  {
    hide SampleEntries, SampleText, Parse, Get, Trim, HEARTBEAT_URL, NODE_ID, SHARED_TOKEN, ENROLLMENT_TOKEN;
    SampleParses();
    SampleGets();
    PlainValues();
  }

  lemma SampleVars(verifies: bool)
    ensures TrimmedVar(SampleWorld(verifies), NODE_ID) == "n"
    ensures TrimmedVar(SampleWorld(verifies), AUTHORITY_VERIFY_KEY) == "n"
    ensures forall name :: PathKnown(SampleWorld(verifies), name)
  {
    PlainValues();
    hide Trim, NODE_ID, AUTHORITY_VERIFY_KEY;
  }

  lemma TrimSample()
    ensures Trim("x") == "x" && Trim("") == "" && "x" != ""
  {
  }

  // ---- Directives

  function SampleOrder(): Order {
    Order("http://new", "", "", true, true, Faults(true, true, true, 0, true, true, true, 0))
  }

  lemma SampleChecks(verifies: bool, keys: Keys, i: nat)
    ensures Check(SampleWorld(verifies), keys, i, SampleDirective("x")) == Fail(InvalidCiphertext)
    ensures Check(SampleWorld(verifies), keys, i, SampleDirective(""))
         == if verifies then Accept(SampleOrder()) else Skip
  {
    hide Trim, TrimmedVar, PathKnown, ReenrollMessage, SignedFields, Env, NODE_ID;
    SampleVars(verifies);
    TrimSample();
  }

  /** Nobody signed this re-enroll, and its token is not base64: the batch ends with an error. */
  lemma UnsignedEndsBatch(keys: Keys, i: nat)
    ensures forall key, message, signature :: !SampleWorld(false).crypto.verify(key, message, signature)
    ensures Check(SampleWorld(false), keys, i, SampleDirective("x")) == Fail(InvalidCiphertext)
  {
    hide Check;
    SampleChecks(false, keys, i);
  }

  lemma SampleSetup()
    ensures Setup(SampleWorld(true)) == Ok(Keys([], []))
  {
    hide TrimmedVar, PathKnown, Env, AUTHORITY_VERIFY_KEY;
    SampleVars(true);
  }

  /** The sample file after the sample order. */
  function SampleRewritten(text: string): Disk
    requires NodeIdOf(Parse(text)) != ""
  {
    Disk(Some(Inode(NewText(text, "http://new", "", ""), true, OWNER_ONLY)), None, {Inode(text, true, OWNER_ONLY)})
  }

  lemma SampleEnrolls(text: string)
    requires NodeIdOf(Parse(text)) == "n"
    ensures Enroll(SampleOrder(), Batch(NOTHING_APPLIED, Disk(Some(Inode(text, true, OWNER_ONLY)), None, {}), None))
         == Batch(ApplyOutcome(Some(""), false, PrevEndpoint(text), PrevToken(text)), SampleRewritten(text), None)
  {
    hide Parse, NewText, NodeIdOf, PrevEndpoint, PrevToken;
    var i := Inode(text, true, OWNER_ONLY);
    assert {} + {i} == {i};
  }

  lemma ActTwo(a: Verdict, b: Verdict, d: Disk)
    ensures ActAll([a], d) == Act(a, Batch(NOTHING_APPLIED, d, None))
    ensures ActAll([a], d).error.None? ==> ActAll([a, b], d) == Act(b, ActAll([a], d))
  {
    hide Act;
    assert [a][..0] == [] && [a, b][..1] == [a];
  }

  lemma SampleApplies(ds: seq<Directive>)
    requires ds == [SampleDirective("")] || ds == [SampleDirective(""), SampleDirective("x")]
    ensures NodeIdOf(Parse(SampleText())) == "n"
    ensures Apply(SampleWorld(true), ds, SampleDisk())
         == Batch(ApplyOutcome(Some(""), false, Some("u"), None), SampleRewritten(SampleText()),
                  if |ds| == 1 then None else Some(InvalidCiphertext))
  {
    hide SampleWorld, SampleText, SampleRewritten, Check, Setup, Enroll, Parse, NodeIdOf, PrevEndpoint, PrevToken,
         SampleOrder, ActAll;
    SampleSetup();
    SampleRead();
    SampleChecks(true, Keys([], []), 0);
    SampleChecks(true, Keys([], []), 1);
    SampleEnrolls(SampleText());
    var vs := Verdicts(SampleWorld(true), Keys([], []), ds);
    ActTwo(Accept(SampleOrder()), Fail(InvalidCiphertext), SampleDisk());
    assert vs == if |ds| == 1 then [Accept(SampleOrder())] else [Accept(SampleOrder()), Fail(InvalidCiphertext)];
  }

  // ---- The loop

  function SampleTick(ds: seq<Directive>): Tick {
    Tick(true, true, Accepted(ds), 0, 1_000 * SECOND, SampleWorld(true))
  }

  /**
   * A good re-enroll followed by one that is not base64: the file is rewritten for the first, and the agent ends with
   * an error, its token never stamped and no grace window armed.
   */
  lemma GoodThenBadAborts(s: State)
    requires s.disk == SampleDisk()
    ensures var t := SampleTick([SampleDirective(""), SampleDirective("x")]);
            && NodeIdOf(Parse(SampleText())) == "n"
            && Step(s, t).outcome == Failed(ApplyFailed(InvalidCiphertext))
            && Step(s, t).state == State(s.config, None, None, None, true, SampleRewritten(SampleText()))
  {
    hide SampleText, SampleWorld, SampleRewritten, Apply, Step, Parse, NodeIdOf;
    var ds := [SampleDirective(""), SampleDirective("x")];
    SampleApplies(ds);
    AbortedBatch(s, SampleTick(ds));
  }

  lemma SampleReenrolls(s: State)
    requires s.disk == SampleDisk()
    ensures Reenrolled(s, SampleTick([SampleDirective("")])) == Some(ApplyOutcome(Some(""), false, Some("u"), None))
  {
    hide SampleText, SampleWorld, SampleRewritten, Apply, Parse, NodeIdOf;
    SampleApplies([SampleDirective("")]);
  }

  /** The largest grace window that `from_lookup` accepts: the agent panics when it arms it. */
  lemma HugeWindowPanics(s: State)
    requires s.disk == SampleDisk() && s.config.graceWindowSecs == U64_MAX
    ensures Step(s, SampleTick([SampleDirective("")])).outcome == Panicked
  {
    hide Step, Reenrolled, SampleWorld, SampleDisk;
    SampleReenrolls(s);
    PanicsExactly(s, SampleTick([SampleDirective("")]));
  }

  /** And an expiry does occur: a re-enroll, then a heartbeat that fails when the window of 30 seconds is over. */
  lemma GraceExpires(s0: State)
    requires s0.disk == SampleDisk() && s0.config.graceWindowSecs == MIN_GRACE_SECS && s0.pendingGrace.None?
    ensures var first := SampleTick([SampleDirective("")]);
            var ticks := [first, first.(send := Rejected("down"), now := MIN_GRACE_SECS * SECOND)];
            Reaches(s0, ticks, 1) && OutcomeAt(s0, ticks, 1) == ExitGraceExpired
  {
    hide Step, Reenrolled, SampleWorld, SampleDisk, OutcomeAt, Reaches;
    SampleContinues(s0);
    SampleReenrolls(s0);
    var first := SampleTick([SampleDirective("")]);
    ArmThenExpire(s0, first, first.(send := Rejected("down"), now := MIN_GRACE_SECS * SECOND));
  }

  lemma ArmThenExpire(s0: State, first: Tick, second: Tick)
    requires s0.pendingGrace.None? && Step(s0, first).outcome == Continue
    requires Reenrolled(s0, first).Some? && Reenrolled(s0, first).value.prevEndpoint.Some?
    requires second.buildOk && second.send.Rejected? && second.now >= first.now + Window(s0.config)
    ensures Reaches(s0, [first, second], 1) && OutcomeAt(s0, [first, second], 1) == ExitGraceExpired
  {
    hide Step, Reenrolled;
    var ticks := [first, second];
    assert StateAt(s0, ticks, 0) == s0 && ReenrolledAt(s0, ticks, 0) == Reenrolled(s0, first);
    assert Reaches(s0, ticks, 1);
    assert ExpiredSince(s0, ticks, 0, 1);
    ExpiresExactly(s0, ticks, 1);
  }

  lemma SampleConfig()
    ensures FromLookup(SampleWorld(true).env).Some?
  {
    PlainValues();
    hide Trim, Seconds, PositiveSeconds, NODE_ID;
  }

  lemma SampleContinues(s: State)
    requires s.disk == SampleDisk() && s.config.graceWindowSecs == MIN_GRACE_SECS
    ensures Step(s, SampleTick([SampleDirective("")])).outcome == Continue
  {
    hide SampleText, SampleWorld, SampleRewritten, Apply, FromLookup, Parse, NodeIdOf, Renew, BuildReport;
    SampleApplies([SampleDirective("")]);
    SampleConfig();
  }

  // ---- Slots, deploys and secrets

  /** A key with a blank in it: however often its slot is migrated, and with whatever success, it stays. */
  lemma {:induction false} BlankKeyStays(run: seq<SK.CallRecord>, c: string, p: TP.Params, answers: R.Answers, n: nat,
                                         start: SK.Cluster)
    requires SK.IsRun(run, c, p, answers, n, start) && "a b" in start.source
    ensures "a b" in SK.End(run, start).source
  {
    assert "a b"[1] == ' ' && !SK.NoBlank("a b");
    SK.RunKeepsUnmovable(run, c, p, answers, n, start, "a b");
  }

  /** What MIGRATE is given when that key is the only one listed: two other keys. */
  lemma BlankKeyCut(c: string, p: TP.Params, answers: R.Answers, n: nat)
    requires var get := R.Answered(SK.GetKeysArgv(c, p.slotStart), answers, n);
             R.Succeeded(get) && SK.Prints(get, ["a b"])
    ensures SK.CallHistory(c, p, answers, n)
         == [R.Answered(SK.GetKeysArgv(c, p.slotStart), answers, n),
             R.Answered(SK.MigrateArgv(c, p, ["a", "b"]), answers, n + 1)]
  {
    CutBlankKey();
    hide SK.ParseKeys, SK.KeyAllowed, SK.GetKeysArgv, SK.MigrateArgv, Trim;
    SK.TrimParses(Join(["a b"], "\n"));
  }

  lemma CutBlankKey()
    ensures SK.ParseKeys(Join(["a b"], "\n")) == ["a", "b"] && SK.KeyAllowed("a") && SK.KeyAllowed("b")
  {
    BlankPieces();
    hide SK.SplitBlank, SK.KeyAllowed;
    assert Join(["a b"], "\n") == "a" + [' '] + "b";
    SK.SplitBlankAfter("a", ' ', "b");
    assert ["a"] + ["b"] == ["a", "b"];
    NonEmptyUnchanged(["a", "b"]);
  }

  lemma BlankPieces()
    ensures SK.SplitBlank("b") == ["b"] && SK.NoBlank("a") && IsWhitespace(' ')
    ensures SK.KeyAllowed("a") && SK.KeyAllowed("b")
  {
    assert Utf8Len("a") == 1 && Utf8Len("b") == 1;
  }

  /** A host with a vertical tab in it: accepted, and cut there by the reader of a connection string. */
  lemma TabbedHostMisread(c: string, v: TP.Params)
    requires v.primaryHost == "a\U{000B}b" && TP.UserAllowed(v.user)
    ensures TP.HostAllowed(v.primaryHost)
    ensures !PR.Rewinds(SB.RewindArgv(c, v), c, v.primaryHost, v.primaryPort, v.user)
  {
    assert PR.ConnBlank(v.primaryHost[1]);
    hide PR.Rewinds, SB.RewindArgv, TP.UserAllowed;
    PR.RewindReads(c, v);
    assert Utf8Len("a\U{000B}b") == 3;
  }

  /** A host path with a colon in it: docker reads three parts, and no mount of that path. */
  lemma ColonMountMisread(q: DA.Input)
    requires DA.ValidInput(q) && DA.AllStrings(q.request.command)
    requires q.request.volumeMounts == [AR.VolumeMount("/a:b", "/c", false)]
    ensures DR.Interpret(DA.Arguments(q)) != Some(DR.Requested(q))
  {
    ColonMount();
    hide DR.Interpret, DA.Arguments, DR.Requested, DA.Image, DR.ColonFree;
    assert !DR.ColonFree(q.request.volumeMounts[0]);
    DR.SaysTheRequestExactly(q);
  }

  lemma ColonMount()
    ensures !DR.ColonFree(AR.VolumeMount("/a:b", "/c", false))
  {
    assert Trimmed("/a:b") && "/a:b"[2] == ':';
    hide Trim;
  }

  /** An image that begins with a dash is read as a flag, however the rest of the request reads. */
  lemma DashImageMisread(q: DA.Input)
    requires DA.ValidInput(q) && DA.AllStrings(q.request.command) && q.request.imageRef == Some("-v")
    ensures DR.Interpret(DA.Arguments(q)) != Some(DR.Requested(q))
  {
    hide DR.Interpret, DA.Arguments, DR.Requested, DA.Dashed, DA.Image;
    DashImage(q.request);
    DR.SaysTheRequestExactly(q);
  }

  lemma DashImage(r: AR.Request)
    requires r.imageRef == Some("-v")
    ensures DA.Dashed(DA.Image(r))
  {
    assert Trim("-v") == "-v";
  }

  /** A reader of the secret file that does not unquote sees this value with two quotes too many. */
  lemma QuotedSecretChanged()
    ensures SE.Quoted("a b") == "\"a b\""
  {
    assert SE.Special("a b"[1]);
    SE.TwoPasses("a b");
    assert SE.Escape("") == "" && SE.Escape("b") == "b" && "a b"[1..] == " b" && " b"[1..] == "b";
    assert SE.Escape(" b") == " b";
  }
}
