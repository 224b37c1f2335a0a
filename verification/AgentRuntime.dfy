/** One heartbeat iteration of the agent, and the loop around it. */
module AgentRuntime {
  import opened Integers
  import opened Wrappers
  import opened Text
  import opened EnvRewrite
  import opened DirectivesWire
  import opened Directives

  const MIN_GRACE_SECS: nat := 30
  const DEFAULT_ENDPOINT := "http://127.0.0.1:3000/api/parton/heartbeat"
  const DEFAULT_CELL := "local-default"
  const INTERVAL_SECS := "PARTON_HEARTBEAT_INTERVAL_SECS"
  const LEASE_SECS := "PARTON_ACTION_LEASE_SECS"
  const LEASE_EXTEND_SECS := "PARTON_ACTION_LEASE_EXTEND_SECS"
  const GRACE_SECS := "PARTON_DIRECTIVE_GRACE_SECS"

  type Lookup = string -> Option<string>

  datatype Config = Config(endpoint: string, nodeId: string, cellId: string, intervalSecs: nat,
                           token: Option<string>, actionLeaseSecs: nat, actionLeaseExtendSecs: nat,
                           graceWindowSecs: nat)

  function GetOr(o: Option<string>, default: string): string {
    if o.Some? then o.value else default
  }

  function Seconds(lookup: Lookup, name: string, default: nat): nat {
    match lookup(name)
    case None => default
    case Some(raw) =>
      var n := ParseUnsigned(raw, U64_MAX);
      if n.Some? then n.value else default
  }

  function PositiveSeconds(lookup: Lookup, name: string, default: nat): nat {
    var n := Seconds(lookup, name, 0);
    if n > 0 then n else default
  }

  /** `AgentRuntimeConfig::from_lookup`: fails only without a node id, and never yields a grace window under 30 s. */
  function FromLookup(lookup: Lookup): (r: Option<Config>)
    ensures r.None? <==> lookup(NODE_ID).None? || Blank(lookup(NODE_ID).value)
    ensures r.Some? ==> r.value.graceWindowSecs >= MIN_GRACE_SECS && Trimmed(r.value.nodeId) && r.value.nodeId != ""
  {
    var nodeId := Trim(GetOr(lookup(NODE_ID), ""));
    var grace := Seconds(lookup, GRACE_SECS, 300);
    if nodeId == "" then None
    else Some(Config(GetOr(lookup(HEARTBEAT_URL), DEFAULT_ENDPOINT),
                     nodeId,
                     GetOr(lookup(CELL_ID), DEFAULT_CELL),
                     Seconds(lookup, INTERVAL_SECS, 10),
                     lookup(SHARED_TOKEN),
                     PositiveSeconds(lookup, LEASE_SECS, 120),
                     PositiveSeconds(lookup, LEASE_EXTEND_SECS, 600),
                     if grace < MIN_GRACE_SECS then MIN_GRACE_SECS else grace))
  }

  /** What the text of a variable is taken for: the text as it is, else the default. */
  ghost predicate TextReadsAs(lookup: Lookup, name: string, default: string, text: string) {
    lookup(name) == Some(text) || (lookup(name).None? && text == default)
  }

  /** What the number of a variable is taken for: the number printed there, else the default. */
  ghost predicate ReadsAs(lookup: Lookup, name: string, default: nat, seconds: nat) {
    && (forall n: nat :: n <= U64_MAX && lookup(name) == Some(Decimal(n)) ==> seconds == n)
    && (lookup(name).None? ==> seconds == default)
    && (lookup(name).Some? ==>
          var n := ParseUnsigned(lookup(name).value, U64_MAX); seconds == if n.Some? then n.value else default)
  }

  /** The same for a lease, where 0 stands for an unusable number. */
  ghost predicate LeaseReadsAs(lookup: Lookup, name: string, default: nat, seconds: nat) {
    exists n: nat :: ReadsAs(lookup, name, 0, n) && seconds == if n > 0 then n else default
  }

  /** The same for the grace window, which is never under its floor. */
  ghost predicate GraceReadsAs(lookup: Lookup, seconds: nat) {
    exists n: nat :: ReadsAs(lookup, "PARTON_DIRECTIVE_GRACE_SECS", 300, n) && seconds == if n < 30 then 30 else n
  }

  lemma SecondsRead(lookup: Lookup, name: string, default: nat)
    ensures ReadsAs(lookup, name, default, Seconds(lookup, name, default))
  {
    hide Decimal, ParseUnsigned;
    forall n: nat | n <= U64_MAX && lookup(name) == Some(Decimal(n)) ensures Seconds(lookup, name, default) == n {
      ParseDecimal(n, U64_MAX);
    }
  }

  /** Texts are taken as they are, the node id trimmed; numbers are those printed, in range; the rest has defaults. */
  lemma ConfigRead(lookup: Lookup)
    requires FromLookup(lookup).Some?
    ensures var c := FromLookup(lookup).value;
            && lookup("PARTON_NODE_ID").Some? && c.nodeId == Trim(lookup("PARTON_NODE_ID").value)
            && c.token == lookup("PARTON_SHARED_TOKEN")
            && TextReadsAs(lookup, "PARTON_HEARTBEAT_URL", "http://127.0.0.1:3000/api/parton/heartbeat", c.endpoint)
            && TextReadsAs(lookup, "PARTON_CELL_ID", "local-default", c.cellId)
            && ReadsAs(lookup, "PARTON_HEARTBEAT_INTERVAL_SECS", 10, c.intervalSecs)
            && LeaseReadsAs(lookup, "PARTON_ACTION_LEASE_SECS", 120, c.actionLeaseSecs)
            && LeaseReadsAs(lookup, "PARTON_ACTION_LEASE_EXTEND_SECS", 600, c.actionLeaseExtendSecs)
            && GraceReadsAs(lookup, c.graceWindowSecs)
  {
    hide Decimal, ParseUnsigned, Trim, ReadsAs, Seconds;
    SecondsRead(lookup, INTERVAL_SECS, 10);
    SecondsRead(lookup, GRACE_SECS, 300);
    SecondsRead(lookup, LEASE_SECS, 0);
    SecondsRead(lookup, LEASE_EXTEND_SECS, 0);
  }

  /** What a re-enroll renews of a configuration: where to and as whom. */
  function Renew(c: Config, renewed: Config): Config {
    c.(endpoint := renewed.endpoint, token := renewed.token, nodeId := renewed.nodeId, cellId := renewed.cellId)
  }

  /** `PendingReenrollGrace`. */
  datatype Grace = Grace(prevEndpoint: string, prevToken: Option<string>, deadline: Instant)

  datatype State = State(config: Config, pendingToken: Option<string>, pendingFail: Option<string>,
                         pendingGrace: Option<Grace>, acknowledged: bool, disk: Disk)

  datatype Report = Report(nodeId: string, cellId: string, enrollmentToken: Option<string>,
                           appliedToken: Option<string>, applyFailed: Option<string>)

  /** A POST that was made: where to, with which token, and the report. */
  datatype Post = Post(endpoint: string, token: Option<string>, report: Report)

  datatype SendResult = Accepted(directives: seq<Directive>) | Rejected(error: string)

  /**
   * Everything an iteration gets from outside: whether each report can be built, the answer to the
   * heartbeat, the clock reading the handler takes, the last instant the clock library can represent,
   * and the world in which directives are applied, with the process environment.
   */
  datatype Tick = Tick(buildOk: bool, fallbackBuildOk: bool, send: SendResult, now: Instant, latest: Instant,
                       world: World)

  datatype StepError = ReportBuildFailed | ApplyFailed(error: DirectiveError) | ConfigInvalid

  datatype StepOutcome = Continue | ExitGraceExpired | ExitRevoked | Failed(error: StepError) | Panicked

  datatype StepResult = StepResult(state: State, posts: seq<Post>, outcome: StepOutcome)

  /** `build_heartbeat_report_with_overrides`, without the host probes. */
  function BuildReport(t: Tick, nodeId: string, cellId: string, applied: Option<string>, failed: Option<string>,
                       suppress: bool): Report {
    var token := TrimmedVar(t.world, ENROLLMENT_TOKEN);
    Report(nodeId, cellId, if suppress || token == "" then None else Some(token), applied, failed)
  }

  function FailMessage(error: string): string {
    "new CP heartbeat failed (within grace): " + error
  }

  function MainPost(s: State, t: Tick): Post {
    Post(s.config.endpoint, s.config.token,
         BuildReport(t, s.config.nodeId, s.config.cellId, s.pendingToken, s.pendingFail, s.acknowledged))
  }

  function FallbackPosts(s: State, t: Tick, g: Grace, message: string): seq<Post> {
    if !t.fallbackBuildOk then []
    else [Post(g.prevEndpoint, g.prevToken,
               BuildReport(t, s.config.nodeId, s.config.cellId, None, Some(message), false))]
  }

  /** The stamps are taken before the report is built. */
  function Unstamped(s: State): State {
    s.(pendingToken := None, pendingFail := None)
  }

  /** `handle_heartbeat_error`. */
  function OnError(s: State, t: Tick, error: string): StepResult {
    match s.pendingGrace
    case None => StepResult(s, [], Continue)
    case Some(g) =>
      if t.now >= g.deadline then StepResult(s, [], ExitGraceExpired)
      else StepResult(s.(pendingFail := Some(FailMessage(error))), FallbackPosts(s, t, g, FailMessage(error)), Continue)
  }

  /** Adding the window to the clock does not overflow. */
  predicate DeadlineRepresentable(t: Tick, secs: nat) {
    secs <= I64_MAX / 1000 && t.now + secs * SECOND <= t.latest
  }

  /** The grace window. */
  function Window(c: Config): int {
    c.graceWindowSecs * SECOND
  }

  /** The grace record that a re-enroll makes, if the previous endpoint is known. */
  function GraceFor(out: ApplyOutcome, now: Instant, window: int): Option<Grace> {
    if out.prevEndpoint.None? then None
    else Some(Grace(out.prevEndpoint.value, out.prevToken, now + window))
  }

  /** `process_successful_heartbeat` from its grace record on, after a re-enroll was applied. */
  function OnReenroll(s: State, t: Tick, out: ApplyOutcome): (r: StepResult)
    ensures r.posts == []
  {
    if out.prevEndpoint.Some? && !DeadlineRepresentable(t, s.config.graceWindowSecs) then StepResult(s, [], Panicked)
    else
      var grace := GraceFor(out, t.now, Window(s.config));
      var s' := s.(pendingGrace := if grace.Some? then grace else s.pendingGrace, pendingToken := out.nextAppliedToken);
      match FromLookup(t.world.env)
      case None => StepResult(s', [], Failed(ConfigInvalid))
      case Some(renewed) =>
        StepResult(s'.(config := Renew(s.config, renewed), acknowledged := false), [], Continue)
  }

  /** `process_successful_heartbeat`. */
  function OnSuccess(s: State, t: Tick, ds: seq<Directive>): (r: StepResult)
    ensures r.posts == []
  {
    var b := Apply(t.world, ds, s.disk);
    var s' := s.(disk := b.disk);
    if b.error.Some? then StepResult(s', [], Failed(ApplyFailed(b.error.value)))
    else if b.out.revokeExit then StepResult(s', [], ExitRevoked)
    else if b.out.nextAppliedToken.None? then StepResult(s', [], Continue)
    else OnReenroll(s', t, b.out)
  }

  /** `run_heartbeat_step`. */
  function Step(s: State, t: Tick): StepResult {
    if !t.buildOk then StepResult(Unstamped(s), [], Failed(ReportBuildFailed))
    else
      var r := match t.send
               case Accepted(ds) => OnSuccess(Unstamped(s).(acknowledged := true, pendingGrace := None), t, ds)
               case Rejected(error) => OnError(Unstamped(s), t, error);
      r.(posts := [MainPost(s, t)] + r.posts)
  }

  /** The disk states that an iteration goes through. */
  function StepTrail(s: State, t: Tick): seq<Disk> {
    if !t.buildOk || t.send.Rejected? then [] else ApplyTrail(t.world, t.send.directives, s.disk)
  }

  /** The agent: the five variables that `main` hands to each step, and the directory it rewrites. */
  class Agent {
    var config: Config
    var pendingToken: Option<string>
    var pendingFail: Option<string>
    var pendingGrace: Option<Grace>
    var acknowledged: bool
    const dir: EnvDir
    ghost var posts: seq<Post>

    ghost function Snapshot(): State
      reads this, dir
    {
      State(config, pendingToken, pendingFail, pendingGrace, acknowledged, dir.disk)
    }

    /** The state in which `main` enters its loop. */
    constructor (config: Config, dir: EnvDir)
      ensures Snapshot() == State(config, None, None, None, false, dir.disk) && this.dir == dir && posts == []
    {
      this.config, this.dir := config, dir;
      pendingToken, pendingFail, pendingGrace, acknowledged := None, None, None, false;
      posts := [];
    }

    method RunHeartbeatStep(t: Tick) returns (outcome: StepOutcome)
      modifies this, dir
      ensures Snapshot() == Step(old(Snapshot()), t).state && outcome == Step(old(Snapshot()), t).outcome
      ensures posts == old(posts) + Step(old(Snapshot()), t).posts
      ensures dir.trail == old(dir.trail) + StepTrail(old(Snapshot()), t)
    {
      hide OnSuccess, OnError, BuildReport, ApplyTrail;
      var applied, failed := pendingToken, pendingFail;
      pendingToken, pendingFail := None, None;
      if !t.buildOk { return Failed(ReportBuildFailed); }
      var report := BuildReport(t, config.nodeId, config.cellId, applied, failed, acknowledged);
      posts := posts + [Post(config.endpoint, config.token, report)];
      match t.send {
        case Accepted(ds) =>
          acknowledged := true;
          if pendingGrace.Some? {
            pendingGrace := None;
          }
          outcome := ProcessSuccessfulHeartbeat(t, ds);
        case Rejected(error) =>
          outcome := HandleHeartbeatError(t, error);
      }
    }

    method HandleHeartbeatError(t: Tick, error: string) returns (outcome: StepOutcome)
      modifies this
      ensures Snapshot() == OnError(old(Snapshot()), t, error).state
      ensures outcome == OnError(old(Snapshot()), t, error).outcome
      ensures posts == old(posts) + OnError(old(Snapshot()), t, error).posts
    {
      if pendingGrace.None? { return Continue; }
      var grace := pendingGrace.value;
      if t.now >= grace.deadline { return ExitGraceExpired; }
      var message := FailMessage(error);
      SendApplyFailedFallback(t, grace, message);
      pendingFail := Some(message);
      return Continue;
    }

    method SendApplyFailedFallback(t: Tick, grace: Grace, message: string)
      modifies this`posts
      ensures posts == old(posts) + FallbackPosts(Snapshot(), t, grace, message)
    {
      if t.fallbackBuildOk {
        var report := BuildReport(t, config.nodeId, config.cellId, None, Some(message), false);
        posts := posts + [Post(grace.prevEndpoint, grace.prevToken, report)];
      }
    }

    method ProcessSuccessfulHeartbeat(t: Tick, ds: seq<Directive>) returns (outcome: StepOutcome)
      requires pendingGrace.None?
      modifies this, dir
      ensures Snapshot() == OnSuccess(old(Snapshot()), t, ds).state
      ensures outcome == OnSuccess(old(Snapshot()), t, ds).outcome && posts == old(posts)
      ensures dir.trail == old(dir.trail) + ApplyTrail(t.world, ds, old(dir.disk))
    {
      hide Apply, BatchTrail, Setup, OnReenroll;
      if ds == [] {
        EmptyBatch(t.world, dir.disk);
        return Continue;
      }
      var apply := ApplyDirectives(t.world, ds, dir);
      if apply.Err? { return Failed(ApplyFailed(apply.error)); }
      var out := apply.value;
      if out.revokeExit { return ExitRevoked; }
      if out.nextAppliedToken.Some? {
        outcome := RecordReenroll(t, out);
        return;
      }
      return Continue;
    }

    /** The end of `process_successful_heartbeat`, after a re-enroll was applied. */
    method RecordReenroll(t: Tick, out: ApplyOutcome) returns (outcome: StepOutcome)
      requires pendingGrace.None?
      modifies this
      ensures Snapshot() == OnReenroll(old(Snapshot()), t, out).state
      ensures outcome == OnReenroll(old(Snapshot()), t, out).outcome && posts == old(posts)
    {
      hide FromLookup, DeadlineRepresentable;
      if pendingGrace.None? && out.prevEndpoint.Some? {
        if !DeadlineRepresentable(t, config.graceWindowSecs) { return Panicked; }
        pendingGrace := Some(Grace(out.prevEndpoint.value, out.prevToken, t.now + Window(config)));
      }
      pendingToken := out.nextAppliedToken;
      var renewed := FromLookup(t.world.env);
      if renewed.None? { return Failed(ConfigInvalid); }
      config := config.(endpoint := renewed.value.endpoint, token := renewed.value.token);
      config := config.(nodeId := renewed.value.nodeId, cellId := renewed.value.cellId);
      assert config == Renew(old(config), renewed.value);
      acknowledged := false;
      return Continue;
    }
  }

  function Initial(config: Config, disk: Disk): State {
    State(config, None, None, None, false, disk)
  }

  // ---- Runs

  /** The state before iteration `k`, and how iteration `k` ends. */
  function StateAt(s0: State, ticks: seq<Tick>, k: nat): State
    requires k <= |ticks|
  {
    if k == 0 then s0 else Step(StateAt(s0, ticks, k - 1), ticks[k - 1]).state
  }

  function OutcomeAt(s0: State, ticks: seq<Tick>, k: nat): StepOutcome
    requires k < |ticks|
  {
    Step(StateAt(s0, ticks, k), ticks[k]).outcome
  }

  function PostsAt(s0: State, ticks: seq<Tick>, k: nat): seq<Post>
    requires k < |ticks|
  {
    Step(StateAt(s0, ticks, k), ticks[k]).posts
  }

  /** The disk states up to iteration `k`. */
  function RunTrail(s0: State, ticks: seq<Tick>, k: nat): seq<Disk>
    requires k <= |ticks|
  {
    if k == 0 then [] else RunTrail(s0, ticks, k - 1) + StepTrail(StateAt(s0, ticks, k - 1), ticks[k - 1])
  }

  /** The loop reaches iteration `k`: every earlier one ended in `Continue`. */
  ghost predicate Reaches(s0: State, ticks: seq<Tick>, k: nat)
    requires k <= |ticks|
  {
    forall j :: 0 <= j < k ==> OutcomeAt(s0, ticks, j) == Continue
  }

  /** The loop of `main`, for as many iterations as there are ticks. */
  method RunLoop(agent: Agent, ticks: seq<Tick>) returns (iterations: nat, outcome: StepOutcome)
    modifies agent, agent.dir
    ensures iterations <= |ticks| && Reaches(old(agent.Snapshot()), ticks, iterations)
    ensures outcome == Continue ==> iterations == |ticks|
    ensures outcome != Continue ==>
              iterations < |ticks| && outcome == OutcomeAt(old(agent.Snapshot()), ticks, iterations)
    ensures agent.Snapshot() == StateAt(old(agent.Snapshot()), ticks,
                                        if outcome == Continue then iterations else iterations + 1)
    ensures agent.dir.trail == old(agent.dir.trail)
              + RunTrail(old(agent.Snapshot()), ticks, if outcome == Continue then iterations else iterations + 1)
  {
    hide Step, StepTrail;
    iterations := 0;
    ghost var s0 := agent.Snapshot();
    while iterations < |ticks|
      invariant iterations <= |ticks| && Reaches(s0, ticks, iterations)
      invariant agent.Snapshot() == StateAt(s0, ticks, iterations)
      invariant agent.dir.trail == old(agent.dir.trail) + RunTrail(s0, ticks, iterations)
    {
      outcome := agent.RunHeartbeatStep(ticks[iterations]);
      if outcome != Continue { return; }
      iterations := iterations + 1;
    }
    outcome := Continue;
  }
}
