/** What holds on every run of the heartbeat loop. */
module AgentRuns {
  import opened Wrappers
  import opened Text
  import opened EnvRewrite
  import opened DirectivesWire
  import opened Directives
  import opened DirectiveChecks
  import opened AgentRuntime

  // ---- One step

  /** The outcome of the re-enroll that a step applied, if it applied one and went on. */
  function Reenrolled(s: State, t: Tick): (r: Option<ApplyOutcome>)
    ensures r.Some? ==> t.buildOk && t.send.Accepted? && r.value.nextAppliedToken.Some?
  {
    if !t.buildOk || t.send.Rejected? then None
    else
      var b := Apply(t.world, t.send.directives, s.disk);
      if b.error.None? && !b.out.revokeExit && b.out.nextAppliedToken.Some? then Some(b.out) else None
  }

  /** A configuration renewed from the process environment: where to and as whom, with the intervals it had. */
  function Renewed(c: Config, t: Tick): Config {
    match FromLookup(t.world.env)
    case None => c
    case Some(r) => Config(r.endpoint, r.nodeId, r.cellId, c.intervalSecs, r.token, c.actionLeaseSecs,
                           c.actionLeaseExtendSecs, c.graceWindowSecs)
  }

  lemma ConfigFacts(s: State, t: Tick)
    requires Step(s, t).outcome == Continue
    ensures Step(s, t).state.config == if Reenrolled(s, t).Some? then Renewed(s.config, t) else s.config
    ensures Reenrolled(s, t).Some? ==> FromLookup(t.world.env).Some?
  {
    hide Apply, FromLookup, MainPost, FallbackPosts, FailMessage, DeadlineRepresentable;
  }

  /** A directive batch that errs ends the agent: acknowledged, with no grace record and no stamp, whatever it did. */
  lemma AbortedBatch(s: State, t: Tick)
    requires t.buildOk && t.send.Accepted? && Apply(t.world, t.send.directives, s.disk).error.Some?
    ensures var b := Apply(t.world, t.send.directives, s.disk);
            && Step(s, t).outcome == Failed(ApplyFailed(b.error.value))
            && Step(s, t).state == State(s.config, None, None, None, true, b.disk)
            && Step(s, t).posts == [MainPost(s, t)]
  {
    hide Apply, MainPost;
  }

  /** The five variables after a step that continues. */
  lemma ContinueFacts(s: State, t: Tick, s': State)
    requires Step(s, t).outcome == Continue && Step(s, t).state == s'
    ensures t.buildOk && Window(s'.config) == Window(s.config)
    ensures s'.config == if Reenrolled(s, t).Some? then Renewed(s.config, t) else s.config
    ensures Reenrolled(s, t).Some? ==> FromLookup(t.world.env).Some?
    ensures t.send.Rejected? ==>
              && s'.pendingGrace == s.pendingGrace && s'.acknowledged == s.acknowledged && s'.pendingToken.None?
              && (s'.pendingFail.Some? <==> s.pendingGrace.Some?)
    ensures t.send.Accepted? && Reenrolled(s, t).None? ==>
              s'.pendingGrace.None? && s'.acknowledged && s'.pendingToken.None? && s'.pendingFail.None?
    ensures Reenrolled(s, t).Some? ==>
              var out := Reenrolled(s, t).value;
              && s'.pendingGrace == GraceFor(out, t.now, Window(s.config)) && !s'.acknowledged
              && s'.pendingToken == out.nextAppliedToken && s'.pendingFail.None?
  {
    ConfigFacts(s, t);
    hide OnSuccess, OnError, MainPost, Reenrolled, GraceFor, Renewed, FromLookup;
    if t.send.Accepted? {
      SuccessFacts(Unstamped(s).(acknowledged := true, pendingGrace := None), t, s);
    } else {
      ErrorFacts(Unstamped(s), t);
    }
  }

  lemma ErrorFacts(s: State, t: Tick)
    requires t.send.Rejected? && s.pendingFail.None?
    ensures var r := OnError(s, t, t.send.error);
            && r.outcome in {Continue, ExitGraceExpired}
            && (r.outcome == ExitGraceExpired <==> s.pendingGrace.Some? && t.now >= s.pendingGrace.value.deadline)
            && Window(r.state.config) == Window(s.config)
            && (r.outcome == Continue ==> r.state == s.(pendingFail := r.state.pendingFail)
                                          && (r.state.pendingFail.Some? <==> s.pendingGrace.Some?))
  {
    hide FallbackPosts, FailMessage;
  }

  lemma WindowKept(c: Config, t: Tick)
    ensures FromLookup(t.world.env).Some? ==> Window(Renew(c, FromLookup(t.world.env).value)) == Window(c)
  {
    hide FromLookup;
  }

  lemma ReenrollFacts(s: State, t: Tick, out: ApplyOutcome)
    requires s.pendingGrace.None? && OnReenroll(s, t, out).outcome == Continue
    ensures var s' := OnReenroll(s, t, out).state;
            && Window(s'.config) == Window(s.config) && s'.pendingFail == s.pendingFail && !s'.acknowledged
            && s'.pendingGrace == GraceFor(out, t.now, Window(s.config)) && s'.pendingToken == out.nextAppliedToken
  {
    hide FromLookup, DeadlineRepresentable, GraceFor, Window, Renew;
    WindowKept(s.config, t);
  }

  lemma SuccessFacts(s: State, t: Tick, before: State)
    requires t.buildOk && t.send.Accepted? && s.disk == before.disk && Window(s.config) == Window(before.config)
    requires s.pendingGrace.None? && s.acknowledged && s.pendingToken.None? && s.pendingFail.None?
    requires OnSuccess(s, t, t.send.directives).outcome == Continue
    ensures var s' := OnSuccess(s, t, t.send.directives).state;
            && Window(s'.config) == Window(before.config) && s'.pendingFail.None?
            && (Reenrolled(before, t).None? ==> s'.pendingGrace.None? && s'.acknowledged && s'.pendingToken.None?)
            && (Reenrolled(before, t).Some? ==>
                  && s'.pendingGrace == GraceFor(Reenrolled(before, t).value, t.now, Window(before.config))
                  && !s'.acknowledged && s'.pendingToken == Reenrolled(before, t).value.nextAppliedToken)
  {
    hide Apply, OnReenroll, GraceFor;
    var b := Apply(t.world, t.send.directives, s.disk);
    if b.error.None? && !b.out.revokeExit && b.out.nextAppliedToken.Some? {
      ReenrollFacts(s.(disk := b.disk), t, b.out);
    }
  }

  lemma ExitFacts(s: State, t: Tick)
    ensures Step(s, t).outcome == ExitGraceExpired <==>
            t.buildOk && t.send.Rejected? && s.pendingGrace.Some? && t.now >= s.pendingGrace.value.deadline
    ensures t.buildOk && t.send.Rejected? ==> Step(s, t).outcome in {Continue, ExitGraceExpired}
  {
    hide OnSuccess, OnError, MainPost;
    if t.send.Rejected? {
      ErrorFacts(Unstamped(s), t);
    } else {
      SuccessDoesNotExpire(Unstamped(s).(acknowledged := true, pendingGrace := None), t);
    }
  }

  lemma SuccessDoesNotExpire(s: State, t: Tick)
    requires t.send.Accepted?
    ensures OnSuccess(s, t, t.send.directives).outcome != ExitGraceExpired
  {
    hide Apply, FromLookup;
  }

  /** The clock library takes durations of so many milliseconds as an `i64` holds, and instants up to its last one. */
  predicate DeadlineFits(t: Tick, secs: nat) {
    secs * 1000 <= 9_223_372_036_854_775_807 && t.now + secs * 1_000_000_000 <= t.latest
  }

  /** The step panics exactly when it would arm a grace window whose end the clock library cannot represent. */
  lemma PanicsExactly(s: State, t: Tick)
    ensures Step(s, t).outcome == Panicked <==>
            && Reenrolled(s, t).Some? && Reenrolled(s, t).value.prevEndpoint.Some?
            && !DeadlineFits(t, s.config.graceWindowSecs)
  {
    hide Apply, FromLookup, MainPost, FallbackPosts, FailMessage;
  }

  /** The batch that answers a heartbeat holds a revoke that verifies, under keys that the agent has. */
  ghost predicate Revokes(t: Tick) {
    && t.buildOk && t.send.Accepted?
    && exists keys :: HasKeys(t.world, keys) && SomeVerifiedRevoke(t.world, keys, t.send.directives)
  }

  lemma RevokeSeen(s: State, t: Tick)
    requires t.send.Accepted? && Apply(t.world, t.send.directives, s.disk).error.None?
    ensures Apply(t.world, t.send.directives, s.disk).out.revokeExit <==>
            exists keys :: HasKeys(t.world, keys) && SomeVerifiedRevoke(t.world, keys, t.send.directives)
  {
    var w, ds := t.world, t.send.directives;
    assert ds == [] ==> Apply(w, ds, s.disk).out == NOTHING_APPLIED;
    assert ds != [] ==> Setup(w).Ok?;
    hide Apply, HasKeys, VerifiedRevoke, Setup;
    if ds != [] {
      var keys := Setup(w).value;
      SetupExactly(w, keys, MissingHome);
      RevokeReportedExactly(w, keys, ds, s.disk);
      forall keys' | HasKeys(w, keys') ensures keys' == keys {
        SetupExactly(w, keys', MissingHome);
      }
    }
  }

  /**
   * A heartbeat ends the agent as revoked if and only if its batch goes through and holds a revoke that verifies;
   * and whether it goes through or not, a batch with such a revoke ends the agent.
   */
  lemma RevokedExactly(s: State, t: Tick)
    ensures Step(s, t).outcome == ExitRevoked <==>
            Revokes(t) && Apply(t.world, t.send.directives, s.disk).error.None?
    ensures Revokes(t) ==> Step(s, t).outcome == ExitRevoked || Step(s, t).outcome.Failed?
  {
    hide Apply, FromLookup, MainPost, FallbackPosts, FailMessage, DeadlineRepresentable, HasKeys, SomeVerifiedRevoke;
    if t.send.Accepted? && Apply(t.world, t.send.directives, s.disk).error.None? {
      RevokeSeen(s, t);
    }
  }

  /** The other ways in which a step fails, each for its cause. */
  lemma FailsExactly(s: State, t: Tick)
    ensures Step(s, t).outcome == Failed(ReportBuildFailed) <==> !t.buildOk
    ensures forall e :: Step(s, t).outcome == Failed(ApplyFailed(e)) <==>
              t.buildOk && t.send.Accepted? && Apply(t.world, t.send.directives, s.disk).error == Some(e)
    ensures Step(s, t).outcome == Failed(ConfigInvalid) <==>
            && Reenrolled(s, t).Some? && FromLookup(t.world.env).None?
            && (Reenrolled(s, t).value.prevEndpoint.None? || DeadlineFits(t, s.config.graceWindowSecs))
  {
    hide Apply, FromLookup, MainPost, FallbackPosts, FailMessage;
  }

  /** A heartbeat that fails within grace tells the previous control plane, and stamps the next report. */
  lemma FallbackExactly(s: State, t: Tick)
    requires t.buildOk && t.send.Rejected?
    ensures |Step(s, t).posts| == 2 <==>
            s.pendingGrace.Some? && t.now < s.pendingGrace.value.deadline && t.fallbackBuildOk
    ensures s.pendingGrace.Some? && t.now < s.pendingGrace.value.deadline ==>
              var message := "new CP heartbeat failed (within grace): " + t.send.error;
              && Step(s, t).outcome == Continue && Step(s, t).state.pendingFail == Some(message)
              && (t.fallbackBuildOk ==>
                    && Step(s, t).posts[1].endpoint == s.pendingGrace.value.prevEndpoint
                    && Step(s, t).posts[1].token == s.pendingGrace.value.prevToken
                    && Step(s, t).posts[1].report.applyFailed == Some(message))
  {
    hide MainPost;
  }

  lemma OnlyRejectedFallsBack(s: State, t: Tick)
    ensures |Step(s, t).posts| == 2 ==> t.buildOk && t.send.Rejected?
  {
    hide OnError, MainPost, OnSuccess;
  }

  lemma PostFacts(s: State, t: Tick)
    ensures |Step(s, t).posts| <= 2 && (Step(s, t).posts != [] <==> t.buildOk)
    ensures forall i :: 0 <= i < |Step(s, t).posts| ==>
              var report := Step(s, t).posts[i].report;
              && report.appliedToken == (if i == 0 then s.pendingToken else None)
              && report.nodeId == s.config.nodeId && report.cellId == s.config.cellId
              && (report.enrollmentToken.None? <==>
                    (i == 0 && s.acknowledged) || Unset(t.world, "PARTON_ENROLLMENT_TOKEN"))
              && (report.enrollmentToken.Some? ==>
                    SetTo(t.world, "PARTON_ENROLLMENT_TOKEN", report.enrollmentToken.value))
    ensures t.buildOk ==>
              var main := Step(s, t).posts[0];
              && main.endpoint == s.config.endpoint && main.token == s.config.token
              && main.report.applyFailed == s.pendingFail
    ensures |Step(s, t).posts| == 2 ==>
              var fallback := Step(s, t).posts[1];
              && fallback.report.applyFailed.Some? && s.pendingGrace.Some?
              && fallback.endpoint == s.pendingGrace.value.prevEndpoint
              && fallback.token == s.pendingGrace.value.prevToken
  {
    hide Apply, FromLookup, FailMessage, Trim;
  }

  // ---- Runs

  function ReenrolledAt(s0: State, ticks: seq<Tick>, k: nat): Option<ApplyOutcome>
    requires k < |ticks|
  {
    Reenrolled(StateAt(s0, ticks, k), ticks[k])
  }

  /** Iteration `j` applied a re-enroll with a known previous endpoint. */
  ghost predicate ArmsAt(s0: State, ticks: seq<Tick>, j: nat)
    requires j < |ticks|
  {
    ReenrolledAt(s0, ticks, j).Some? && ReenrolledAt(s0, ticks, j).value.prevEndpoint.Some?
  }

  ghost predicate AllRejected(ticks: seq<Tick>, from: nat, to: nat)
    requires to <= |ticks|
  {
    forall m :: from <= m < to ==> ticks[m].buildOk && ticks[m].send.Rejected?
  }

  /** Of a step that continues, what becomes of the grace record. */
  lemma GraceFacts(s: State, t: Tick, s': State)
    requires Step(s, t).outcome == Continue && Step(s, t).state == s'
    ensures t.buildOk && Window(s'.config) == Window(s.config)
    ensures t.send.Rejected? ==> s'.pendingGrace == s.pendingGrace
    ensures t.send.Accepted? ==>
              s'.pendingGrace == if Reenrolled(s, t).None? then None
                                 else GraceFor(Reenrolled(s, t).value, t.now, Window(s.config))
  {
    hide Step, Reenrolled, Renewed, FromLookup, GraceFor, Window;
    ContinueFacts(s, t, s');
  }

  lemma {:induction false} WindowConstant(s0: State, ticks: seq<Tick>, k: nat)
    requires k <= |ticks| && Reaches(s0, ticks, k)
    ensures Window(StateAt(s0, ticks, k).config) == Window(s0.config)
  {
    hide Step, Reenrolled, Window, GraceFor;
    if k > 0 {
      assert OutcomeAt(s0, ticks, k - 1) == Continue;
      WindowConstant(s0, ticks, k - 1);
      GraceFacts(StateAt(s0, ticks, k - 1), ticks[k - 1], StateAt(s0, ticks, k));
    }
  }

  /** A pending grace record stems from the last re-enroll, and every heartbeat since failed. */
  lemma {:induction false} GraceOrigin(s0: State, ticks: seq<Tick>, k: nat) returns (j: nat)
    requires k <= |ticks| && Reaches(s0, ticks, k) && s0.pendingGrace.None?
    requires StateAt(s0, ticks, k).pendingGrace.Some?
    ensures j < k && ArmsAt(s0, ticks, j) && AllRejected(ticks, j + 1, k)
    ensures StateAt(s0, ticks, k).pendingGrace ==
            GraceFor(ReenrolledAt(s0, ticks, j).value, ticks[j].now, Window(s0.config))
  {
    hide Step, Reenrolled, Window;
    var s := StateAt(s0, ticks, k - 1);
    assert OutcomeAt(s0, ticks, k - 1) == Continue;
    GraceFacts(s, ticks[k - 1], StateAt(s0, ticks, k));
    if Reenrolled(s, ticks[k - 1]).Some? {
      WindowConstant(s0, ticks, k - 1);
      j := k - 1;
    } else {
      j := GraceOrigin(s0, ticks, k - 1);
    }
  }

  /** While heartbeats fail, the record made by a re-enroll stays as it is. */
  lemma {:induction false} GracePersists(s0: State, ticks: seq<Tick>, j: nat, k: nat)
    requires j < k <= |ticks| && Reaches(s0, ticks, k)
    requires ReenrolledAt(s0, ticks, j).Some? && AllRejected(ticks, j + 1, k)
    ensures StateAt(s0, ticks, k).pendingGrace ==
            GraceFor(ReenrolledAt(s0, ticks, j).value, ticks[j].now, Window(s0.config))
  {
    hide Step, Reenrolled, Window, GraceFor;
    assert OutcomeAt(s0, ticks, k - 1) == Continue;
    GraceFacts(StateAt(s0, ticks, k - 1), ticks[k - 1], StateAt(s0, ticks, k));
    if k - 1 == j {
      WindowConstant(s0, ticks, j);
    } else {
      GracePersists(s0, ticks, j, k - 1);
    }
  }

  /** Why an iteration may give up: iteration `j` armed the window, every heartbeat since failed, and it is over. */
  ghost predicate ExpiredSince(s0: State, ticks: seq<Tick>, j: nat, k: nat)
    requires j < k < |ticks|
  {
        && ArmsAt(s0, ticks, j) && AllRejected(ticks, j + 1, k + 1)
    && ticks[k].now >= ticks[j].now + s0.config.graceWindowSecs * 1_000_000_000
  }

  /** On every run of the agent, an iteration exits for an expired grace window if and only if one expired. */
  lemma ExpiresExactly(s0: State, ticks: seq<Tick>, k: nat)
    requires k < |ticks| && Reaches(s0, ticks, k) && s0.pendingGrace.None?
    ensures OutcomeAt(s0, ticks, k) == ExitGraceExpired <==> exists j :: 0 <= j < k && ExpiredSince(s0, ticks, j, k)
  {
    hide Step, Reenrolled;
    ExitFacts(StateAt(s0, ticks, k), ticks[k]);
    if OutcomeAt(s0, ticks, k) == ExitGraceExpired {
      var j := GraceOrigin(s0, ticks, k);
      assert ExpiredSince(s0, ticks, j, k);
    }
    if exists j :: 0 <= j < k && ExpiredSince(s0, ticks, j, k) {
      var j :| 0 <= j < k && ExpiredSince(s0, ticks, j, k);
      GracePersists(s0, ticks, j, k);
    }
  }

  /**
   * The process as `main` starts it: it gives up only thirty seconds or more after applying a re-enroll
   * with a known previous endpoint, no heartbeat having been answered in between.
   */
  lemma GivesUpOnlyAfterGrace(lookup: Lookup, disk: Disk, ticks: seq<Tick>, k: nat) returns (j: nat)
    requires FromLookup(lookup).Some? && k < |ticks| && Reaches(Initial(FromLookup(lookup).value, disk), ticks, k)
    requires OutcomeAt(Initial(FromLookup(lookup).value, disk), ticks, k) == ExitGraceExpired
    ensures j < k && ArmsAt(Initial(FromLookup(lookup).value, disk), ticks, j)
    ensures AllRejected(ticks, j + 1, k + 1) && ticks[k].now >= ticks[j].now + 30 * 1_000_000_000
  {
    hide FromLookup, Step, Reenrolled;
    var s0 := Initial(FromLookup(lookup).value, disk);
    ExpiresExactly(s0, ticks, k);
    j :| 0 <= j < k && ExpiredSince(s0, ticks, j, k);
  }

  /**
   * A fallback report goes to the endpoint that the last re-enroll replaced, with the token that it replaced, while
   * every heartbeat since has failed and the window is open.
   */
  lemma FallbackGoesBack(s0: State, ticks: seq<Tick>, k: nat) returns (j: nat)
    requires k < |ticks| && Reaches(s0, ticks, k) && s0.pendingGrace.None? && |PostsAt(s0, ticks, k)| == 2
    ensures j < k && ArmsAt(s0, ticks, j) && AllRejected(ticks, j + 1, k + 1)
    ensures ticks[k].now < ticks[j].now + s0.config.graceWindowSecs * 1_000_000_000
    ensures Some(PostsAt(s0, ticks, k)[1].endpoint) == ReenrolledAt(s0, ticks, j).value.prevEndpoint
    ensures PostsAt(s0, ticks, k)[1].token == ReenrolledAt(s0, ticks, j).value.prevToken
  {
    hide Step, Reenrolled;
    var s := StateAt(s0, ticks, k);
    PostFacts(s, ticks[k]);
    OnlyRejectedFallsBack(s, ticks[k]);
    FallbackExactly(s, ticks[k]);
    j := GraceOrigin(s0, ticks, k);
  }

  /** How many steps of length `d` fit a window, rounded up. */
  function StepsFor(window: nat, d: nat): nat
    requires d > 0
  {
    (window + d - 1) / d
  }

  lemma StepsCover(window: nat, d: nat)
    requires d > 0
    ensures StepsFor(window, d) * d >= window
    ensures window > 0 ==> StepsFor(window, d) > 0
  {
  }

  /** The clock advances by at least `d` with each iteration after `j`. */
  ghost predicate ClockAdvances(ticks: seq<Tick>, j: nat, d: nat) {
    forall m :: j < m < |ticks| ==> ticks[m].now >= ticks[m - 1].now + d
  }

  lemma {:induction false} ClockDistance(ticks: seq<Tick>, j: nat, d: nat, i: nat)
    requires j + i < |ticks| && ClockAdvances(ticks, j, d)
    ensures ticks[j + i].now >= ticks[j].now + i * d
  {
    if i > 0 {
      ClockDistance(ticks, j, d, i - 1);
      assert i * d == (i - 1) * d + d;
    }
  }

  lemma ReachesNext(s0: State, ticks: seq<Tick>, k: nat)
    requires k < |ticks| && Reaches(s0, ticks, k) && OutcomeAt(s0, ticks, k) == Continue
    ensures Reaches(s0, ticks, k + 1)
  {
  }

  /** No iteration follows one whose batch held a revoke that verifies, whatever else the batch held and met. */
  lemma RevokeEndsRun(s0: State, ticks: seq<Tick>, j: nat, k: nat)
    requires j < k <= |ticks| && Revokes(ticks[j])
    ensures !Reaches(s0, ticks, k)
  {
    hide Step, Revokes;
    RevokedExactly(StateAt(s0, ticks, j), ticks[j]);
    assert OutcomeAt(s0, ticks, j) != Continue;
  }

  /**
   * Once armed, a grace window with nothing but failing heartbeats ends the loop: at the first reading
   * at or past the deadline, and within the window divided by the clock's step, rounded up.
   */
  lemma {:induction false} GraceDrains(s0: State, ticks: seq<Tick>, j: nat, d: nat) returns (m: nat)
    requires d > 0 && j + StepsFor(Window(s0.config), d) < |ticks|
    requires Reaches(s0, ticks, j + 1) && ArmsAt(s0, ticks, j)
    requires AllRejected(ticks, j + 1, |ticks|) && ClockAdvances(ticks, j, d) && Window(s0.config) > 0
    ensures 1 <= m <= StepsFor(Window(s0.config), d)
    ensures Reaches(s0, ticks, j + m) && OutcomeAt(s0, ticks, j + m) == ExitGraceExpired
    ensures ticks[j + m].now >= ticks[j].now + Window(s0.config)
    ensures forall i :: j < i < j + m ==> ticks[i].now < ticks[j].now + Window(s0.config)
  {
    hide Step, Reenrolled, Window, StepsFor;
    var n := StepsFor(Window(s0.config), d);
    StepsCover(Window(s0.config), d);
    ClockDistance(ticks, j, d, n);
    m := 1;
    while true
      invariant 1 <= m <= n && Reaches(s0, ticks, j + m)
      invariant forall i :: j < i < j + m ==> ticks[i].now < ticks[j].now + Window(s0.config)
      decreases ticks[j].now + Window(s0.config) - ticks[j + m].now, n - m
    {
      GracePersists(s0, ticks, j, j + m);
      ExitFacts(StateAt(s0, ticks, j + m), ticks[j + m]);
      if ticks[j + m].now >= ticks[j].now + Window(s0.config) { return; }
      ReachesNext(s0, ticks, j + m);
      m := m + 1;
    }
  }

  /** At any iteration a failure stamp needs a grace record; an applied token excludes it and acknowledgement. */
  ghost predicate StampsConsistent(s: State) {
    && (s.pendingFail.Some? ==> s.pendingGrace.Some? && s.pendingToken.None?)
    && (s.pendingToken.Some? ==> !s.acknowledged)
  }

  lemma {:induction false} StampsAlwaysConsistent(s0: State, ticks: seq<Tick>, k: nat)
    requires k <= |ticks| && Reaches(s0, ticks, k) && StampsConsistent(s0)
    ensures StampsConsistent(StateAt(s0, ticks, k))
  {
    hide Step, Reenrolled, Window;
    if k > 0 {
      assert OutcomeAt(s0, ticks, k - 1) == Continue;
      ContinueFacts(StateAt(s0, ticks, k - 1), ticks[k - 1], StateAt(s0, ticks, k));
    }
  }

  /** The token of the re-enroll applied by the iteration before `k`. */
  function TokenAppliedBefore(s0: State, ticks: seq<Tick>, k: nat): Option<string>
    requires k <= |ticks|
  {
    if k == 0 || ReenrolledAt(s0, ticks, k - 1).None? then None
    else ReenrolledAt(s0, ticks, k - 1).value.nextAppliedToken
  }

  /**
   * On every run, an applied token is stamped on the main report of the very next iteration and on no
   * other report, fallback reports included. A stamped report carries no failure and does not hold
   * back the enrollment token; a fallback report goes to the previous control plane.
   */
  lemma TokenStampedOnce(s0: State, ticks: seq<Tick>, k: nat, i: nat)
    requires k < |ticks| && Reaches(s0, ticks, k) && StampsConsistent(s0) && s0.pendingToken.None?
    requires i < |PostsAt(s0, ticks, k)|
    ensures var report := PostsAt(s0, ticks, k)[i].report;
            && report.appliedToken == (if i == 0 then TokenAppliedBefore(s0, ticks, k) else None)
            && (report.appliedToken.Some? ==>
                  && report.applyFailed.None?
                  && (report.enrollmentToken.Some? <==> !Unset(ticks[k].world, "PARTON_ENROLLMENT_TOKEN")))
  {
    hide Step, Reenrolled, Window, Unset;
    var s := StateAt(s0, ticks, k);
    PostFacts(s, ticks[k]);
    StampsAlwaysConsistent(s0, ticks, k);
    if k > 0 {
      assert OutcomeAt(s0, ticks, k - 1) == Continue;
      ContinueFacts(StateAt(s0, ticks, k - 1), ticks[k - 1], StateAt(s0, ticks, k));
    }
  }

  /**
   * The control plane that answers a heartbeat is told of an applied token if and only if it answers
   * the first heartbeat after the application: a lost report takes the stamp with it.
   */
  lemma AnsweredReportCarriesToken(s0: State, ticks: seq<Tick>, j: nat, k: nat)
    requires j < k < |ticks| && Reaches(s0, ticks, k) && StampsConsistent(s0) && s0.pendingToken.None?
    requires ReenrolledAt(s0, ticks, j).Some? && AllRejected(ticks, j + 1, k)
    requires ticks[k].buildOk && ticks[k].send.Accepted?
    ensures PostsAt(s0, ticks, k) != []
    ensures PostsAt(s0, ticks, k)[0].report.appliedToken.Some? <==> k == j + 1
    ensures k == j + 1 ==>
              PostsAt(s0, ticks, k)[0].report.appliedToken == ReenrolledAt(s0, ticks, j).value.nextAppliedToken
  {
    hide Step, Reenrolled, Window, Unset;
    PostFacts(StateAt(s0, ticks, k), ticks[k]);
    TokenStampedOnce(s0, ticks, k, 0);
  }

  /** The last iteration below `k` whose heartbeat was answered. */
  function LastAnswered(ticks: seq<Tick>, k: nat): (m: int)
    requires k <= |ticks|
    ensures -1 <= m < k
    ensures m >= 0 ==> ticks[m].buildOk && ticks[m].send.Accepted?
    ensures forall j :: m < j < k ==> !(ticks[j].buildOk && ticks[j].send.Accepted?)
  {
    if k == 0 then -1
    else if ticks[k - 1].buildOk && ticks[k - 1].send.Accepted? then k - 1
    else LastAnswered(ticks, k - 1)
  }

  /** The agent holds itself enrolled if and only if some heartbeat was answered, the last one without a re-enroll. */
  lemma {:induction false} AcknowledgedExactly(s0: State, ticks: seq<Tick>, k: nat)
    requires k <= |ticks| && Reaches(s0, ticks, k) && !s0.acknowledged
    ensures StateAt(s0, ticks, k).acknowledged <==>
            LastAnswered(ticks, k) >= 0 && ReenrolledAt(s0, ticks, LastAnswered(ticks, k)).None?
  {
    hide Step, Reenrolled, Window;
    if k > 0 {
      AcknowledgedExactly(s0, ticks, k - 1);
      assert OutcomeAt(s0, ticks, k - 1) == Continue;
      ContinueFacts(StateAt(s0, ticks, k - 1), ticks[k - 1], StateAt(s0, ticks, k));
    }
  }

  /** The last iteration below `k` that applied a re-enroll. */
  function LastReenroll(s0: State, ticks: seq<Tick>, k: nat): (m: int)
    requires k <= |ticks|
    ensures -1 <= m < k
  {
    if k == 0 then -1
    else if ReenrolledAt(s0, ticks, k - 1).Some? then k - 1
    else LastReenroll(s0, ticks, k - 1)
  }

  /**
   * Whatever was written to the env file, the agent goes on with the process environment as it was at its
   * last re-enroll, and with the interval, leases and grace window it was started with.
   */
  lemma {:induction false} ConfigOrigin(s0: State, ticks: seq<Tick>, k: nat)
    requires k <= |ticks| && Reaches(s0, ticks, k)
    ensures var m := LastReenroll(s0, ticks, k);
            StateAt(s0, ticks, k).config == if m < 0 then s0.config else Renewed(s0.config, ticks[m])
  {
    hide Step, Reenrolled, FromLookup;
    if k > 0 {
      ConfigOrigin(s0, ticks, k - 1);
      assert OutcomeAt(s0, ticks, k - 1) == Continue;
      ContinueFacts(StateAt(s0, ticks, k - 1), ticks[k - 1], StateAt(s0, ticks, k));
    }
  }
}
