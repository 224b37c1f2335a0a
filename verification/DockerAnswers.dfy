/** What a request runs and what it answers, from docker's answers to its commands. */
module DockerAnswers {
  import opened ActionRequest
  import opened DockerArgs
  import opened DockerGuard
  import opened DockerIdentity
  import opened Integers
  import opened Runner
  import opened Wrappers
  import opened Text
  import SecretEnv

  // ---- The id query

  /** Asked next, docker tells an id for a name: that of the container it resolves to, or whatever it prints. */
  ghost predicate Tells(h: Host, name: string, w: World, id: string) {
    && name != "" && Succeeds(w, |h.log|)
    && if name in h.refs then id == h.refs[name]
       else id == Trim(w.outcomes(|h.log|).result.output.stdout) && id != ""
  }

  /** Asked next, docker does not run. */
  ghost predicate Missing(h: Host, name: string, w: World) {
    name != "" && !Runs(w, |h.log|)
  }

  function QueryLines(name: string): seq<seq<string>> {
    if name == "" then [] else [["inspect", "-f", "{{.Id}}", name]]
  }

  lemma QueryExactly(h: Host, ref: string, w: World, id: string)
    requires Proper(h.refs)
    ensures var (next, r) := InspectStep(h, ref, w); var name := Trim(ref);
            && next == h.(log := h.log + QueryLines(name))
            && (r == Ok(Some(id)) <==> Tells(h, name, w, id))
            && (r == Err(DockerMissing) <==> Missing(h, name, w))
            && (r.Err? ==> r.error == DockerMissing)
  {
    var name := Trim(ref);
    Targets(name);
    hide InspectIdArgv, Trim, QueryOf, TargetOf;
    InspectFacts(h, ref, w);
    if name in h.refs {
      TrimLine(h.refs[name]);
    }
  }

  // ---- The guards

  /** A stop or restart that names the container it expects. */
  predicate Guarded(r: Request) {
    (r.action.Stop? || r.action.Restart?) && Present(r.expectedContainerId).Some?
  }

  /** The guards let a request through: the id that docker tells, if a deploy is told one, is the expected one. */
  ghost predicate Admitted(h: Host, r: Request, w: World) {
    var name := Trim(r.containerRef);
    if r.action.Deploy? then !Missing(h, name, w) && forall id :: Tells(h, name, w, id) ==> Matches(r, id, w)
    else Guarded(r) ==> exists id :: Tells(h, name, w, id) && Matches(r, id, w)
  }

  /** Why a request is not let through. */
  ghost predicate Turned(h: Host, r: Request, w: World, response: Response) {
    var name, expected := Trim(r.containerRef), Present(r.expectedContainerId);
    match response
    case Failed(DockerMissing) => Missing(h, name, w)
    case Failed(Occupied(n, id, x)) =>
      r.action.Deploy? && n == name && Some(x) == expected && Tells(h, name, w, id) && !Matches(r, id, w)
    case Skipped(ContainerAbsent) => !r.action.Deploy? && !Missing(h, name, w) && forall id :: !Tells(h, name, w, id)
    case Skipped(ContainerIdMismatch(x, id)) =>
      !r.action.Deploy? && Some(x) == expected && Tells(h, name, w, id) && !Matches(r, id, w)
    case _ => false
  }

  lemma Logged(h: Host, argv: seq<string>, w: World)
    ensures After(h, argv, w).log == h.log + [argv] && After(h, argv, w).files == h.files
  {
    hide TargetOf, Creates;
  }

  lemma TakenDown(h: Host, name: string, w: World)
    ensures StopAndRemove(h, name, w).log == h.log + [["stop", name], ["rm", name]]
    ensures StopAndRemove(h, name, w).files == h.files
  {
    hide After;
    Logged(h, StopArgv(name), w);
    Logged(After(h, StopArgv(name), w), RmArgv(name), w);
  }

  lemma QueryTold(h: Host, ref: string, w: World)
    requires Proper(h.refs) && Trim(ref) == ref
    ensures var (next, r) := InspectStep(h, ref, w);
            && next == h.(log := h.log + QueryLines(ref))
            && (forall id :: Tells(h, ref, w, id) <==> r == Ok(Some(id)))
            && (r.Ok? && r.value.Some? ==> Tells(h, ref, w, r.value.value))
            && (r == Err(DockerMissing) <==> Missing(h, ref, w))
            && (r.Err? ==> r.error == DockerMissing)
  {
    hide InspectStep, Trim, Tells, Missing, QueryLines;
    forall id ensures Tells(h, ref, w, id) <==> InspectStep(h, ref, w).1 == Ok(Some(id)) {
      QueryExactly(h, ref, w, id);
    }
    QueryExactly(h, ref, w, "");
  }

  lemma SkipExactly(h: Host, r: Request, w: World)
    requires Proper(h.refs) && !r.action.Deploy?
    ensures var (next, skip) := SkipStep(h, r, w); var name := Trim(r.containerRef);
            && next == h.(log := h.log + if Guarded(r) then QueryLines(name) else [])
            && (skip.None? <==> Admitted(h, r, w))
            && (skip.Some? ==> Guarded(r) && Turned(h, r, w, skip.value))
  {
    hide InspectStep, Normalize, Trim, Present, Tells, Missing, QueryLines;
    var name := Trim(r.containerRef);
    assert Trim(name) == name && h.log + [] == h.log;
    QueryTold(h, name, w);
    var told := InspectStep(h, name, w).1;
    if Guarded(r) && told.Ok? && told.value.Some? {
      assert Tells(h, name, w, told.value.value);
      assert SkipStep(h, r, w).1.None? <==> Matches(r, told.value.value, w);
    } else if Guarded(r) {
      assert forall id :: !Tells(h, name, w, id);
    }
  }

  /** What a deploy that is let through takes down first: the container that docker knows by its name. */
  ghost function DownLines(h: Host, name: string, w: World): seq<seq<string>> {
    if exists id :: Tells(h, name, w, id) then [["stop", name], ["rm", name]] else []
  }

  lemma PrecleanExactly(h: Host, r: Request, w: World)
    requires Proper(h.refs) && r.action.Deploy?
    ensures var (next, refusal) := PrecleanStep(h, r, w); var name := Trim(r.containerRef);
            && (refusal.None? <==> Admitted(h, r, w))
            && (refusal.Some? ==>
                  next == h.(log := h.log + QueryLines(name)) && Turned(h, r, w, Failed(refusal.value)))
            && next.log == h.log + QueryLines(name) + (if refusal.None? then DownLines(h, name, w) else [])
  {
    hide InspectStep, Normalize, Trim, Present, Tells, Missing, QueryLines, StopAndRemove;
    var name := Trim(r.containerRef);
    assert Trim(name) == name && h.log + QueryLines(name) + [] == h.log + QueryLines(name);
    QueryTold(h, name, w);
    TakenDown(InspectStep(h, name, w).0, name, w);
  }

  // ---- The request's own command

  /** What a command answers is its result: the trimmed output, standard error if standard output is blank. */
  ghost predicate Reports(response: Response, result: RunResult) {
    match result
    case SpawnFailed => response == Failed(DockerMissing)
    case Ran(output) =>
      if !output.success then response == Failed(DockerFailed)
      else response == Done(if Trim(output.stdout) != "" then Trim(output.stdout) else Trim(output.stderr))
  }

  lemma RunReports(h: Host, argv: seq<string>, w: World)
    requires QueryOf(argv).None?
    ensures var (next, response) := RunStep(h, argv, w);
            next.log == h.log + [argv] && Reports(response, w.outcomes(|h.log|).result)
  {
    hide Trim, After, QueryOf;
    Logged(h, argv, w);
  }

  /** A command line that does to the named container what the request asks for. */
  ghost predicate Does(argv: seq<string>, r: Request) {
    match r.action
    case Start => argv == ["start", r.containerRef]
    case Stop => argv == ["stop", r.containerRef]
    case Restart => argv == ["restart", r.containerRef]
    case Inspect => argv == ["inspect", r.containerRef]
    case Logs =>
      && |argv| == 4 && argv[0] == "logs" && argv[1] == "--tail" && argv[3] == r.containerRef
      && ParseUnsigned(argv[2], U32_MAX) == Some(if r.tailLines.None? then 200
                                                 else if r.tailLines.value == 0 then 1 else r.tailLines.value)
    case Deploy => true
  }

  lemma SimpleDoes(r: Request)
    requires !r.action.Deploy?
    ensures Does(SimpleArgv(r), r) && QueryOf(SimpleArgv(r)).None?
  {
    hide Decimal, ParseUnsigned;
    if r.action.Logs? {
      ParseDecimal(AtLeastOne(if r.tailLines.Some? then r.tailLines.value else DEFAULT_TAIL), U32_MAX);
    }
  }

  /** Why a deploy that was let through does not come to `docker run`. */
  ghost predicate Unprepared(r: Request, e: Setting, response: Response) {
    match response
    case Failed(BadSecret) => r.secretEnvVars != [] && !SecretEnv.AllValid(r.secretEnvVars)
    case Failed(SecretFileNotWritten) =>
      r.secretEnvVars != [] && SecretEnv.AllValid(r.secretEnvVars) && !e.writing.Written?
    case Failed(BadCommand) =>
      && (r.secretEnvVars != [] ==> SecretEnv.AllValid(r.secretEnvVars) && e.writing.Written?)
      && !AllStrings(r.command)
    case _ => false
  }

  ghost predicate Prepared(r: Request, e: Setting) {
    (r.secretEnvVars != [] ==> SecretEnv.AllValid(r.secretEnvVars) && e.writing.Written?) && AllStrings(r.command)
  }

  lemma QueryIsInspect(argv: seq<string>)
    ensures QueryOf(argv).Some? ==> argv[0] == "inspect"
  {
    assert |argv| >= 3 ==> argv[..3][0] == argv[0];
  }

  lemma RunIsNoQuery(q: Input)
    requires Within(q.labelOrder, q.request.labels) && AllStrings(q.request.command)
    ensures QueryOf(Arguments(q)).None?
  {
    hide Arguments, QueryOf;
    ArgumentsShape(q);
    QueryIsInspect(Arguments(q));
  }

  /** The deploy's own input: the secret file goes along exactly when there are secrets. */
  function DeployInput(r: Request, e: Setting): Input {
    Input(r, e.labelOrder, if r.secretEnvVars == [] then None else Some(e.path))
  }

  lemma LaunchExactly(h: Host, r: Request, e: Setting, w: World)
    requires Enumerates(e.labelOrder, r.labels.Keys)
    ensures var (next, response) := LaunchStep(h, r, e, w);
            if Prepared(r, e)
            then next.log == h.log + [Arguments(DeployInput(r, e))] && Reports(response, w.outcomes(|h.log|).result)
            else next.log == h.log && Unprepared(r, e, response)
  {
    hide Arguments, RunStep, AllStrings, SecretEnv.AllValid, Reports;
    if Prepared(r, e) {
      RunIsNoQuery(DeployInput(r, e));
      RunReports(h, Arguments(DeployInput(r, e)), w);
      RunReports(h.(files := h.files + {e.path}), Arguments(DeployInput(r, e)), w);
    }
  }

  // ---- The whole request

  /** The command lines of a request that is let through, but for its own. */
  ghost function Before(h: Host, r: Request, w: World): seq<seq<string>> {
    var name := Trim(r.containerRef);
    if r.action.Deploy? then QueryLines(name) + DownLines(h, name, w)
    else if Guarded(r) then QueryLines(name)
    else []
  }

  lemma DeployUnguarded(h: Host, r: Request, w: World)
    requires r.action.Deploy?
    ensures SkipStep(h, r, w) == (h, None)
  {
    hide InspectStep, Normalize, Trim, Present;
  }

  /**
   * Every request: turned away for a cause after no more than the id query, or let through. It then runs its own
   * command, unless a deploy is not prepared, and answers what docker answers to that.
   */
  lemma AnsweredExactly(h: Host, r: Request, e: Setting, w: World)
    requires Proper(h.refs) && Enumerates(e.labelOrder, r.labels.Keys)
    ensures var (after, response) := GeneralStep(h, r, e, w); var n := |h.log + Before(h, r, w)|;
            if !Admitted(h, r, w) then
              after == h.(log := h.log + QueryLines(Trim(r.containerRef))) && Turned(h, r, w, response)
            else if r.action.Deploy? && !Prepared(r, e) then
              after.log == h.log + Before(h, r, w) && Unprepared(r, e, response)
            else
              && |after.log| == n + 1 && after.log[..n] == h.log + Before(h, r, w)
              && (if r.action.Deploy? then after.log[n] == Arguments(DeployInput(r, e)) else Does(after.log[n], r))
              && Reports(response, w.outcomes(n).result)
  {
    hide SkipStep, PrecleanStep, LaunchStep, RunStep, SimpleArgv, Normalize, Trim, Present, Enumerates, Admitted,
         Turned, QueryLines, DownLines, Guarded, Reports, Does, Arguments, Prepared, Unprepared;
    if r.action.Deploy? {
      DeployUnguarded(h, r, w);
      PrecleanExactly(h, r, w);
      LaunchExactly(PrecleanStep(h, r, w).0, r, e, w);
    } else {
      SkipExactly(h, r, w);
      SimpleDoes(r);
      RunReports(SkipStep(h, r, w).0, SimpleArgv(r), w);
    }
  }
}
