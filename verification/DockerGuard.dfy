/** Stop, restart and deploy against a docker daemon, guarded by an expected container id. */
module DockerGuard {
  import opened ActionRequest
  import opened DockerArgs
  import opened Integers
  import opened Runner
  import opened Wrappers
  import opened Text
  import SecretEnv

  // ---- The daemon

  datatype Verb = Stopped | Restarted | Removed

  /** A stop, restart or removal that reached a container. */
  datatype Touch = Touch(verb: Verb, id: string)

  /** What the daemon's references (names and ids) resolve to, whom it touched, the command lines it was given,
    * and the secret env files on disk. */
  datatype Host = Host(refs: map<string, string>, touched: seq<Touch>, log: seq<seq<string>>, files: set<string>)

  /** The world's answer to one command: a result, whether the touched container is gone, what `run` made. */
  datatype Outcome = Outcome(result: RunResult, gone: bool, made: map<string, string>)

  /** The answers to all commands, and Unicode lower-casing. */
  datatype World = World(outcomes: nat -> Outcome, lower: string -> string)

  function RestartArgv(name: string): seq<string> {
    ["restart", name]
  }

  function RmArgv(name: string): seq<string> {
    ["rm", name]
  }

  function InspectIdArgv(name: string): seq<string> {
    ["inspect", "-f", "{{.Id}}", name]
  }

  /** The container a command line stops, restarts or removes. */
  function TargetOf(argv: seq<string>): Option<(Verb, string)> {
    if |argv| != 2 then None
    else if argv[0] == "stop" then Some((Stopped, argv[1]))
    else if argv[0] == "restart" then Some((Restarted, argv[1]))
    else if argv[0] == "rm" then Some((Removed, argv[1]))
    else None
  }

  /** The reference a command line asks the container id of. */
  function QueryOf(argv: seq<string>): Option<string> {
    if |argv| == 4 && argv[..3] == ["inspect", "-f", "{{.Id}}"] then Some(argv[3]) else None
  }

  predicate Creates(argv: seq<string>) {
    argv != [] && argv[0] == "run"
  }

  function Without(refs: map<string, string>, id: string): map<string, string> {
    map r | r in refs && refs[r] != id :: refs[r]
  }

  /** A successful id query on a reference that resolves prints the id; every other answer is the world's. */
  function Answer(h: Host, argv: seq<string>, w: World): RunResult {
    var r, q := w.outcomes(|h.log|).result, QueryOf(argv);
    if r.Ran? && r.output.success && q.Some? && q.value in h.refs
    then Ran(r.output.(stdout := h.refs[q.value] + "\n")) else r
  }

  /** What a command leaves behind; `run` makes containers and takes no existing reference away. */
  function After(h: Host, argv: seq<string>, w: World): Host {
    var o, target := w.outcomes(|h.log|), TargetOf(argv);
    var next := h.(log := h.log + [argv]);
    if o.result.SpawnFailed? then next
    else if target.Some? && target.value.1 in h.refs then
      var id := h.refs[target.value.1];
      next.(touched := h.touched + [Touch(target.value.0, id)], refs := if o.gone then Without(h.refs, id) else h.refs)
    else if Creates(argv) then next.(refs := o.made + h.refs)
    else next
  }

  class DockerHost {
    const world: World
    var host: Host

    constructor (world: World, host: Host)
      ensures this.world == world && this.host == host
    {
      this.world, this.host := world, host;
    }

    method Run(argv: seq<string>) returns (r: RunResult)
      modifies this
      ensures r == Answer(old(host), argv, world) && host == After(old(host), argv, world)
    {
      r := Answer(host, argv, world);
      host := After(host, argv, world);
    }
  }

  // ---- Identity

  const SHA256_PREFIX := "sha256:"

  /** `normalize_docker_id`. */
  function Normalize(raw: string, lower: string -> string): string {
    var s := lower(Trim(raw));
    if SHA256_PREFIX <= s then Trim(s[|SHA256_PREFIX|..]) else Trim(s)
  }

  datatype SkipReason = ContainerAbsent | ContainerIdMismatch(expected: string, actual: string)

  datatype Failure =
    | DockerMissing | Occupied(name: string, actual: string, expected: string) | BadSecret | SecretFileNotWritten
    | BadCommand | DockerFailed

  datatype Response = Skipped(reason: SkipReason) | Done(output: string) | Failed(failure: Failure)

  function InspectStep(h: Host, ref: string, w: World): (Host, Result<Option<string>, Failure>) {
    var name := Trim(ref);
    if name == "" then (h, Ok(None))
    else
      var argv := InspectIdArgv(name);
      var r := Answer(h, argv, w);
      (After(h, argv, w),
       if r.SpawnFailed? then Err(DockerMissing)
       else if !r.output.success || Blank(r.output.stdout) then Ok(None)
       else Ok(Some(Trim(r.output.stdout))))
  }

  /** `docker_inspect_container_id`. */
  method InspectContainerId(ref: string, docker: DockerHost) returns (r: Result<Option<string>, Failure>)
    modifies docker
    ensures (docker.host, r) == InspectStep(old(docker.host), ref, docker.world)
  {
    hide Trim, After, Answer, InspectIdArgv;
    var name := Trim(ref);
    if name == "" { return Ok(None); }
    var out := docker.Run(InspectIdArgv(name));
    if out.SpawnFailed? { return Err(DockerMissing); }
    if !out.output.success { return Ok(None); }
    var id := Trim(out.output.stdout);
    return if id == "" then Ok(None) else Ok(Some(id));
  }

  function SkipStep(h: Host, r: Request, w: World): (Host, Option<Response>) {
    var expected := Present(r.expectedContainerId);
    if !(r.action.Stop? || r.action.Restart?) || expected.None? then (h, None)
    else
      var (h1, actual) := InspectStep(h, Trim(r.containerRef), w);
      (h1,
       match actual
       case Err(f) => Some(Failed(f))
       case Ok(None) => Some(Skipped(ContainerAbsent))
       case Ok(Some(id)) =>
         if Normalize(id, w.lower) == Normalize(expected.value, w.lower) then None
         else Some(Skipped(ContainerIdMismatch(expected.value, id))))
  }

  /** `maybe_identity_skip_stop_restart`. */
  method MaybeIdentitySkip(r: Request, docker: DockerHost) returns (skip: Option<Response>)
    modifies docker
    ensures (docker.host, skip) == SkipStep(old(docker.host), r, docker.world)
  {
    hide InspectStep, Normalize, Trim;
    if !(r.action.Stop? || r.action.Restart?) { return None; }
    var expected := Present(r.expectedContainerId);
    if expected.None? { return None; }
    var actual := InspectContainerId(Trim(r.containerRef), docker);
    if actual.Err? { return Some(Failed(actual.error)); }
    if actual.value.None? { return Some(Skipped(ContainerAbsent)); }
    var id := actual.value.value;
    if Normalize(id, docker.world.lower) == Normalize(expected.value, docker.world.lower) { return None; }
    return Some(Skipped(ContainerIdMismatch(expected.value, id)));
  }

  function StopAndRemove(h: Host, name: string, w: World): Host {
    After(After(h, StopArgv(name), w), RmArgv(name), w)
  }

  function PrecleanStep(h: Host, r: Request, w: World): (Host, Option<Failure>) {
    var name, expected := Trim(r.containerRef), Present(r.expectedContainerId);
    var (h1, actual) := InspectStep(h, name, w);
    match actual
    case Err(f) => (h1, Some(f))
    case Ok(None) => (h1, None)
    case Ok(Some(id)) =>
      if expected.Some? && Normalize(id, w.lower) != Normalize(expected.value, w.lower)
      then (h1, Some(Occupied(name, id, expected.value)))
      else (StopAndRemove(h1, name, w), None)
  }

  /** `guarded_deploy_precleanup`. */
  method GuardedDeployPrecleanup(r: Request, docker: DockerHost) returns (refusal: Option<Failure>)
    modifies docker
    ensures (docker.host, refusal) == PrecleanStep(old(docker.host), r, docker.world)
  {
    hide InspectStep, Normalize, Trim, After, StopArgv, RmArgv;
    var name := Trim(r.containerRef);
    var expected := Present(r.expectedContainerId);
    var actual := InspectContainerId(name, docker);
    if actual.Err? { return Some(actual.error); }
    if actual.value.None? { return None; }
    var id := actual.value.value;
    if expected.Some? && Normalize(id, docker.world.lower) != Normalize(expected.value, docker.world.lower) {
      return Some(Occupied(name, id, expected.value));
    }
    var _ := docker.Run(StopArgv(name));
    var _ := docker.Run(RmArgv(name));
    return None;
  }

  // ---- The general action

  const DEFAULT_TAIL: U32 := 200

  /** `docker_args_for_action`, deploys aside. */
  function SimpleArgv(r: Request): seq<string>
    requires !r.action.Deploy?
  {
    match r.action
    case Start => ["start", r.containerRef]
    case Stop => StopArgv(r.containerRef)
    case Restart => RestartArgv(r.containerRef)
    case Logs =>
      var lines := if r.tailLines.Some? then r.tailLines.value else DEFAULT_TAIL;
      ["logs", "--tail", Decimal(AtLeastOne(lines)), r.containerRef]
    case Inspect => ["inspect", r.containerRef]
  }

  function RunStep(h: Host, argv: seq<string>, w: World): (Host, Response) {
    var r := Answer(h, argv, w);
    (After(h, argv, w),
     if r.SpawnFailed? then Failed(DockerMissing)
     else if !r.output.success then Failed(DockerFailed)
     else Done(if Blank(r.output.stdout) then Trim(r.output.stderr) else Trim(r.output.stdout)))
  }

  /** `run_docker_command_with_runner`. */
  method RunDockerCommand(argv: seq<string>, docker: DockerHost) returns (r: Response)
    modifies docker
    ensures (docker.host, r) == RunStep(old(docker.host), argv, docker.world)
  {
    hide Trim, After, Answer;
    var out := docker.Run(argv);
    if out.SpawnFailed? { return Failed(DockerMissing); }
    var stdout, stderr := Trim(out.output.stdout), Trim(out.output.stderr);
    if out.output.success {
      return Done(if stdout == "" then stderr else stdout);
    }
    return Failed(DockerFailed);
  }

  datatype Writing = Written | NotCreated | LeftBehind

  /** What a deploy finds on its host: the order of its label map, the secret file's path, how writing it and
    * removing it go. */
  datatype Setting = Setting(labelOrder: seq<string>, path: string, writing: Writing, removable: bool)

  function FileOf(r: Request, e: Setting): Option<string> {
    if r.secretEnvVars == [] then None else Some(e.path)
  }

  /** From the secret file to `docker run`. */
  ghost function LaunchStep(h: Host, r: Request, e: Setting, w: World): (Host, Response)
    requires Enumerates(e.labelOrder, r.labels.Keys)
  {
    var file := FileOf(r, e);
    if file.Some? && !SecretEnv.AllValid(r.secretEnvVars) then (h, Failed(BadSecret))
    else if file.Some? && e.writing.NotCreated? then (h, Failed(SecretFileNotWritten))
    else
      var h1 := if file.Some? then h.(files := h.files + {e.path}) else h;
      if file.Some? && e.writing.LeftBehind? then (h1, Failed(SecretFileNotWritten))
      else if !AllStrings(r.command) then (h1, Failed(BadCommand))
      else
        var (h2, response) := RunStep(h1, Arguments(Input(r, e.labelOrder, file)), w);
        (if file.Some? && e.removable then h2.(files := h2.files - {e.path}) else h2, response)
  }

  method Launch(r: Request, e: Setting, docker: DockerHost) returns (response: Response)
    requires Enumerates(e.labelOrder, r.labels.Keys)
    modifies docker
    ensures (docker.host, response) == LaunchStep(old(docker.host), r, e, docker.world)
  {
    hide RunStep, Arguments;
    var file := FileOf(r, e);
    if file.Some? {
      var contents := SecretEnv.WriteContents(r.secretEnvVars);
      if contents.Err? { return Failed(BadSecret); }
      if e.writing.NotCreated? { return Failed(SecretFileNotWritten); }
      docker.host := docker.host.(files := docker.host.files + {e.path});
      if e.writing.LeftBehind? { return Failed(SecretFileNotWritten); }
    }
    var args := DeployDockerArgs(Input(r, e.labelOrder, file));
    if args.Err? { return Failed(BadCommand); }
    response := RunDockerCommand(args.value, docker);
    if file.Some? && e.removable {
      docker.host := docker.host.(files := docker.host.files - {e.path});
    }
  }

  ghost function GeneralStep(h: Host, r: Request, e: Setting, w: World): (Host, Response)
    requires Enumerates(e.labelOrder, r.labels.Keys)
  {
    var (h1, skip) := SkipStep(h, r, w);
    if skip.Some? then (h1, skip.value)
    else if !r.action.Deploy? then RunStep(h1, SimpleArgv(r), w)
    else
      var (h2, refusal) := PrecleanStep(h1, r, w);
      if refusal.Some? then (h2, Failed(refusal.value)) else LaunchStep(h2, r, e, w)
  }

  /** `run_general_action`. */
  method RunGeneralAction(r: Request, e: Setting, docker: DockerHost) returns (response: Response)
    requires Enumerates(e.labelOrder, r.labels.Keys)
    modifies docker
    ensures (docker.host, response) == GeneralStep(old(docker.host), r, e, docker.world)
  {
    hide SkipStep, PrecleanStep, LaunchStep, RunStep, SimpleArgv;
    var skip := MaybeIdentitySkip(r, docker);
    if skip.Some? { return skip.value; }
    if r.action.Deploy? {
      var refusal := GuardedDeployPrecleanup(r, docker);
      if refusal.Some? { return Failed(refusal.value); }
      response := Launch(r, e, docker);
    } else {
      response := RunDockerCommand(SimpleArgv(r), docker);
    }
  }
}
