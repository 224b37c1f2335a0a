/** `docker run` argument vectors for deploys, and what reading them back gives. */
module DockerArgs {
  import opened ActionRequest
  import opened Integers
  import opened JsonValue
  import opened Wrappers
  import opened Text

  datatype Flag =
    | Name | Network | AddHost | Env | EnvFile | Publish | Volume | Label | Memory | CpuShares
    | HealthCmd | HealthInterval | HealthTimeout | Entrypoint | RestartPolicy

  const FLAGS: nat := 15

  function FlagAt(k: nat): Flag
    requires k < FLAGS
  {
    if k == 0 then Name else if k == 1 then Network else if k == 2 then AddHost else if k == 3 then Env
    else if k == 4 then EnvFile else if k == 5 then Publish else if k == 6 then Volume else if k == 7 then Label
    else if k == 8 then Memory else if k == 9 then CpuShares else if k == 10 then HealthCmd
    else if k == 11 then HealthInterval else if k == 12 then HealthTimeout else if k == 13 then Entrypoint
    else RestartPolicy
  }

  function Position(f: Flag): (k: nat)
    ensures k < FLAGS && FlagAt(k) == f
    ensures forall j :: 0 <= j < FLAGS && FlagAt(j) == f ==> j == k
  {
    match f
    case Name => 0 case Network => 1 case AddHost => 2 case Env => 3 case EnvFile => 4 case Publish => 5
    case Volume => 6 case Label => 7 case Memory => 8 case CpuShares => 9 case HealthCmd => 10
    case HealthInterval => 11 case HealthTimeout => 12 case Entrypoint => 13 case RestartPolicy => 14
  }

  function Token(f: Flag): string {
    match f
    case Name => "--name" case Network => "--network" case AddHost => "--add-host" case Env => "-e"
    case EnvFile => "--env-file" case Publish => "-p" case Volume => "-v" case Label => "--label"
    case Memory => "--memory" case CpuShares => "--cpu-shares" case HealthCmd => "--health-cmd"
    case HealthInterval => "--health-interval" case HealthTimeout => "--health-timeout"
    case Entrypoint => "--entrypoint" case RestartPolicy => "--restart"
  }

  const DETACH := "-d"

  /** Length and third character, which already tell the flags apart (the second one for the short flags). */
  function Mark(f: Flag): (int, char) {
    match f
    case Name => (6, 'n') case Network => (9, 'n') case AddHost => (10, 'a') case Env => (2, 'e')
    case EnvFile => (10, 'e') case Publish => (2, 'p') case Volume => (2, 'v') case Label => (7, 'l')
    case Memory => (8, 'm') case CpuShares => (12, 'c') case HealthCmd => (12, 'h')
    case HealthInterval => (17, 'h') case HealthTimeout => (16, 'h') case Entrypoint => (12, 'e')
    case RestartPolicy => (9, 'r')
  }

  lemma TokenMark(f: Flag)
    ensures |Token(f)| == Mark(f).0 && Token(f)[0] == '-'
    ensures Token(f)[if |Token(f)| == 2 then 1 else 2] == Mark(f).1
  {
  }

  lemma TokenFacts(f: Flag)
    ensures Dashed(Token(f)) && Token(f) != DETACH
  {
    TokenMark(f);
    hide Token;
  }

  lemma TokenInjective(f: Flag, g: Flag)
    requires Token(f) == Token(g)
    ensures f == g
  {
    TokenMark(f);
    TokenMark(g);
    hide Token;
  }

  predicate Dashed(s: string) {
    s != "" && s[0] == '-'
  }

  // ---- What a request asks for, flag by flag

  /** What the builder is given: the request, the order its label map happens to yield, and the secret file. */
  datatype Input = Input(request: Request, labelOrder: seq<string>, secretFile: Option<string>)

  ghost predicate Enumerates(order: seq<string>, keys: set<string>) {
    (forall i :: 0 <= i < |order| ==> order[i] in keys)
    && (forall k :: k in keys ==> k in order)
    && forall i, j :: 0 <= i < j < |order| ==> order[i] != order[j]
  }

  ghost predicate ValidInput(q: Input) {
    Enumerates(q.labelOrder, q.request.labels.Keys)
  }

  function Hosts(hosts: seq<string>): seq<string> {
    if hosts == [] then []
    else
      var h := hosts[|hosts| - 1];
      if Blank(h) then Hosts(hosts[..|hosts| - 1]) else Hosts(hosts[..|hosts| - 1]) + [Trim(h)]
  }

  function MountText(m: VolumeMount): string {
    Trim(m.hostPath) + [':'] + Trim(m.containerPath) + if m.readOnly then ":ro" else ""
  }

  function MountTexts(mounts: seq<VolumeMount>): seq<string> {
    if mounts == [] then [] else MountTexts(mounts[..|mounts| - 1]) + [MountText(mounts[|mounts| - 1])]
  }

  function LabelText(k: string, v: string): string {
    Trim(k) + ['='] + Trim(v)
  }

  ghost predicate Within(order: seq<string>, labels: map<string, string>) {
    forall i :: 0 <= i < |order| ==> order[i] in labels
  }

  function LabelTexts(order: seq<string>, labels: map<string, string>): seq<string>
    requires Within(order, labels)
  {
    if order == [] then []
    else
      var k := order[|order| - 1];
      LabelTexts(order[..|order| - 1], labels) + [LabelText(k, labels[k])]
  }

  function ProbePath(endpoint: string): string {
    var path := Trim(endpoint);
    if path != "" && path[0] == '/' then path else ['/'] + path
  }

  const PROBE_HEAD := "wget -q -O /dev/null http://127.0.0.1:"
  const PROBE_TAIL := " || exit 1"

  function ProbeCommand(h: ContainerHealthCheck): string {
    PROBE_HEAD + (Decimal(h.internalPort) + ProbePath(h.endpoint)) + PROBE_TAIL
  }

  function AtLeastOne(n: U32): U32 {
    if n == 0 then 1 else n
  }

  function OptionList(o: Option<string>): seq<string> {
    if o.Some? then [o.value] else []
  }

  /** The values a flag is to be given, in order. */
  function Wanted(q: Input, f: Flag): seq<string>
    requires Within(q.labelOrder, q.request.labels)
  {
    var r := q.request;
    match f
    case Name => [r.containerRef]
    case Network => OptionList(Present(r.network))
    case AddHost => Hosts(r.extraHosts)
    case Env => r.envVars
    case EnvFile => OptionList(q.secretFile)
    case Publish => r.portMappings
    case Volume => MountTexts(r.volumeMounts)
    case Label => LabelTexts(q.labelOrder, r.labels)
    case Memory =>
      if r.resourceLimits.Some? && r.resourceLimits.value.memoryMb > 0
      then [Decimal(r.resourceLimits.value.memoryMb) + ['m']] else []
    case CpuShares =>
      if r.resourceLimits.Some? && r.resourceLimits.value.cpuShares > 0
      then [Decimal(r.resourceLimits.value.cpuShares)] else []
    case HealthCmd => if r.healthCheck.Some? then [ProbeCommand(r.healthCheck.value)] else []
    case HealthInterval =>
      if r.healthCheck.Some? then [Decimal(AtLeastOne(r.healthCheck.value.intervalSecs)) + ['s']] else []
    case HealthTimeout =>
      if r.healthCheck.Some? then [Decimal(AtLeastOne(r.healthCheck.value.timeoutSecs)) + ['s']] else []
    case Entrypoint => OptionList(Present(r.entrypoint))
    case RestartPolicy => OptionList(Present(r.restartPolicy))
  }

  function Image(r: Request): string {
    if r.imageRef.Some? then Trim(r.imageRef.value) else ""
  }

  ghost predicate AllStrings(command: seq<Json>) {
    forall i :: 0 <= i < |command| ==> command[i].Str?
  }

  ghost function CommandTexts(command: seq<Json>): (r: seq<string>)
    requires AllStrings(command)
    ensures |r| == |command| && forall i :: 0 <= i < |r| ==> command[i] == Str(r[i])
  {
    seq(|command|, i requires 0 <= i < |command| => command[i].s)
  }

  // ---- The vector

  function Pairs(token: string, values: seq<string>): seq<string> {
    if values == [] then [] else Pairs(token, values[..|values| - 1]) + [token, values[|values| - 1]]
  }

  /** Pushing a flag and then its value. */
  lemma Pushed(args: seq<string>, token: string, values: seq<string>, v: string)
    ensures args + Pairs(token, values) + [token] + [v] == args + Pairs(token, values + [v])
  {
    assert (values + [v])[..|values|] == values;
  }

  lemma NonePushed(args: seq<string>, token: string)
    ensures args + Pairs(token, []) == args
  {
  }

  lemma HostsStep(hosts: seq<string>, i: nat)
    requires i < |hosts|
    ensures Hosts(hosts[..i + 1]) == if Blank(hosts[i]) then Hosts(hosts[..i]) else Hosts(hosts[..i]) + [Trim(hosts[i])]
  {
    assert hosts[..i + 1][..i] == hosts[..i];
  }

  lemma MountsStep(mounts: seq<VolumeMount>, i: nat)
    requires i < |mounts|
    ensures MountTexts(mounts[..i + 1]) == MountTexts(mounts[..i]) + [MountText(mounts[i])]
  {
    assert mounts[..i + 1][..i] == mounts[..i];
  }

  lemma LabelsStep(order: seq<string>, labels: map<string, string>, i: nat)
    requires i < |order| && Within(order, labels)
    ensures LabelTexts(order[..i + 1], labels)
         == LabelTexts(order[..i], labels) + [LabelText(order[i], labels[order[i]])]
  {
    assert order[..i + 1][..i] == order[..i];
  }

  /** The first `k` flags with their values. */
  function Flags(q: Input, k: nat): seq<string>
    requires k <= FLAGS && Within(q.labelOrder, q.request.labels)
  {
    if k == 0 then [] else Flags(q, k - 1) + Pairs(Token(FlagAt(k - 1)), Wanted(q, FlagAt(k - 1)))
  }

  ghost function Arguments(q: Input): seq<string>
    requires Within(q.labelOrder, q.request.labels) && AllStrings(q.request.command)
  {
    ["run", DETACH] + (Flags(q, FLAGS) + ([Image(q.request)] + CommandTexts(q.request.command)))
  }

  /** `deploy_command_strings`: the error is the first value that is not a string. */
  method DeployCommandStrings(command: seq<Json>) returns (r: Result<seq<string>, Json>)
    ensures r.Ok? <==> AllStrings(command)
    ensures r.Ok? ==> r.value == CommandTexts(command)
    ensures r.Err? ==> exists i :: 0 <= i < |command| && command[i] == r.error && !command[i].Str?
                                   && AllStrings(command[..i])
  {
    var out := [];
    for i := 0 to |command|
      invariant |out| == i && forall j :: 0 <= j < i ==> command[j] == Str(out[j])
    {
      if !command[i].Str? { return Err(command[i]); }
      out := out + [command[i].s];
    }
    assert out == CommandTexts(command);
    return Ok(out);
  }

  lemma HostPushed(args: seq<string>, hosts: seq<string>, i: nat)
    requires i < |hosts|
    ensures var before := args + Pairs(Token(AddHost), Hosts(hosts[..i]));
            args + Pairs(Token(AddHost), Hosts(hosts[..i + 1]))
            == if Trim(hosts[i]) == "" then before else before + [Token(AddHost)] + [Trim(hosts[i])]
  {
    hide Trim, Token, Hosts, Pairs;
    HostsStep(hosts, i);
    Pushed(args, Token(AddHost), Hosts(hosts[..i]), Trim(hosts[i]));
  }

  method PushHosts(args: seq<string>, hosts: seq<string>) returns (r: seq<string>)
    ensures r == args + Pairs(Token(AddHost), Hosts(hosts))
  {
    NonePushed(args, Token(AddHost));
    assert Hosts(hosts[..0]) == [] && hosts[..|hosts|] == hosts;
    hide Trim, Token, Hosts, Pairs;
    r := args;
    for i := 0 to |hosts|
      invariant r == args + Pairs(Token(AddHost), Hosts(hosts[..i]))
    {
      HostPushed(args, hosts, i);
      var h := Trim(hosts[i]);
      if h != "" {
        r := r + [Token(AddHost)];
        r := r + [h];
      }
    }
  }

  /** The loops over the environment entries and over the port mappings, which take each value as it is. */
  method PushEach(args: seq<string>, f: Flag, values: seq<string>) returns (r: seq<string>)
    ensures r == args + Pairs(Token(f), values)
  {
    NonePushed(args, Token(f));
    assert values[..0] == [] && values[..|values|] == values;
    hide Token, Pairs;
    r := args;
    for i := 0 to |values|
      invariant r == args + Pairs(Token(f), values[..i])
    {
      assert values[..i + 1] == values[..i] + [values[i]];
      Pushed(args, Token(f), values[..i], values[i]);
      r := r + [Token(f)];
      r := r + [values[i]];
    }
  }

  method PushMounts(args: seq<string>, mounts: seq<VolumeMount>) returns (r: seq<string>)
    ensures r == args + Pairs(Token(Volume), MountTexts(mounts))
  {
    NonePushed(args, Token(Volume));
    assert MountTexts(mounts[..0]) == [] && mounts[..|mounts|] == mounts;
    hide Trim, Token, MountTexts, Pairs;
    r := args;
    for i := 0 to |mounts|
      invariant r == args + Pairs(Token(Volume), MountTexts(mounts[..i]))
    {
      MountsStep(mounts, i);
      var spec := Trim(mounts[i].hostPath) + [':'] + Trim(mounts[i].containerPath);
      if mounts[i].readOnly {
        spec := spec + ":ro";
      }
      assert spec == MountText(mounts[i]);
      Pushed(args, Token(Volume), MountTexts(mounts[..i]), spec);
      r := r + [Token(Volume)];
      r := r + [spec];
    }
  }

  method PushLabels(args: seq<string>, order: seq<string>, labels: map<string, string>) returns (r: seq<string>)
    requires Within(order, labels)
    ensures r == args + Pairs(Token(Label), LabelTexts(order, labels))
  {
    NonePushed(args, Token(Label));
    assert LabelTexts(order[..0], labels) == [] && order[..|order|] == order;
    hide LabelText, Token, LabelTexts, Pairs;
    r := args;
    for i := 0 to |order|
      invariant r == args + Pairs(Token(Label), LabelTexts(order[..i], labels))
    {
      LabelsStep(order, labels, i);
      var text := LabelText(order[i], labels[order[i]]);
      Pushed(args, Token(Label), LabelTexts(order[..i], labels), text);
      r := r + [Token(Label)];
      r := r + [text];
    }
  }

  method PushOptional(args: seq<string>, f: Flag, value: Option<string>) returns (r: seq<string>)
    ensures r == args + Pairs(Token(f), OptionList(value))
  {
    NonePushed(args, Token(f));
    hide Token, Pairs;
    r := args;
    if value.Some? {
      Pushed(args, Token(f), [], value.value);
      assert [] + [value.value] == [value.value];
      r := r + [Token(f)];
      r := r + [value.value];
    }
  }

  lemma FlagsStep(q: Input, f: Flag, args: seq<string>, next: seq<string>)
    requires Within(q.labelOrder, q.request.labels)
    requires args == ["run", DETACH] + Flags(q, Position(f))
    requires next == args + Pairs(Token(f), Wanted(q, f))
    ensures next == ["run", DETACH] + Flags(q, Position(f) + 1)
  {
    hide Wanted, Token, Pairs;
  }

  lemma OnePushed(args: seq<string>, token: string, v: string)
    ensures args + [token] + [v] == args + Pairs(token, [v])
  {
    Pushed(args, token, [], v);
    assert [] + [v] == [v];
  }

  method PushLimits(q: Input, args: seq<string>) returns (r: seq<string>)
    requires Within(q.labelOrder, q.request.labels)
    ensures r == args + Pairs(Token(Memory), Wanted(q, Memory)) + Pairs(Token(CpuShares), Wanted(q, CpuShares))
  {
    NonePushed(args, Token(Memory));
    hide Token, Pairs, Decimal;
    r := args;
    if q.request.resourceLimits.Some? {
      var lim := q.request.resourceLimits.value;
      if lim.memoryMb > 0 {
        OnePushed(r, Token(Memory), Decimal(lim.memoryMb) + ['m']);
        r := r + [Token(Memory)];
        r := r + [Decimal(lim.memoryMb) + ['m']];
      }
      NonePushed(r, Token(CpuShares));
      if lim.cpuShares > 0 {
        OnePushed(r, Token(CpuShares), Decimal(lim.cpuShares));
        r := r + [Token(CpuShares)];
        r := r + [Decimal(lim.cpuShares)];
      }
    } else {
      NonePushed(r, Token(CpuShares));
    }
  }

  method PushHealth(q: Input, args: seq<string>) returns (r: seq<string>)
    requires Within(q.labelOrder, q.request.labels)
    ensures r == args + Pairs(Token(HealthCmd), Wanted(q, HealthCmd))
                 + Pairs(Token(HealthInterval), Wanted(q, HealthInterval))
                 + Pairs(Token(HealthTimeout), Wanted(q, HealthTimeout))
  {
    NonePushed(args, Token(HealthCmd));
    NonePushed(args, Token(HealthInterval));
    NonePushed(args, Token(HealthTimeout));
    hide Token, Pairs, Decimal, ProbeCommand;
    r := args;
    if q.request.healthCheck.Some? {
      var h := q.request.healthCheck.value;
      var cmd, interval, timeout :=
        ProbeCommand(h), Decimal(AtLeastOne(h.intervalSecs)) + ['s'], Decimal(AtLeastOne(h.timeoutSecs)) + ['s'];
      OnePushed(r, Token(HealthCmd), cmd);
      r := r + [Token(HealthCmd)];
      r := r + [cmd];
      OnePushed(r, Token(HealthInterval), interval);
      r := r + [Token(HealthInterval)];
      r := r + [interval];
      OnePushed(r, Token(HealthTimeout), timeout);
      r := r + [Token(HealthTimeout)];
      r := r + [timeout];
    }
  }

  lemma FirstFlag(q: Input)
    requires Within(q.labelOrder, q.request.labels)
    ensures ["run", DETACH, Token(Name), q.request.containerRef] == ["run", DETACH] + Flags(q, Position(Network))
  {
    OnePushed(["run", DETACH], Token(Name), q.request.containerRef);
    assert Flags(q, 0) == [];
    FlagsStep(q, Name, ["run", DETACH], ["run", DETACH] + Pairs(Token(Name), Wanted(q, Name)));
  }

  /** From the network to the labels. */
  method PushPlacement(q: Input, start: seq<string>) returns (args: seq<string>)
    requires Within(q.labelOrder, q.request.labels)
    requires start == ["run", DETACH] + Flags(q, Position(Network))
    ensures args == ["run", DETACH] + Flags(q, Position(Memory))
  {
    hide Flags, Token, Pairs, Present, DETACH, FlagAt, Hosts, MountTexts, LabelTexts;
    args := PushOptional(start, Network, Present(q.request.network));
    FlagsStep(q, Network, start, args);
    var before := args;
    args := PushHosts(args, q.request.extraHosts);
    FlagsStep(q, AddHost, before, args);
    before := args;
    args := PushEach(args, Env, q.request.envVars);
    FlagsStep(q, Env, before, args);
    before := args;
    args := PushOptional(args, EnvFile, q.secretFile);
    FlagsStep(q, EnvFile, before, args);
    before := args;
    args := PushEach(args, Publish, q.request.portMappings);
    FlagsStep(q, Publish, before, args);
    before := args;
    args := PushMounts(args, q.request.volumeMounts);
    FlagsStep(q, Volume, before, args);
    before := args;
    args := PushLabels(args, q.labelOrder, q.request.labels);
    FlagsStep(q, Label, before, args);
  }

  /** From the limits to the health timeout. */
  method PushRuntime(q: Input, start: seq<string>) returns (args: seq<string>)
    requires Within(q.labelOrder, q.request.labels)
    requires start == ["run", DETACH] + Flags(q, Position(Memory))
    ensures args == ["run", DETACH] + Flags(q, Position(Entrypoint))
  {
    hide Flags, Token, Pairs, DETACH, FlagAt, Wanted;
    args := PushLimits(q, start);
    var before := start + Pairs(Token(Memory), Wanted(q, Memory));
    FlagsStep(q, Memory, start, before);
    FlagsStep(q, CpuShares, before, args);
    before := args;
    args := PushHealth(q, args);
    var next := before + Pairs(Token(HealthCmd), Wanted(q, HealthCmd));
    FlagsStep(q, HealthCmd, before, next);
    before := next + Pairs(Token(HealthInterval), Wanted(q, HealthInterval));
    FlagsStep(q, HealthInterval, next, before);
    FlagsStep(q, HealthTimeout, before, args);
  }

  /** The entrypoint and the restart policy. */
  method PushPolicies(q: Input, start: seq<string>) returns (args: seq<string>)
    requires Within(q.labelOrder, q.request.labels)
    requires start == ["run", DETACH] + Flags(q, Position(Entrypoint))
    ensures args == ["run", DETACH] + Flags(q, FLAGS)
  {
    hide Flags, Token, Pairs, Present, DETACH, FlagAt;
    args := PushOptional(start, Entrypoint, Present(q.request.entrypoint));
    FlagsStep(q, Entrypoint, start, args);
    var before := args;
    args := PushOptional(args, RestartPolicy, Present(q.request.restartPolicy));
    FlagsStep(q, RestartPolicy, before, args);
  }

  lemma Closed(flags: seq<string>, image: string, command: seq<string>)
    ensures ["run", DETACH] + flags + [image] + command == ["run", DETACH] + (flags + ([image] + command))
  {
  }

  /** `deploy_docker_args`. */
  method DeployDockerArgs(q: Input) returns (r: Result<seq<string>, Json>)
    requires ValidInput(q)
    ensures r.Ok? <==> AllStrings(q.request.command)
    ensures r.Ok? ==> r.value == Arguments(q)
  {
    hide Flags, Token, DETACH, Image, AllStrings, CommandTexts;
    FirstFlag(q);
    var args := ["run", DETACH, Token(Name), q.request.containerRef];
    args := PushPlacement(q, args);
    args := PushRuntime(q, args);
    args := PushPolicies(q, args);
    args := args + [Image(q.request)];
    var command := DeployCommandStrings(q.request.command);
    if command.Err? { return Err(command.error); }
    Closed(Flags(q, FLAGS), Image(q.request), command.value);
    args := args + command.value;
    return Ok(args);
  }

  // ---- Reading a vector back

  /** A `docker run` line: whether `-d` was given, the other flags with their values, image and command. */
  datatype Invocation =
    Invocation(detached: bool, options: seq<(string, string)>, image: string, command: seq<string>)

  /** After `run`: `-d` stands alone, every other dashed token takes a value, the first plain token is the image. */
  function ReadRun(args: seq<string>): (r: Option<Invocation>)
    ensures r.Some? ==> !Dashed(r.value.image)
    decreases |args|
  {
    if args == [] then None
    else if !Dashed(args[0]) then Some(Invocation(false, [], args[0], args[1..]))
    else if args[0] == DETACH then
      match ReadRun(args[1..])
      case None => None
      case Some(i) => Some(i.(detached := true))
    else if |args| == 1 then None
    else
      match ReadRun(args[2..])
      case None => None
      case Some(i) => Some(i.(options := [(args[0], args[1])] + i.options))
  }

  function Read(args: seq<string>): Option<Invocation> {
    if args != [] && args[0] == "run" then ReadRun(args[1..]) else None
  }

  /** The values of one flag, in order. */
  function ValuesOf(options: seq<(string, string)>, token: string): seq<string> {
    if options == [] then []
    else (if options[0].0 == token then [options[0].1] else []) + ValuesOf(options[1..], token)
  }

  lemma Regroup(a: seq<string>, b: seq<string>, c: seq<string>)
    ensures a + (b + c) == a + b + c
  {
  }

  lemma {:induction false} ValuesAppend(a: seq<(string, string)>, b: seq<(string, string)>, token: string)
    ensures ValuesOf(a + b, token) == ValuesOf(a, token) + ValuesOf(b, token)
  {
    assert a == [] ==> a + b == b && ValuesOf(a, token) + ValuesOf(b, token) == ValuesOf(b, token);
    hide ValuesOf;
    if a != [] {
      ValuesAppend(a[1..], b, token);
      assert (a + b)[1..] == a[1..] + b && (a + b)[0] == a[0];
      FirstValue(a, token);
      FirstValue(a + b, token);
      Regroup(if a[0].0 == token then [a[0].1] else [], ValuesOf(a[1..], token), ValuesOf(b, token));
    }
  }

  lemma FirstValue(options: seq<(string, string)>, token: string)
    requires options != []
    ensures ValuesOf(options, token)
         == (if options[0].0 == token then [options[0].1] else []) + ValuesOf(options[1..], token)
  {
  }

  function Options(token: string, values: seq<string>): (r: seq<(string, string)>)
    ensures |r| == |values| && forall i :: 0 <= i < |r| ==> r[i] == (token, values[i])
  {
    seq(|values|, i requires 0 <= i < |values| => (token, values[i]))
  }

  lemma {:induction false} ValuesOfOptions(token: string, values: seq<string>, other: string)
    ensures ValuesOf(Options(token, values), other) == if token == other then values else []
  {
    if values != [] {
      ValuesOfOptions(token, values[1..], other);
      assert Options(token, values)[1..] == Options(token, values[1..]);
      assert values == [values[0]] + values[1..];
    }
  }

  lemma ReadOption(token: string, v: string, rest: seq<string>, i: Invocation)
    requires Dashed(token) && token != DETACH && ReadRun(rest) == Some(i)
    ensures ReadRun([token, v] + rest) == Some(i.(options := [(token, v)] + i.options))
  {
    var args := [token, v] + rest;
    assert args[0] == token && args[1] == v && args[2..] == rest;
  }

  lemma ReadRegrouped(a: seq<string>, b: seq<string>, c: seq<string>, x: seq<(string, string)>,
                      y: seq<(string, string)>, i: Invocation)
    requires ReadRun(a + (b + c)) == Some(i.(options := x + (y + i.options)))
    ensures ReadRun(a + b + c) == Some(i.(options := x + y + i.options))
  {
    hide ReadRun;
    assert a + b + c == a + (b + c);
    assert x + y + i.options == x + (y + i.options);
  }

  lemma LastPair(token: string, init: seq<string>, last: string)
    ensures Pairs(token, init + [last]) == Pairs(token, init) + [token, last]
    ensures Options(token, init + [last]) == Options(token, init) + [(token, last)]
  {
    assert (init + [last])[..|init|] == init;
  }

  lemma {:induction false} ReadPairs(token: string, values: seq<string>, rest: seq<string>, i: Invocation)
    requires Dashed(token) && token != DETACH && ReadRun(rest) == Some(i)
    ensures ReadRun(Pairs(token, values) + rest) == Some(i.(options := Options(token, values) + i.options))
  {
    assert values == [] ==> Pairs(token, values) + rest == rest && Options(token, values) + i.options == i.options;
    hide ReadRun, Pairs, Dashed, DETACH, Options;
    if values != [] {
      var init, last := values[..|values| - 1], values[|values| - 1];
      ReadOption(token, last, rest, i);
      ReadPairs(token, init, [token, last] + rest, i.(options := [(token, last)] + i.options));
      ReadRegrouped(Pairs(token, init), [token, last], rest, Options(token, init), [(token, last)], i);
      LastPair(token, init, last);
      assert init + [last] == values;
    }
  }

  function FlagOptions(q: Input, k: nat): seq<(string, string)>
    requires k <= FLAGS && Within(q.labelOrder, q.request.labels)
  {
    if k == 0 then [] else FlagOptions(q, k - 1) + Options(Token(FlagAt(k - 1)), Wanted(q, FlagAt(k - 1)))
  }

  lemma ReadNoFlags(q: Input, rest: seq<string>, i: Invocation)
    requires Within(q.labelOrder, q.request.labels)
    ensures Flags(q, 0) + rest == rest && i.(options := FlagOptions(q, 0) + i.options) == i
  {
    assert FlagOptions(q, 0) + i.options == i.options;
  }

  lemma {:induction false} ReadFlags(q: Input, k: nat, rest: seq<string>, i: Invocation)
    requires k <= FLAGS && Within(q.labelOrder, q.request.labels) && ReadRun(rest) == Some(i)
    ensures ReadRun(Flags(q, k) + rest) == Some(i.(options := FlagOptions(q, k) + i.options))
  {
    hide ReadRun, Token, Wanted, FlagAt, Pairs, Options;
    if k == 0 {
      ReadNoFlags(q, rest, i);
    } else {
      var f := FlagAt(k - 1);
      TokenFacts(f);
      var pairs, options := Pairs(Token(f), Wanted(q, f)), Options(Token(f), Wanted(q, f));
      ReadPairs(Token(f), Wanted(q, f), rest, i);
      ReadFlags(q, k - 1, pairs + rest, i.(options := options + i.options));
      ReadRegrouped(Flags(q, k - 1), pairs, rest, FlagOptions(q, k - 1), options, i);
    }
  }

  lemma FlagValuesStep(before: seq<(string, string)>, g: Flag, values: seq<string>, f: Flag)
    ensures ValuesOf(before + Options(Token(g), values), Token(f))
         == ValuesOf(before, Token(f)) + if g == f then values else []
  {
    hide Token, ValuesOf, Options;
    ValuesAppend(before, Options(Token(g), values), Token(f));
    ValuesOfOptions(Token(g), values, Token(f));
    if Token(g) == Token(f) {
      TokenInjective(g, f);
    }
  }

  lemma {:induction false} FlagValues(q: Input, k: nat, f: Flag)
    requires k <= FLAGS && Within(q.labelOrder, q.request.labels)
    ensures ValuesOf(FlagOptions(q, k), Token(f)) == if Position(f) < k then Wanted(q, f) else []
  {
    hide Token, Wanted, FlagAt, Options, Position;
    if k > 0 {
      var g := FlagAt(k - 1);
      FlagValues(q, k - 1, f);
      FlagValuesStep(FlagOptions(q, k - 1), g, Wanted(q, g), f);
      assert g == f <==> Position(f) == k - 1;
    }
  }

  /** What a deploy asks docker for, as a vector: detached, the flags, image and command. */
  ghost function Asked(q: Input): Invocation
    requires Within(q.labelOrder, q.request.labels) && AllStrings(q.request.command)
  {
    Invocation(true, FlagOptions(q, FLAGS), Image(q.request), CommandTexts(q.request.command))
  }

  lemma ReadPlain(image: string, command: seq<string>)
    requires !Dashed(image)
    ensures ReadRun([image] + command) == Some(Invocation(false, [], image, command))
  {
    assert ([image] + command)[1..] == command;
  }

  lemma ReadDetached(flags: seq<string>, i: Invocation)
    requires ReadRun(flags) == Some(i)
    ensures Read(["run", DETACH] + flags) == Some(i.(detached := true))
  {
    assert Dashed(DETACH);
    var args := [DETACH] + flags;
    assert args[0] == DETACH && args[1..] == flags;
    assert ReadRun(args) == Some(i.(detached := true));
    hide ReadRun;
    assert (["run", DETACH] + flags)[1..] == args;
  }

  lemma NeverDashed(args: seq<string>)
    ensures Read(args).Some? ==> !Dashed(Read(args).value.image)
  {
  }

  /** The vector reads as what was asked exactly when the image does not look like a flag. */
  lemma ReadsAsAskedExactly(q: Input)
    requires ValidInput(q) && AllStrings(q.request.command)
    ensures Read(Arguments(q)) == Some(Asked(q)) <==> !Dashed(Image(q.request))
  {
    hide ReadRun, Read, Flags, FlagOptions, Dashed, Image, DETACH;
    var image, command := Image(q.request), CommandTexts(q.request.command);
    NeverDashed(Arguments(q));
    if !Dashed(image) {
      var plain := Invocation(false, [], image, command);
      ReadPlain(image, command);
      ReadFlags(q, FLAGS, [image] + command, plain);
      assert FlagOptions(q, FLAGS) + [] == FlagOptions(q, FLAGS);
      ReadDetached(Flags(q, FLAGS) + ([image] + command), plain.(options := FlagOptions(q, FLAGS)));
    }
  }

  /** Every flag is then read with the values the request wants for it, and no others. */
  lemma EveryFlagRead(q: Input, f: Flag)
    requires ValidInput(q)
    ensures ValuesOf(FlagOptions(q, FLAGS), Token(f)) == Wanted(q, f)
  {
    FlagValues(q, FLAGS, f);
  }
}
