/** What a deploy's `docker run` vector says, value by value, against what the request asked for. */
module DeployReading {
  import opened ActionRequest
  import opened DockerArgs
  import opened Integers
  import opened Wrappers
  import opened Text

  datatype Probe = Probe(port: nat, path: string, intervalSecs: nat, timeoutSecs: nat)

  datatype Deployment = Deployment(
    detached: bool,
    name: string,
    network: Option<string>,
    hosts: seq<string>,
    env: seq<string>,
    envFile: Option<string>,
    ports: seq<string>,
    mounts: seq<VolumeMount>,
    labels: map<string, string>,
    memoryMb: nat,
    cpuShares: nat,
    probe: Option<Probe>,
    entrypoint: Option<string>,
    restartPolicy: Option<string>,
    image: string,
    command: seq<string>)

  // ---- Mounts

  /** `host:container`, or `host:container:ro`. */
  function ReadMount(text: string): (r: Option<VolumeMount>) {
    var parts := Split(text, ':');
    if |parts| == 2 then Some(VolumeMount(parts[0], parts[1], false))
    else if |parts| == 3 && parts[2] == "ro" then Some(VolumeMount(parts[0], parts[1], true))
    else None
  }

  function TrimMount(m: VolumeMount): VolumeMount {
    VolumeMount(Trim(m.hostPath), Trim(m.containerPath), m.readOnly)
  }

  predicate ColonFree(m: VolumeMount) {
    Lacks(Trim(m.hostPath), ':') && Lacks(Trim(m.containerPath), ':')
  }

  lemma SplitWhole(s: string, c: char)
    requires Lacks(s, c)
    ensures Split(s, c) == [s]
  {
  }

  lemma MountTextSplit(host: string, container: string)
    requires Lacks(host, ':') && Lacks(container, ':')
    ensures Split(host + [':'] + container, ':') == [host, container]
    ensures Split(host + [':'] + container + ":ro", ':') == [host, container, "ro"]
  {
    SplitWhole(host, ':');
    SplitWhole(container, ':');
    SplitWhole("ro", ':');
    hide Split;
    SplitAppend(host, ':', container);
    SplitAppend(host + [':'] + container, ':', "ro");
    assert ":ro" == [':'] + "ro";
    assert host + [':'] + container + ":ro" == host + [':'] + container + [':'] + "ro";
  }

  /** A mount is read back exactly when neither path holds a colon. */
  lemma MountReadExactly(m: VolumeMount)
    ensures ReadMount(MountText(m)) == Some(TrimMount(m)) <==> ColonFree(m)
  {
    hide Trim, Split;
    SplitPieces(MountText(m), ':');
    if ColonFree(m) {
      MountTextSplit(Trim(m.hostPath), Trim(m.containerPath));
      assert Trim(m.hostPath) + [':'] + Trim(m.containerPath) + ""
          == Trim(m.hostPath) + [':'] + Trim(m.containerPath);
    }
  }

  function ReadMounts(texts: seq<string>): Option<seq<VolumeMount>> {
    if texts == [] then Some([])
    else
      match (ReadMounts(texts[..|texts| - 1]), ReadMount(texts[|texts| - 1]))
      case (Some(before), Some(last)) => Some(before + [last])
      case _ => None
  }

  function TrimMounts(mounts: seq<VolumeMount>): (r: seq<VolumeMount>)
    ensures |r| == |mounts| && forall i :: 0 <= i < |r| ==> r[i] == TrimMount(mounts[i])
  {
    seq(|mounts|, i requires 0 <= i < |mounts| => TrimMount(mounts[i]))
  }

  ghost predicate AllColonFree(mounts: seq<VolumeMount>) {
    forall i :: 0 <= i < |mounts| ==> ColonFree(mounts[i])
  }

  lemma MountTextsSnoc(mounts: seq<VolumeMount>)
    requires mounts != []
    ensures var init, last := MountTexts(mounts[..|mounts| - 1]), MountText(mounts[|mounts| - 1]);
            var texts := MountTexts(mounts);
            |texts| > 0 && texts[..|texts| - 1] == init && texts[|texts| - 1] == last
  {
    hide MountText;
    var init, last := MountTexts(mounts[..|mounts| - 1]), MountText(mounts[|mounts| - 1]);
    assert MountTexts(mounts) == init + [last];
    hide MountTexts;
  }

  lemma TrimMountsSnoc(mounts: seq<VolumeMount>)
    requires mounts != []
    ensures TrimMounts(mounts) == TrimMounts(mounts[..|mounts| - 1]) + [TrimMount(mounts[|mounts| - 1])]
  {
    hide TrimMount;
  }

  lemma ColonFreeSnoc(mounts: seq<VolumeMount>)
    requires mounts != []
    ensures AllColonFree(mounts) <==> AllColonFree(mounts[..|mounts| - 1]) && ColonFree(mounts[|mounts| - 1])
  {
    hide ColonFree;
    var init := mounts[..|mounts| - 1];
    assert forall i :: 0 <= i < |init| ==> mounts[i] == init[i];
  }

  lemma ReadMountsSnoc(texts: seq<string>)
    requires texts != []
    ensures ReadMounts(texts)
         == var (before, last) := (ReadMounts(texts[..|texts| - 1]), ReadMount(texts[|texts| - 1]));
            if before.Some? && last.Some? then Some(before.value + [last.value]) else None
  {
    hide ReadMount;
  }

  lemma {:induction false} MountsReadExactly(mounts: seq<VolumeMount>)
    ensures ReadMounts(MountTexts(mounts)) == Some(TrimMounts(mounts)) <==> AllColonFree(mounts)
  {
    assert mounts == [] ==> ReadMounts(MountTexts(mounts)) == Some([]) && TrimMounts(mounts) == [];
    assert mounts == [] ==> AllColonFree(mounts);
    hide ReadMount, MountText, ColonFree, TrimMount, MountTexts, ReadMounts, AllColonFree, TrimMounts;
    if mounts != [] {
      var n := |mounts| - 1;
      var init, last := mounts[..n], mounts[n];
      MountsReadExactly(init);
      MountReadExactly(last);
      MountTextsSnoc(mounts);
      TrimMountsSnoc(mounts);
      ColonFreeSnoc(mounts);
      ReadMountsSnoc(MountTexts(mounts));
      SnocEqual(ReadMounts(MountTexts(init)), ReadMount(MountText(last)), TrimMounts(init), TrimMount(last));
    }
  }

  lemma SnocEqual(a: Option<seq<VolumeMount>>, x: Option<VolumeMount>, b: seq<VolumeMount>, y: VolumeMount)
    ensures a.Some? && x.Some? && a.value + [x.value] == b + [y] <==> a == Some(b) && x == Some(y)
  {
    if a.Some? && x.Some? && a.value + [x.value] == b + [y] {
      assert (a.value + [x.value])[|a.value|] == x.value && (b + [y])[|b|] == y;
      assert (a.value + [x.value])[..|a.value|] == a.value && (b + [y])[..|b|] == b;
    }
  }

  // ---- Labels

  /** `key=value` entries, cut at the first `=`; a later entry for a key replaces an earlier one. */
  function ReadLabels(texts: seq<string>): Option<map<string, string>> {
    if texts == [] then Some(map[])
    else
      match (ReadLabels(texts[..|texts| - 1]), SplitOnce(texts[|texts| - 1], '='))
      case (Some(before), Some((k, v))) => Some(before[k := v])
      case _ => None
  }

  /** The labels with keys and values trimmed; the order matters when two keys agree after trimming. */
  function TrimLabels(order: seq<string>, labels: map<string, string>): map<string, string>
    requires Within(order, labels)
  {
    if order == [] then map[]
    else
      var k := order[|order| - 1];
      TrimLabels(order[..|order| - 1], labels)[Trim(k) := Trim(labels[k])]
  }

  ghost predicate KeysReadable(order: seq<string>) {
    forall i :: 0 <= i < |order| ==> Lacks(Trim(order[i]), '=')
  }

  lemma {:induction false} ReadKeysLackEquals(texts: seq<string>)
    ensures ReadLabels(texts).Some? ==> forall k :: k in ReadLabels(texts).value ==> Lacks(k, '=')
  {
    hide SplitOnce, Lacks;
    if texts != [] {
      ReadKeysLackEquals(texts[..|texts| - 1]);
    }
  }

  lemma {:induction false} TrimLabelsKeys(order: seq<string>, labels: map<string, string>)
    requires Within(order, labels)
    ensures forall i :: 0 <= i < |order| ==> Trim(order[i]) in TrimLabels(order, labels)
  {
    hide Trim;
    if order != [] {
      TrimLabelsKeys(order[..|order| - 1], labels);
    }
  }

  lemma LabelSplit(k: string, v: string)
    requires Lacks(Trim(k), '=')
    ensures SplitOnce(LabelText(k, v), '=') == Some((Trim(k), Trim(v)))
  {
    hide Trim;
    SplitOnceAfter(Trim(k), '=', Trim(v));
  }

  lemma {:induction false} LabelsRead(order: seq<string>, labels: map<string, string>)
    requires Within(order, labels) && KeysReadable(order)
    ensures ReadLabels(LabelTexts(order, labels)) == Some(TrimLabels(order, labels))
  {
    hide Trim, SplitOnce, LabelText, Lacks;
    if order != [] {
      var n := |order| - 1;
      LabelsRead(order[..n], labels);
      LabelSplit(order[n], labels[order[n]]);
      var texts := LabelTexts(order, labels);
      assert texts[..|texts| - 1] == LabelTexts(order[..n], labels);
      assert texts[|texts| - 1] == LabelText(order[n], labels[order[n]]);
    }
  }

  /** The label map is read back exactly when no trimmed key holds an `=`. */
  lemma LabelsReadExactly(order: seq<string>, labels: map<string, string>)
    requires Within(order, labels)
    ensures ReadLabels(LabelTexts(order, labels)) == Some(TrimLabels(order, labels)) <==> KeysReadable(order)
  {
    hide Trim, ReadLabels, TrimLabels, LabelTexts, Lacks;
    if KeysReadable(order) {
      LabelsRead(order, labels);
    }
    ReadKeysLackEquals(LabelTexts(order, labels));
    TrimLabelsKeys(order, labels);
  }

  ghost predicate TrimmedDistinct(labels: map<string, string>) {
    forall a, b :: a in labels && b in labels && Trim(a) == Trim(b) ==> a == b
  }

  /** Position of the last occurrence, or -1. */
  function LastAt(keys: seq<string>, key: string): (i: int)
    ensures -1 <= i < |keys| && (i >= 0 ==> keys[i] == key)
    ensures forall j :: i < j < |keys| ==> keys[j] != key
  {
    if keys == [] then -1
    else if keys[|keys| - 1] == key then |keys| - 1
    else LastAt(keys[..|keys| - 1], key)
  }

  function Trims(order: seq<string>): (keys: seq<string>)
    ensures |keys| == |order| && forall i :: 0 <= i < |order| ==> keys[i] == Trim(order[i])
  {
    seq(|order|, i requires 0 <= i < |order| => Trim(order[i]))
  }

  lemma {:induction false} TrimLabelsAt(order: seq<string>, labels: map<string, string>, key: string)
    requires Within(order, labels)
    ensures var i := LastAt(Trims(order), key);
            if i < 0 then key !in TrimLabels(order, labels)
            else key in TrimLabels(order, labels) && TrimLabels(order, labels)[key] == Trim(labels[order[i]])
  {
    hide Trim;
    if order != [] {
      TrimLabelsAt(order[..|order| - 1], labels, key);
      assert Trims(order)[..|order| - 1] == Trims(order[..|order| - 1]);
    }
  }

  lemma SameLastLabel(a: seq<string>, b: seq<string>, labels: map<string, string>, key: string)
    requires Enumerates(a, labels.Keys) && Enumerates(b, labels.Keys) && TrimmedDistinct(labels)
    requires LastAt(Trims(a), key) >= 0
    ensures LastAt(Trims(b), key) >= 0 && b[LastAt(Trims(b), key)] == a[LastAt(Trims(a), key)]
  {
    hide Trim, LastAt, Trims;
    var k := a[LastAt(Trims(a), key)];
    assert k in b;
    var j :| 0 <= j < |b| && b[j] == k;
    assert Trims(b)[j] == key;
  }

  /** With keys still distinct once trimmed, the order a hash map yields does not matter. */
  lemma LabelOrderIrrelevant(a: seq<string>, b: seq<string>, labels: map<string, string>)
    requires Enumerates(a, labels.Keys) && Enumerates(b, labels.Keys) && TrimmedDistinct(labels)
    ensures TrimLabels(a, labels) == TrimLabels(b, labels)
  {
    hide Trim, TrimLabels, LastAt, Trims, TrimmedDistinct;
    var x, y := TrimLabels(a, labels), TrimLabels(b, labels);
    forall key ensures key in x <==> key in y
               ensures key in x ==> x[key] == y[key] {
      TrimLabelsAt(a, labels, key);
      TrimLabelsAt(b, labels, key);
      if LastAt(Trims(a), key) >= 0 { SameLastLabel(a, b, labels, key); }
      if LastAt(Trims(b), key) >= 0 { SameLastLabel(b, a, labels, key); }
    }
  }

  // ---- Numbers and the probe

  /** A number with a one-character unit. */
  function ReadQuantity(text: string, unit: char, max: nat): Option<nat> {
    if text != "" && text[|text| - 1] == unit then ParseUnsigned(text[..|text| - 1], max) else None
  }

  lemma QuantityReads(n: nat, unit: char, max: nat)
    requires n <= max
    ensures ReadQuantity(Decimal(n) + [unit], unit, max) == Some(n)
  {
    ParseDecimal(n, max);
    hide Decimal, ParseUnsigned;
    assert (Decimal(n) + [unit])[..|Decimal(n)|] == Decimal(n);
  }

  /** A limit: 0 when its flag is absent. */
  function ReadMemory(values: seq<string>): Option<nat> {
    if values == [] then Some(0) else if |values| == 1 then ReadQuantity(values[0], 'm', U32_MAX) else None
  }

  function ReadShares(values: seq<string>): Option<nat> {
    if values == [] then Some(0) else if |values| == 1 then ParseUnsigned(values[0], U32_MAX) else None
  }

  /** Port and path of the probe command. */
  function ReadProbeCommand(text: string): Option<(nat, string)> {
    var h, t := |PROBE_HEAD|, |PROBE_TAIL|;
    if |text| < h + t || text[..h] != PROBE_HEAD || text[|text| - t..] != PROBE_TAIL then None
    else
      var url := text[h..|text| - t];
      var i := FirstIndex(url, '/');
      match ParseUnsigned(url[..i], U16_MAX)
      case None => None
      case Some(port) => Some((port, url[i..]))
  }

  lemma ProbeUrlReads(port: U16, path: string)
    requires path != "" && path[0] == '/'
    ensures var url := Decimal(port) + path; var i := FirstIndex(url, '/');
            url[..i] == Decimal(port) && url[i..] == path
  {
    hide Decimal;
    var digits := Decimal(port);
    assert Lacks(digits, '/') by {
      assert forall k :: 0 <= k < |digits| ==> IsDigit(digits[k]);
    }
    FirstIndexAfter(digits, '/', path[1..]);
    assert digits + path == digits + ['/'] + path[1..];
  }

  lemma Between(a: string, b: string, c: string)
    ensures var text := a + b + c;
            text[..|a|] == a && text[|text| - |c|..] == c && text[|a|..|text| - |c|] == b
  {
  }

  lemma ProbeCommandReads(h: ContainerHealthCheck)
    ensures ReadProbeCommand(ProbeCommand(h)) == Some((h.internalPort as nat, ProbePath(h.endpoint)))
  {
    ParseDecimal(h.internalPort, U16_MAX);
    hide Decimal, ParseUnsigned, Trim, PROBE_HEAD, PROBE_TAIL, FirstIndex;
    ProbeUrlReads(h.internalPort, ProbePath(h.endpoint));
    var url := Decimal(h.internalPort) + ProbePath(h.endpoint);
    Between(PROBE_HEAD, url, PROBE_TAIL);
  }

  function ReadProbe(cmds: seq<string>, intervals: seq<string>, timeouts: seq<string>): Option<Option<Probe>> {
    if cmds == [] && intervals == [] && timeouts == [] then Some(None)
    else if |cmds| != 1 || |intervals| != 1 || |timeouts| != 1 then None
    else
      match (ReadProbeCommand(cmds[0]), ReadQuantity(intervals[0], 's', U32_MAX),
             ReadQuantity(timeouts[0], 's', U32_MAX))
      case (Some((port, path)), Some(interval), Some(timeout)) => Some(Some(Probe(port, path, interval, timeout)))
      case _ => None
  }

  // ---- The whole

  function Single(values: seq<string>): Option<string> {
    if |values| == 1 then Some(values[0]) else None
  }

  /** A `docker run` vector as a deployment. */
  function Interpret(args: seq<string>): Option<Deployment> {
    match Read(args)
    case None => None
    case Some(i) => Understand(i)
  }

  /** What a `docker run` line says, flag by flag under docker's own names for them. */
  function Understand(i: Invocation): (r: Option<Deployment>)
    ensures r.Some? ==> r.value.image == i.image
  {
    var o := i.options;
    match (ReadMounts(ValuesOf(o, "-v")), ReadLabels(ValuesOf(o, "--label")), ReadMemory(ValuesOf(o, "--memory")),
           ReadShares(ValuesOf(o, "--cpu-shares")),
           ReadProbe(ValuesOf(o, "--health-cmd"), ValuesOf(o, "--health-interval"), ValuesOf(o, "--health-timeout")))
    case (Some(mounts), Some(labels), Some(memory), Some(shares), Some(probe)) =>
      if |ValuesOf(o, "--name")| != 1 then None
      else
        Some(Deployment(i.detached, ValuesOf(o, "--name")[0], Single(ValuesOf(o, "--network")),
                        ValuesOf(o, "--add-host"), ValuesOf(o, "-e"), Single(ValuesOf(o, "--env-file")),
                        ValuesOf(o, "-p"), mounts, labels, memory, shares, probe, Single(ValuesOf(o, "--entrypoint")),
                        Single(ValuesOf(o, "--restart")), i.image, i.command))
    case _ => None
  }

  function Values(i: Invocation, f: Flag): seq<string> {
    ValuesOf(i.options, Token(f))
  }

  lemma PlainTokens()
    ensures Token(Name) == "--name" && Token(Network) == "--network" && Token(AddHost) == "--add-host"
    ensures Token(Env) == "-e" && Token(EnvFile) == "--env-file" && Token(Publish) == "-p"
    ensures Token(Entrypoint) == "--entrypoint" && Token(RestartPolicy) == "--restart"
  {
  }

  lemma ParsedTokens()
    ensures Token(Volume) == "-v" && Token(Label) == "--label" && Token(Memory) == "--memory"
    ensures Token(CpuShares) == "--cpu-shares" && Token(HealthCmd) == "--health-cmd"
    ensures Token(HealthInterval) == "--health-interval" && Token(HealthTimeout) == "--health-timeout"
  {
  }

  /** The probe that a request asks for: on its port and path, a `/` in front if there is none, every second at most. */
  function WantedProbe(r: Request): Option<Probe> {
    if r.healthCheck.None? then None
    else
      var h := r.healthCheck.value;
      var path := Trim(h.endpoint);
      Some(Probe(h.internalPort, if "/" <= path then path else "/" + path,
                 if h.intervalSecs == 0 then 1 else h.intervalSecs, if h.timeoutSecs == 0 then 1 else h.timeoutSecs))
  }

  /** A text that is given and not blank. */
  function GivenText(o: Option<string>): Option<string> {
    if o.Some? && Trim(o.value) != "" then Some(Trim(o.value)) else None
  }

  /** The deployment a request asks for. */
  ghost function Requested(q: Input): Deployment
    requires Within(q.labelOrder, q.request.labels) && AllStrings(q.request.command)
  {
    var r := q.request;
    Deployment(
      true, r.containerRef, GivenText(r.network), NonEmpty(Trims(r.extraHosts)), r.envVars, q.secretFile,
      r.portMappings, TrimMounts(r.volumeMounts), TrimLabels(q.labelOrder, r.labels),
      if r.resourceLimits.Some? then r.resourceLimits.value.memoryMb else 0,
      if r.resourceLimits.Some? then r.resourceLimits.value.cpuShares else 0,
      WantedProbe(r), GivenText(r.entrypoint), GivenText(r.restartPolicy),
      if r.imageRef.Some? then Trim(r.imageRef.value) else "", CommandTexts(r.command))
  }

  lemma NoHosts()
    ensures Hosts([]) == [] && NonEmpty(Trims([])) == []
  {
    assert Trims([]) == [];
  }

  lemma TrimsSnoc(hosts: seq<string>)
    requires hosts != []
    ensures Trims(hosts) == Trims(hosts[..|hosts| - 1]) + [Trim(hosts[|hosts| - 1])]
  {
    hide Trim;
  }

  lemma {:induction false} HostsExactly(hosts: seq<string>)
    ensures Hosts(hosts) == NonEmpty(Trims(hosts))
  {
    NoHosts();
    hide Hosts, Trim, NonEmpty, Trims;
    if hosts != [] {
      var n := |hosts| - 1;
      HostsExactly(hosts[..n]);
      assert hosts[..n + 1] == hosts;
      HostsStep(hosts, n);
      TrimsSnoc(hosts);
      NonEmptyAppend(Trims(hosts[..n]), [Trim(hosts[n])]);
      NonEmptyOne(Trim(hosts[n]));
    }
  }

  lemma PresentExactly(o: Option<string>)
    ensures Present(o) == GivenText(o)
  {
    hide Trim;
  }

  lemma ProbePathExactly(endpoint: string)
    ensures ProbePath(endpoint) == if "/" <= Trim(endpoint) then Trim(endpoint) else "/" + Trim(endpoint)
  {
    hide Trim;
  }

  lemma RequestedTexts(q: Input)
    requires ValidInput(q) && AllStrings(q.request.command)
    ensures var d := Requested(q);
            && d.network == Present(q.request.network) && d.hosts == Hosts(q.request.extraHosts)
            && d.entrypoint == Present(q.request.entrypoint) && d.restartPolicy == Present(q.request.restartPolicy)
            && d.image == Image(q.request)
  {
    hide Present, Hosts, GivenText, TrimMounts, TrimLabels, WantedProbe, CommandTexts, NonEmpty, Trims, Trim;
    PresentExactly(q.request.network);
    PresentExactly(q.request.entrypoint);
    PresentExactly(q.request.restartPolicy);
    HostsExactly(q.request.extraHosts);
  }

  lemma LimitsRead(q: Input)
    requires ValidInput(q)
    ensures var l := q.request.resourceLimits;
            ReadMemory(Wanted(q, Memory)) == Some(if l.Some? then l.value.memoryMb else 0)
            && ReadShares(Wanted(q, CpuShares)) == Some(if l.Some? then l.value.cpuShares else 0)
  {
    if q.request.resourceLimits.Some? {
      QuantityReads(q.request.resourceLimits.value.memoryMb, 'm', U32_MAX);
      ParseDecimal(q.request.resourceLimits.value.cpuShares, U32_MAX);
    }
    hide Decimal, ParseUnsigned, ReadQuantity;
  }

  lemma ProbeReads(q: Input)
    requires ValidInput(q)
    ensures ReadProbe(Wanted(q, HealthCmd), Wanted(q, HealthInterval), Wanted(q, HealthTimeout))
         == Some(WantedProbe(q.request))
  {
    hide Decimal, ReadQuantity, ReadProbeCommand, ProbeCommand, ProbePath, Trim;
    if q.request.healthCheck.Some? {
      var h := q.request.healthCheck.value;
      ProbeCommandReads(h);
      ProbePathExactly(h.endpoint);
      QuantityReads(AtLeastOne(h.intervalSecs), 's', U32_MAX);
      QuantityReads(AtLeastOne(h.timeoutSecs), 's', U32_MAX);
    }
  }

  ghost predicate PlainValues(q: Input, i: Invocation) {
    && Values(i, Name) == [q.request.containerRef]
    && Single(Values(i, Network)) == Present(q.request.network)
    && Values(i, AddHost) == Hosts(q.request.extraHosts)
    && Values(i, Env) == q.request.envVars
    && Single(Values(i, EnvFile)) == q.secretFile
    && Values(i, Publish) == q.request.portMappings
    && Single(Values(i, Entrypoint)) == Present(q.request.entrypoint)
    && Single(Values(i, RestartPolicy)) == Present(q.request.restartPolicy)
  }

  ghost predicate ParsedValues(q: Input, i: Invocation)
    requires ValidInput(q)
  {
    var l := q.request.resourceLimits;
    && Values(i, Volume) == MountTexts(q.request.volumeMounts)
    && Values(i, Label) == LabelTexts(q.labelOrder, q.request.labels)
    && ReadMemory(Values(i, Memory)) == Some(if l.Some? then l.value.memoryMb else 0)
    && ReadShares(Values(i, CpuShares)) == Some(if l.Some? then l.value.cpuShares else 0)
    && ReadProbe(Values(i, HealthCmd), Values(i, HealthInterval), Values(i, HealthTimeout))
       == Some(WantedProbe(q.request))
  }

  lemma SingleOption(o: Option<string>)
    ensures Single(OptionList(o)) == o
  {
  }

  lemma PlainAsked(q: Input, i: Invocation)
    requires ValidInput(q)
    requires forall f: Flag :: Values(i, f) == Wanted(q, f)
    ensures PlainValues(q, i)
  {
    hide Values, Present, Hosts, Single, OptionList, Decimal, ProbeCommand, MountTexts, LabelTexts;
    SingleOption(Present(q.request.network));
    SingleOption(q.secretFile);
    SingleOption(Present(q.request.entrypoint));
    SingleOption(Present(q.request.restartPolicy));
  }

  lemma WantedTexts(q: Input)
    requires ValidInput(q)
    ensures Wanted(q, Volume) == MountTexts(q.request.volumeMounts)
    ensures Wanted(q, Label) == LabelTexts(q.labelOrder, q.request.labels)
  {
    hide MountTexts, LabelTexts;
  }

  lemma ParsedAsked(q: Input, i: Invocation)
    requires ValidInput(q)
    requires forall f: Flag :: Values(i, f) == Wanted(q, f)
    ensures ParsedValues(q, i)
  {
    hide Values, ReadMemory, ReadShares, ReadProbe, Wanted, MountTexts, LabelTexts, WantedProbe, Within;
    WantedTexts(q);
    LimitsRead(q);
    ProbeReads(q);
  }

  lemma PlainNamed(i: Invocation)
    ensures Values(i, Name) == ValuesOf(i.options, "--name") && Values(i, Network) == ValuesOf(i.options, "--network")
    ensures Values(i, AddHost) == ValuesOf(i.options, "--add-host") && Values(i, Env) == ValuesOf(i.options, "-e")
    ensures Values(i, EnvFile) == ValuesOf(i.options, "--env-file") && Values(i, Publish) == ValuesOf(i.options, "-p")
    ensures Values(i, Entrypoint) == ValuesOf(i.options, "--entrypoint")
    ensures Values(i, RestartPolicy) == ValuesOf(i.options, "--restart")
  {
    PlainTokens();
    hide Token, ValuesOf;
  }

  lemma ParsedNamed(i: Invocation)
    ensures Values(i, Volume) == ValuesOf(i.options, "-v") && Values(i, Label) == ValuesOf(i.options, "--label")
    ensures Values(i, Memory) == ValuesOf(i.options, "--memory")
    ensures Values(i, CpuShares) == ValuesOf(i.options, "--cpu-shares")
    ensures Values(i, HealthCmd) == ValuesOf(i.options, "--health-cmd")
    ensures Values(i, HealthInterval) == ValuesOf(i.options, "--health-interval")
    ensures Values(i, HealthTimeout) == ValuesOf(i.options, "--health-timeout")
  {
    ParsedTokens();
    hide Token, ValuesOf;
  }

  /** Everything as requested, mounts and labels as they can be read. */
  lemma UnderstoodFrom(q: Input, i: Invocation)
    requires ValidInput(q) && AllStrings(q.request.command)
    requires PlainValues(q, i) && ParsedValues(q, i)
    requires i.detached && i.image == Image(q.request) && i.command == CommandTexts(q.request.command)
    ensures Understand(i) == Readable(q)
  {
    PlainNamed(i);
    ParsedNamed(i);
    RequestedTexts(q);
    hide Values, ValuesOf, ReadMounts, ReadLabels, ReadMemory, ReadShares, ReadProbe, Single, Present, Hosts,
         MountTexts, LabelTexts, TrimMounts, TrimLabels, Image, CommandTexts, WantedProbe, GivenText, NonEmpty, Trims;
  }

  ghost function Readable(q: Input): Option<Deployment>
    requires ValidInput(q) && AllStrings(q.request.command)
  {
    match (ReadMounts(MountTexts(q.request.volumeMounts)), ReadLabels(LabelTexts(q.labelOrder, q.request.labels)))
    case (Some(mounts), Some(labels)) => Some(Requested(q).(mounts := mounts, labels := labels))
    case _ => None
  }

  lemma Understood(q: Input)
    requires ValidInput(q) && AllStrings(q.request.command)
    ensures Understand(Asked(q)) == Readable(q)
  {
    hide Token, FlagOptions, ValuesOf, Wanted, Understand, Readable, PlainValues, ParsedValues;
    forall f: Flag ensures Values(Asked(q), f) == Wanted(q, f) {
      EveryFlagRead(q, f);
    }
    PlainAsked(q, Asked(q));
    ParsedAsked(q, Asked(q));
    UnderstoodFrom(q, Asked(q));
  }

  lemma ArgumentsStart(q: Input)
    requires ValidInput(q) && AllStrings(q.request.command)
    ensures Arguments(q)[..2] == ["run", "-d"]
  {
    hide Flags, Image, CommandTexts;
  }

  /** The vector says exactly what the request asks for when, and only when, the image does not look like a flag,
    * no mount path holds a colon and no label key an `=`. */
  lemma SaysTheRequestExactly(q: Input)
    requires ValidInput(q) && AllStrings(q.request.command)
    ensures Arguments(q)[..2] == ["run", "-d"]
    ensures Interpret(Arguments(q)) == Some(Requested(q))
       <==> !Dashed(Image(q.request)) && AllColonFree(q.request.volumeMounts) && KeysReadable(q.labelOrder)
  {
    hide Understand, Asked, Arguments, Image, ReadMounts, ReadLabels, MountTexts, LabelTexts, TrimMounts, TrimLabels,
         Dashed, GivenText, NonEmpty, Trims, WantedProbe, CommandTexts, Trim, Present, Hosts;
    ArgumentsStart(q);
    RequestedTexts(q);
    ReadsAsAskedExactly(q);
    Understood(q);
    MountsReadExactly(q.request.volumeMounts);
    LabelsReadExactly(q.labelOrder, q.request.labels);
    if Dashed(Image(q.request)) {
      ImageNeverDashed(Arguments(q));
    }
  }

  lemma ImageNeverDashed(args: seq<string>)
    ensures Interpret(args).Some? ==> !Dashed(Interpret(args).value.image)
  {
    hide Understand;
  }
}
