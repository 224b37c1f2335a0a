/** What the expected-id guard is worth: which containers a request reaches, over single requests and over runs. */
module DockerIdentity {
  import opened ActionRequest
  import opened DockerArgs
  import opened DockerGuard
  import opened Runner
  import opened Wrappers
  import opened Text
  import SecretEnv

  /** Docker references and ids are never blank and carry no surrounding whitespace. */
  ghost predicate Proper(refs: map<string, string>) {
    forall r :: r in refs ==> r != "" && Trimmed(r) && refs[r] != "" && Trimmed(refs[r])
  }

  ghost predicate ProperWorld(w: World) {
    forall n :: Proper(w.outcomes(n).made)
  }

  predicate Succeeds(w: World, n: nat) {
    w.outcomes(n).result.Ran? && w.outcomes(n).result.output.success
  }

  predicate Runs(w: World, n: nat) {
    w.outcomes(n).result.Ran?
  }

  // ---- Single commands

  lemma Targets(n: string)
    ensures TargetOf(StopArgv(n)) == Some((Stopped, n)) && TargetOf(RestartArgv(n)) == Some((Restarted, n))
    ensures TargetOf(RmArgv(n)) == Some((Removed, n)) && TargetOf(InspectIdArgv(n)) == None
    ensures QueryOf(InspectIdArgv(n)) == Some(n) && !Creates(InspectIdArgv(n))
    ensures InspectIdArgv(n) == ["inspect", "-f", "{{.Id}}", n]
    ensures !Creates(StopArgv(n)) && !Creates(RestartArgv(n)) && !Creates(RmArgv(n))
  {
  }

  /** After the id query. */
  function Queried(h: Host, name: string): Host {
    h.(log := h.log + [["inspect", "-f", "{{.Id}}", name]])
  }

  /** The id query changes nothing, and a success on a reference that resolves tells its id. */
  lemma InspectFacts(h: Host, ref: string, w: World)
    requires Proper(h.refs)
    ensures var (next, r) := InspectStep(h, ref, w);
            && next == (if Trim(ref) == "" then h else Queried(h, Trim(ref)))
            && (Trim(ref) in h.refs ==> (r == Ok(Some(h.refs[Trim(ref)])) <==> Succeeds(w, |h.log|)))
            && (Trim(ref) in h.refs && Runs(w, |h.log|) && !Succeeds(w, |h.log|) ==> r == Ok(None))
            && (Trim(ref) in h.refs && !Runs(w, |h.log|) ==> r == Err(DockerMissing))
  {
    var name := Trim(ref);
    Targets(name);
    hide InspectIdArgv, Trim, QueryOf, TargetOf;
    if name in h.refs {
      TrimLine(h.refs[name]);
    }
  }

  lemma TrimLine(id: string)
    requires id != "" && Trimmed(id)
    ensures Trim(id + "\n") == id
  {
    hide Trim;
    TrimExactly("", id, "\n");
    assert "" + id + "\n" == id + "\n";
  }

  predicate Submap(small: map<string, string>, big: map<string, string>) {
    forall r :: r in small ==> r in big && small[r] == big[r]
  }

  /** A stop, restart or removal reaches what its reference resolves to, if it resolves and docker ran. */
  lemma TargetFacts(h: Host, argv: seq<string>, w: World)
    requires Proper(h.refs) && TargetOf(argv).Some? && !Creates(argv)
    ensures var (verb, name) := TargetOf(argv).value; var next := After(h, argv, w);
            next.touched == h.touched
              + (if name in h.refs && Runs(w, |h.log|) then [Touch(verb, h.refs[name])] else [])
            && |next.log| == |h.log| + 1 && next.files == h.files
            && Submap(next.refs, h.refs) && Proper(next.refs)
  {
    hide TargetOf, Creates;
  }

  lemma ArgumentsShape(q: Input)
    requires Within(q.labelOrder, q.request.labels) && AllStrings(q.request.command)
    ensures TargetOf(Arguments(q)) == None && Creates(Arguments(q))
  {
    hide Flags, Image, DETACH;
    var rest := Flags(q, FLAGS) + ([Image(q.request)] + CommandTexts(q.request.command));
    assert |rest| >= 1 && Arguments(q)[0] == "run";
  }

  lemma RunFacts(h: Host, argv: seq<string>, w: World)
    requires Proper(h.refs) && TargetOf(argv) == None && Creates(argv)
    ensures var next := RunStep(h, argv, w).0;
            next.touched == h.touched && Submap(h.refs, next.refs) && (ProperWorld(w) ==> Proper(next.refs))
  {
    hide TargetOf, Creates, Trim;
  }

  /** `docker run` adds containers and touches none. */
  lemma LaunchFacts(h: Host, r: Request, e: Setting, w: World)
    requires Enumerates(e.labelOrder, r.labels.Keys) && Proper(h.refs)
    ensures var next := LaunchStep(h, r, e, w).0;
            next.touched == h.touched && Submap(h.refs, next.refs) && (ProperWorld(w) ==> Proper(next.refs))
  {
    hide Arguments, TargetOf, Creates, AllStrings, RunStep, Proper, ProperWorld;
    if AllStrings(r.command) {
      var argv := Arguments(Input(r, e.labelOrder, FileOf(r, e)));
      ArgumentsShape(Input(r, e.labelOrder, FileOf(r, e)));
      RunFacts(h, argv, w);
      RunFacts(h.(files := h.files + {e.path}), argv, w);
    }
  }

  // ---- Single requests

  ghost predicate Matches(r: Request, id: string, w: World) {
    var expected := Present(r.expectedContainerId);
    expected.Some? ==> Normalize(id, w.lower) == Normalize(expected.value, w.lower)
  }

  /** Everything reached since is the container a reference resolved to. */
  ghost predicate OnlyAt(before: Host, after: Host, name: string) {
    && before.touched <= after.touched
    && forall k :: |before.touched| <= k < |after.touched| ==>
         name in before.refs && after.touched[k].id == before.refs[name]
  }

  /** Only the container the request's name resolved to is reached, and only if it has the expected id. */
  ghost predicate ReachesOnly(before: Host, after: Host, r: Request, w: World) {
    var name := Trim(r.containerRef);
    && OnlyAt(before, after, name)
    && (before.touched != after.touched ==> name in before.refs && Matches(r, before.refs[name], w))
  }

  lemma SkipFacts(h: Host, r: Request, w: World)
    requires Proper(h.refs)
    ensures var (next, skip) := SkipStep(h, r, w); var name := Trim(r.containerRef);
            var guarded := (r.action.Stop? || r.action.Restart?) && Present(r.expectedContainerId).Some?;
            next == h.(log := next.log)
            && (!guarded ==> skip.None? && next == h)
            && (guarded && name in h.refs ==>
                  |next.log| == |h.log| + 1
                  && (skip.None? <==> Succeeds(w, |h.log|) && Matches(r, h.refs[name], w)))
  {
    hide InspectStep, Normalize, Trim, Present;
    InspectFacts(h, Trim(r.containerRef), w);
    assert Trim(Trim(r.containerRef)) == Trim(r.containerRef);
  }

  lemma StopAndRemoveFacts(h: Host, name: string, w: World)
    requires Proper(h.refs)
    ensures var next := StopAndRemove(h, name, w);
            next.touched == h.touched
              + (if name in h.refs && Runs(w, |h.log|) then [Touch(Stopped, h.refs[name])] else [])
              + (if name in h.refs && name in After(h, StopArgv(name), w).refs && Runs(w, |h.log| + 1)
                 then [Touch(Removed, h.refs[name])] else [])
            && Submap(next.refs, h.refs) && Proper(next.refs) && |next.log| == |h.log| + 2
  {
    Targets(name);
    hide After, StopArgv, RmArgv, TargetOf, Creates, Runs;
    TargetFacts(h, StopArgv(name), w);
    var h1 := After(h, StopArgv(name), w);
    TargetFacts(h1, RmArgv(name), w);
  }

  lemma StopAndRemoveOnly(h: Host, h1: Host, name: string, w: World)
    requires Proper(h.refs) && h1 == h.(log := h1.log)
    ensures var next := StopAndRemove(h1, name, w);
            OnlyAt(h, next, name) && Proper(next.refs) && Submap(next.refs, h.refs)
            && (name !in h.refs ==> next.touched == h.touched)
  {
    hide StopAndRemove, Proper, Submap, Runs, Trimmed, After, StopArgv;
    StopAndRemoveFacts(h1, name, w);
  }

  lemma PrecleanFacts(h: Host, r: Request, w: World)
    requires Proper(h.refs)
    ensures var (next, refusal) := PrecleanStep(h, r, w);
            ReachesOnly(h, next, r, w) && Proper(next.refs) && Submap(next.refs, h.refs)
  {
    hide InspectStep, Normalize, Trim, Present, StopAndRemove, Proper, Runs, Succeeds;
    var name := Trim(r.containerRef);
    InspectFacts(h, name, w);
    assert Trim(name) == name;
    StopAndRemoveOnly(h, InspectStep(h, name, w).0, name, w);
  }

  lemma SimpleFacts(h: Host, r: Request, w: World)
    requires Proper(h.refs) && !r.action.Deploy?
    ensures var next := RunStep(h, SimpleArgv(r), w).0; var ref := r.containerRef;
            next.touched == h.touched
              + (if (r.action.Stop? || r.action.Restart?) && ref in h.refs && Runs(w, |h.log|)
                 then [Touch(if r.action.Stop? then Stopped else Restarted, h.refs[ref])] else [])
            && Submap(next.refs, h.refs) && Proper(next.refs)
  {
    Targets(r.containerRef);
    if r.action.Stop? || r.action.Restart? {
      TargetFacts(h, SimpleArgv(r), w);
    } else {
      HarmlessArgv(r);
    }
    hide TargetOf, Creates, SimpleArgv, Trim;
  }

  lemma HarmlessArgv(r: Request)
    requires r.action.Start? || r.action.Logs? || r.action.Inspect?
    ensures TargetOf(SimpleArgv(r)) == None && !Creates(SimpleArgv(r))
  {
    hide Decimal;
  }

  /** Whatever the request and the world, only a container with the expected id is stopped, restarted or removed. */
  lemma GuardHolds(h: Host, r: Request, e: Setting, w: World)
    requires Proper(h.refs) && Enumerates(e.labelOrder, r.labels.Keys)
    ensures ReachesOnly(h, GeneralStep(h, r, e, w).0, r, w)
  {
    hide SkipStep, PrecleanStep, LaunchStep, RunStep, SimpleArgv, Normalize, Trim, Present, Enumerates;
    SkipFacts(h, r, w);
    var h1 := SkipStep(h, r, w).0;
    if r.action.Deploy? {
      PrecleanFacts(h1, r, w);
      LaunchFacts(PrecleanStep(h1, r, w).0, r, e, w);
    } else {
      SimpleFacts(h1, r, w);
    }
  }

  lemma StaysProper(h: Host, r: Request, e: Setting, w: World)
    requires Proper(h.refs) && ProperWorld(w) && Enumerates(e.labelOrder, r.labels.Keys)
    ensures Proper(GeneralStep(h, r, e, w).0.refs)
  {
    hide SkipStep, PrecleanStep, LaunchStep, RunStep, SimpleArgv, Enumerates, ReachesOnly;
    SkipFacts(h, r, w);
    var h1 := SkipStep(h, r, w).0;
    if r.action.Deploy? {
      PrecleanFacts(h1, r, w);
      LaunchFacts(PrecleanStep(h1, r, w).0, r, e, w);
    } else {
      SimpleFacts(h1, r, w);
    }
  }

  /** A guarded stop or restart acts exactly when the id query succeeds with the expected id, docker runs the
    * command, and the reference was given without surrounding whitespace. */
  lemma StopsExactly(h: Host, r: Request, e: Setting, w: World)
    requires Proper(h.refs) && Enumerates(e.labelOrder, r.labels.Keys)
    requires (r.action.Stop? || r.action.Restart?) && Present(r.expectedContainerId).Some?
    ensures var ref := r.containerRef;
            GeneralStep(h, r, e, w).0.touched != h.touched
            <==> ref in h.refs && Succeeds(w, |h.log|) && Matches(r, h.refs[ref], w) && Runs(w, |h.log| + 1)
  {
    hide SkipStep, RunStep, SimpleArgv, Normalize, Trim, Present, Matches, Enumerates, Succeeds, Runs;
    SkipFacts(h, r, w);
    SimpleFacts(SkipStep(h, r, w).0, r, w);
    if r.containerRef in h.refs {
      assert Trim(r.containerRef) == r.containerRef;
    }
  }

  /** A deploy whose name belongs to a container with another id is refused, and the daemon stays as it was. */
  lemma MismatchedDeployRefused(h: Host, r: Request, e: Setting, w: World)
    requires Proper(h.refs) && Enumerates(e.labelOrder, r.labels.Keys) && r.action.Deploy?
    requires var name := Trim(r.containerRef);
             name in h.refs && !Matches(r, h.refs[name], w) && Succeeds(w, |h.log|)
    ensures var name := Trim(r.containerRef); var expected := Present(r.expectedContainerId);
            GeneralStep(h, r, e, w)
            == (Queried(h, name), Failed(Occupied(name, h.refs[name], expected.value)))
  {
    hide InspectStep, LaunchStep, StopAndRemove, Normalize, Trim, Enumerates, Succeeds, Present;
    var name := Trim(r.containerRef);
    assert Trim(name) == name;
    InspectFacts(h, name, w);
  }

  /** Docker answers the id query, and the deploy may take the name. */
  ghost predicate Cleared(h: Host, r: Request, w: World) {
    var name := Trim(r.containerRef);
    name in h.refs && Succeeds(w, |h.log|) && Matches(r, h.refs[name], w)
  }

  lemma ClearedPreclean(h: Host, r: Request, w: World)
    requires Proper(h.refs) && Cleared(h, r, w)
    ensures PrecleanStep(h, r, w) == (StopAndRemove(Queried(h, Trim(r.containerRef)), Trim(r.containerRef), w), None)
  {
    hide InspectStep, Normalize, Trim, Present, StopAndRemove, Succeeds;
    InspectFacts(h, Trim(r.containerRef), w);
    assert Trim(Trim(r.containerRef)) == Trim(r.containerRef);
  }

  lemma UnclearedPreclean(h: Host, r: Request, w: World)
    requires Proper(h.refs) && !Cleared(h, r, w)
    ensures PrecleanStep(h, r, w).0.touched == h.touched
  {
    hide InspectStep, Normalize, Trim, Present, StopAndRemove, Succeeds, Runs, Proper, Matches, Submap;
    PrecleanFacts(h, r, w);
    InspectFacts(h, Trim(r.containerRef), w);
    assert Trim(Trim(r.containerRef)) == Trim(r.containerRef);
  }

  /**
   * What a deploy stops and removes is settled before its secrets and command are looked at: a deploy rejected
   * for those has already taken the old container down.
   */
  lemma DeployRemovesBeforeChecking(h: Host, r: Request, e: Setting, w: World)
    requires Proper(h.refs) && Enumerates(e.labelOrder, r.labels.Keys) && r.action.Deploy?
    ensures GeneralStep(h, r, e, w).0.touched
         == if Cleared(h, r, w) then StopAndRemove(Queried(h, Trim(r.containerRef)), Trim(r.containerRef), w).touched
            else h.touched
    ensures Cleared(h, r, w) && Runs(w, |h.log| + 1) ==> GeneralStep(h, r, e, w).0.touched != h.touched
    ensures Cleared(h, r, w) && r.secretEnvVars == [] && !AllStrings(r.command) ==>
              GeneralStep(h, r, e, w).1 == Failed(BadCommand)
    ensures Cleared(h, r, w) && r.secretEnvVars != [] && !SecretEnv.AllValid(r.secretEnvVars) ==>
              GeneralStep(h, r, e, w).1 == Failed(BadSecret)
  {
    hide InspectStep, Normalize, Trim, Present, StopAndRemove, PrecleanStep, Proper, Runs, Succeeds, Matches, Arguments,
      RunStep, Enumerates;
    if Cleared(h, r, w) {
      ClearedPreclean(h, r, w);
    } else {
      UnclearedPreclean(h, r, w);
    }
    PrecleanFacts(h, r, w);
    LaunchFacts(PrecleanStep(h, r, w).0, r, e, w);
    StopAndRemoveFacts(Queried(h, Trim(r.containerRef)), Trim(r.containerRef), w);
  }

  lemma RunKeepsFiles(h: Host, argv: seq<string>, w: World)
    ensures RunStep(h, argv, w).0.files == h.files
  {
    hide TargetOf, Creates, Trim;
  }

  /** The short-lived secret file outlives the launch exactly when its permissions could not be set, its removal
    * failed, or the command was rejected after it had been written. */
  lemma SecretFileLeftExactly(h: Host, r: Request, e: Setting, w: World)
    requires Enumerates(e.labelOrder, r.labels.Keys) && e.path !in h.files
    ensures e.path in LaunchStep(h, r, e, w).0.files
       <==> r.secretEnvVars != [] && SecretEnv.AllValid(r.secretEnvVars)
            && (e.writing.LeftBehind? || (e.writing.Written? && (!AllStrings(r.command) || !e.removable)))
    ensures forall file :: file != e.path ==> (file in LaunchStep(h, r, e, w).0.files <==> file in h.files)
  {
    hide RunStep, Arguments, AllStrings;
    if AllStrings(r.command) {
      var argv := Arguments(Input(r, e.labelOrder, FileOf(r, e)));
      RunKeepsFiles(h, argv, w);
      RunKeepsFiles(h.(files := h.files + {e.path}), argv, w);
    }
  }

  // ---- Hexadecimal ids

  predicate LowerHexDigit(c: char) {
    IsDigit(c) || 'a' <= c <= 'f'
  }

  predicate HexId(s: string) {
    s != "" && forall i :: 0 <= i < |s| ==> LowerHexDigit(s[i])
  }

  /** A hexadecimal id in any case, bare or with its digest prefix, blanks around it. */
  ghost predicate Denotes(raw: string, id: string, lower: string -> string) {
    HexId(id) && (lower(Trim(raw)) == id || lower(Trim(raw)) == "sha256:" + id)
  }

  lemma HexTrimmed(id: string)
    requires HexId(id)
    ensures id != "" && Trimmed(id) && id[0] != 's'
  {
    assert LowerHexDigit(id[0]) && LowerHexDigit(id[|id| - 1]);
  }

  lemma Prefixed(prefix: string, id: string)
    requires prefix != "" && !IsWhitespace(prefix[0]) && id != "" && Trimmed(id)
    ensures prefix <= prefix + id && (prefix + id)[|prefix|..] == id
  {
  }

  lemma PrefixStart()
    ensures SHA256_PREFIX == "sha256:" && SHA256_PREFIX[0] == 's' && !IsWhitespace(SHA256_PREFIX[0])
  {
  }

  /** The normal form of such an id is the id itself. */
  lemma NormalizeHex(raw: string, id: string, lower: string -> string)
    requires Denotes(raw, id, lower)
    ensures Normalize(raw, lower) == id
  {
    hide SHA256_PREFIX, Trim, Trimmed, HexId, IsWhitespace;
    HexTrimmed(id);
    PrefixStart();
    Prefixed(SHA256_PREFIX, id);
  }

  /** So an expected hexadecimal id matches exactly itself: an abbreviated id never does. */
  lemma HexMatchesExactly(r: Request, actual: string, w: World, id: string, wanted: string)
    requires Present(r.expectedContainerId).Some? && Denotes(Present(r.expectedContainerId).value, wanted, w.lower)
    requires Denotes(actual, id, w.lower)
    ensures Matches(r, actual, w) <==> id == wanted
  {
    hide Normalize, Present, Denotes;
    NormalizeHex(actual, id, w.lower);
    NormalizeHex(Present(r.expectedContainerId).value, wanted, w.lower);
  }

  // ---- Runs

  /** A served request, or whatever other actors turned the containers into between two requests. */
  datatype Event = Serve(request: Request, setting: Setting) | Others(refs: map<string, string>)

  ghost predicate ProperEvent(ev: Event) {
    match ev
    case Serve(r, e) => Enumerates(e.labelOrder, r.labels.Keys)
    case Others(refs) => Proper(refs)
  }

  ghost function Happen(h: Host, ev: Event, w: World): Host
    requires ProperEvent(ev)
  {
    match ev
    case Serve(r, e) => GeneralStep(h, r, e, w).0
    case Others(refs) => h.(refs := refs)
  }

  ghost predicate ProperEvents(evs: seq<Event>) {
    forall i :: 0 <= i < |evs| ==> ProperEvent(evs[i])
  }

  ghost function Unfold(h: Host, evs: seq<Event>, w: World): Host
    requires ProperEvents(evs)
  {
    if evs == [] then h else Happen(Unfold(h, evs[..|evs| - 1], w), evs[|evs| - 1], w)
  }

  lemma {:induction false} RunStaysProper(h: Host, evs: seq<Event>, w: World)
    requires Proper(h.refs) && ProperWorld(w) && ProperEvents(evs)
    ensures Proper(Unfold(h, evs, w).refs)
  {
    hide GeneralStep, Proper, ProperWorld;
    if evs != [] {
      var init, last := evs[..|evs| - 1], evs[|evs| - 1];
      RunStaysProper(h, init, w);
      if last.Serve? {
        StaysProper(Unfold(h, init, w), last.request, last.setting, w);
      }
    }
  }

  /** The `j`-th touch of a run came from its `k`-th event, a request for that very container, with its expected id. */
  ghost predicate Accounts(h: Host, evs: seq<Event>, w: World, k: nat, j: nat)
    requires ProperEvents(evs) && k < |evs| && j < |Unfold(h, evs, w).touched|
  {
    && evs[k].Serve?
    && var before, r := Unfold(h, evs[..k], w), evs[k].request; var name := Trim(r.containerRef);
    && |before.touched| <= j < |Unfold(h, evs[..k + 1], w).touched|
    && name in before.refs && Unfold(h, evs, w).touched[j].id == before.refs[name]
    && Matches(r, before.refs[name], w)
  }

  /** The log of a run only grows. */
  lemma {:induction false} LogGrows(h: Host, evs: seq<Event>, w: World)
    requires Proper(h.refs) && ProperWorld(w) && ProperEvents(evs) && evs != []
    ensures Unfold(h, evs[..|evs| - 1], w).touched <= Unfold(h, evs, w).touched
    ensures evs[|evs| - 1].Others? ==> Unfold(h, evs[..|evs| - 1], w).touched == Unfold(h, evs, w).touched
    ensures evs[|evs| - 1].Serve? ==>
              ReachesOnly(Unfold(h, evs[..|evs| - 1], w), Unfold(h, evs, w), evs[|evs| - 1].request, w)
  {
    hide GeneralStep, Proper, ProperWorld, Matches;
    var init, last := evs[..|evs| - 1], evs[|evs| - 1];
    RunStaysProper(h, init, w);
    if last.Serve? {
      GuardHolds(Unfold(h, init, w), last.request, last.setting, w);
    }
  }

  lemma StillAccounts(h: Host, evs: seq<Event>, w: World, k: nat, j: nat)
    requires ProperEvents(evs) && evs != [] && k < |evs| - 1
    requires j < |Unfold(h, evs[..|evs| - 1], w).touched| && Accounts(h, evs[..|evs| - 1], w, k, j)
    requires Unfold(h, evs[..|evs| - 1], w).touched <= Unfold(h, evs, w).touched
    ensures Accounts(h, evs, w, k, j)
  {
    hide Unfold, Matches, Trim;
    var init := evs[..|evs| - 1];
    assert evs[..k] == init[..k] && evs[..k + 1] == init[..k + 1] && evs[k] == init[k];
  }

  lemma LastAccounts(h: Host, evs: seq<Event>, w: World, j: nat)
    requires Proper(h.refs) && ProperWorld(w) && ProperEvents(evs) && evs != []
    requires |Unfold(h, evs[..|evs| - 1], w).touched| <= j < |Unfold(h, evs, w).touched|
    ensures Accounts(h, evs, w, |evs| - 1, j)
  {
    hide Unfold, Matches, Trim, Proper, ProperWorld, ProperEvents;
    LogGrows(h, evs, w);
    assert evs[..|evs|] == evs;
  }

  /** On every run, with other actors in between, every stop, restart and removal is accounted for. */
  lemma {:induction false} EveryTouchAccounted(h: Host, evs: seq<Event>, w: World, j: nat)
    requires Proper(h.refs) && ProperWorld(w) && ProperEvents(evs)
    requires |h.touched| <= j < |Unfold(h, evs, w).touched|
    ensures exists k :: 0 <= k < |evs| && Accounts(h, evs, w, k, j)
  {
    assert evs != [];
    hide Unfold, Proper, ProperWorld, Accounts, Matches;
    var init := evs[..|evs| - 1];
    if j < |Unfold(h, init, w).touched| {
      EveryTouchAccounted(h, init, w, j);
      var k :| 0 <= k < |init| && Accounts(h, init, w, k, j);
      LogGrows(h, evs, w);
      StillAccounts(h, evs, w, k, j);
    } else {
      LastAccounts(h, evs, w, j);
    }
  }
}
