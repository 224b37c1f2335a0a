/** Moving the keys of one Redis Cluster slot: list up to a batch of them, then migrate what was listed. */
module SlotKeys {
  import opened Integers
  import opened Wrappers
  import opened Text
  import opened TemplatedParams
  import opened Runner

  const BATCH: nat := 100
  const MIGRATE_TIMEOUT_MS := "5000"

  function GetKeysArgv(c: string, slot: nat): seq<string> {
    ["exec", c, "redis-cli", "CLUSTER", "GETKEYSINSLOT", Decimal(slot), Decimal(BATCH)]
  }

  function MigrateArgv(c: string, p: Params, keys: seq<string>): seq<string> {
    ["exec", c, "redis-cli", "MIGRATE", p.primaryHost, Decimal(p.primaryPort), "", "0", MIGRATE_TIMEOUT_MS,
     "KEYS"] + keys
  }

  // ---- Reading the listed keys

  predicate NoBlank(s: string) {
    forall i :: 0 <= i < |s| ==> !IsWhitespace(s[i])
  }

  function FirstBlank(s: string, k: nat): (i: nat)
    requires k <= |s|
    ensures k <= i <= |s| && (i < |s| ==> IsWhitespace(s[i])) && forall j :: k <= j < i ==> !IsWhitespace(s[j])
    decreases |s| - k
  {
    if k == |s| || IsWhitespace(s[k]) then k else FirstBlank(s, k + 1)
  }

  function SplitBlank(s: string): seq<string>
    decreases |s|
  {
    var i := FirstBlank(s, 0);
    if i == |s| then [s] else [s[..i]] + SplitBlank(s[i + 1..])
  }

  /** `parse_getkeysinslot_keys`: cut at every whitespace character, drop the empty pieces. */
  function ParseKeys(stdout: string): seq<string> {
    NonEmpty(SplitBlank(stdout))
  }

  /** `templated_redis_key_allowed`. */
  predicate KeyAllowed(key: string) {
    key != "" && Utf8Len(key) <= 512 && NoneForbidden(key)
  }

  /** The keys that survive being printed, cut and checked. */
  predicate Movable(key: string) {
    key != "" && Utf8Len(key) <= 512 && NoneForbidden(key) && NoBlank(key)
  }

  lemma {:induction false} PiecesNoBlank(s: string)
    ensures forall k :: 0 <= k < |SplitBlank(s)| ==> NoBlank(SplitBlank(s)[k])
    decreases |s|
  {
    var i := FirstBlank(s, 0);
    if i < |s| {
      PiecesNoBlank(s[i + 1..]);
    }
  }

  lemma {:induction false} NonEmptyKeeps(parts: seq<string>)
    requires forall k :: 0 <= k < |parts| ==> NoBlank(parts[k])
    ensures forall k :: 0 <= k < |NonEmpty(parts)| ==> NoBlank(NonEmpty(parts)[k]) && NonEmpty(parts)[k] != ""
  {
    if parts != [] {
      NonEmptyKeeps(parts[1..]);
    }
  }

  lemma SplitBlankAfter(a: string, c: char, rest: string)
    requires NoBlank(a) && IsWhitespace(c)
    ensures SplitBlank(a + [c] + rest) == [a] + SplitBlank(rest)
  {
    var s := a + [c] + rest;
    assert s[|a|] == c;
    assert FirstBlank(s, 0) == |a|;
    assert s[..|a|] == a && s[|a| + 1..] == rest;
  }

  lemma {:induction false} SplitPrinted(keys: seq<string>)
    requires keys != [] && forall k :: 0 <= k < |keys| ==> NoBlank(keys[k])
    ensures SplitBlank(Join(keys, "\n")) == keys
  {
    if |keys| == 1 {
      assert SplitBlank(keys[0]) == [keys[0]];
    } else {
      SplitPrinted(keys[1..]);
      SplitBlankAfter(keys[0], '\n', Join(keys[1..], "\n"));
      assert keys == [keys[0]] + keys[1..];
    }
  }

  /** Keys without whitespace are read back exactly as they were printed, one to a line. */
  lemma ParsePrinted(keys: seq<string>)
    requires forall k :: 0 <= k < |keys| ==> NoBlank(keys[k]) && keys[k] != ""
    ensures ParseKeys(Join(keys, "\n")) == keys
  {
    if keys == [] {
      assert SplitBlank("") == [""];
    } else {
      SplitPrinted(keys);
      NonEmptyUnchanged(keys);
    }
  }

  /** A listing is read back as the keys that were printed if and only if none is empty or holds whitespace. */
  lemma ParsesBackExactly(keys: seq<string>)
    ensures ParseKeys(Join(keys, "\n")) == keys <==> forall k :: 0 <= k < |keys| ==> NoBlank(keys[k]) && keys[k] != ""
  {
    var stdout := Join(keys, "\n");
    PiecesNoBlank(stdout);
    NonEmptyKeeps(SplitBlank(stdout));
    hide SplitBlank, NonEmpty, Join, NoBlank;
    if forall k :: 0 <= k < |keys| ==> NoBlank(keys[k]) && keys[k] != "" {
      ParsePrinted(keys);
    }
  }

  // ---- The runner trims what a command prints

  lemma BlankInFront(c: char, s: string)
    requires IsWhitespace(c)
    ensures ParseKeys([c] + s) == ParseKeys(s)
  {
    SplitBlankAfter("", c, s);
    assert "" + [c] + s == [c] + s;
    assert ([""] + SplitBlank(s))[1..] == SplitBlank(s);
    hide SplitBlank;
  }

  lemma BlankBehindOne(s: string, c: char)
    requires NoBlank(s) && IsWhitespace(c)
    ensures SplitBlank(s + [c]) == SplitBlank(s) + [""]
  {
    assert SplitBlank(s) == [s] && SplitBlank("") == [""];
    hide SplitBlank;
    SplitBlankAfter(s, c, "");
    assert s + [c] + "" == s + [c];
  }

  lemma BlankBehindMore(a: string, b: char, rest: string, c: char)
    requires NoBlank(a) && IsWhitespace(b) && SplitBlank(rest + [c]) == SplitBlank(rest) + [""]
    ensures SplitBlank(a + [b] + rest + [c]) == SplitBlank(a + [b] + rest) + [""]
  {
    hide SplitBlank, NoBlank, IsWhitespace;
    SplitBlankAfter(a, b, rest + [c]);
    SplitBlankAfter(a, b, rest);
    assert a + [b] + rest + [c] == a + [b] + (rest + [c]);
    assert [a] + (SplitBlank(rest) + [""]) == [a] + SplitBlank(rest) + [""];
  }

  lemma {:induction false} BlankBehind(s: string, c: char)
    requires IsWhitespace(c)
    ensures SplitBlank(s + [c]) == SplitBlank(s) + [""]
    decreases |s|
  {
    hide SplitBlank, FirstBlank, IsWhitespace;
    var i := FirstBlank(s, 0);
    if i == |s| {
      BlankBehindOne(s, c);
    } else {
      BlankBehind(s[i + 1..], c);
      BlankBehindMore(s[..i], s[i], s[i + 1..], c);
      assert s == s[..i] + [s[i]] + s[i + 1..];
    }
  }

  lemma EmptyBehind(parts: seq<string>)
    ensures NonEmpty(parts + [""]) == NonEmpty(parts)
  {
    NonEmptyAppend(parts, [""]);
    NonEmptyOne("");
  }

  lemma TrimStartStep(s: string)
    ensures TrimStart(s) == if s != "" && IsWhitespace(s[0]) then TrimStart(s[1..]) else s
  {
    hide IsWhitespace;
  }

  lemma {:induction false} TrimStartParses(s: string)
    ensures ParseKeys(TrimStart(s)) == ParseKeys(s)
  {
    hide ParseKeys, TrimStart, IsWhitespace;
    TrimStartStep(s);
    if s != "" && IsWhitespace(s[0]) {
      TrimStartParses(s[1..]);
      BlankInFront(s[0], s[1..]);
      assert [s[0]] + s[1..] == s;
    }
  }

  lemma TrimEndStep(s: string)
    ensures TrimEnd(s) == if s != "" && IsWhitespace(s[|s| - 1]) then TrimEnd(s[..|s| - 1]) else s
  {
    hide IsWhitespace;
  }

  lemma {:induction false} TrimEndParses(s: string)
    ensures ParseKeys(TrimEnd(s)) == ParseKeys(s)
  {
    hide SplitBlank, NonEmpty, TrimEnd, IsWhitespace;
    TrimEndStep(s);
    if s != "" && IsWhitespace(s[|s| - 1]) {
      var init := s[..|s| - 1];
      TrimEndParses(init);
      BlankBehind(init, s[|s| - 1]);
      EmptyBehind(SplitBlank(init));
      assert init + [s[|s| - 1]] == s;
    }
  }

  /** Trimming the listing does not change the keys that are read. */
  lemma TrimParses(s: string)
    ensures ParseKeys(Trim(s)) == ParseKeys(s)
  {
    hide ParseKeys, TrimStart, TrimEnd;
    TrimStartParses(s);
    TrimEndParses(TrimStart(s));
  }

  // ---- The protocol

  ghost predicate AllAllowed(keys: seq<string>) {
    forall k :: 0 <= k < |keys| ==> KeyAllowed(keys[k])
  }

  /** The commands of one call: the listing, and a migration of the pieces it is cut into, if all are allowed. */
  ghost function CallHistory(c: string, p: Params, answers: Answers, n: nat): seq<Exchange> {
    var get := Exchange(GetKeysArgv(c, p.slotStart), answers(n));
    if !Succeeded(get) then [get]
    else
      var keys := ParseKeys(get.result.output.stdout);
      if keys == [] || !AllAllowed(keys) then [get]
      else [get, Exchange(MigrateArgv(c, p, keys), answers(n + 1))]
  }

  /** The call reports success: nothing was left to move, or the migration succeeded. */
  ghost predicate CallOk(h: seq<Exchange>) {
    && h != [] && Succeeded(h[0])
    && (if |h| == 1 then ParseKeys(h[0].result.output.stdout) == [] else Succeeded(h[1]))
  }

  /** What a call returns: the runner's error, or a verdict with the last output; for a listed key that is not
    * allowed, a failure of its own. */
  ghost function CallResult(h: seq<Exchange>): ExecResult
    requires h != []
  {
    match h[|h| - 1].result
    case SpawnFailed => Errored
    case Ran(output) =>
      if |h| == 1 && output.success && ParseKeys(output.stdout) != []
      then Finished(false, CommandOutput(false, "", "key_invalid"))
      else Finished(output.success, output)
  }

  /** `run_migrate_slot_keys`. */
  method RunMigrateSlotKeys(c: string, p: Params, docker: DockerCli) returns (r: ExecResult)
    modifies docker
    ensures docker.history == old(docker.history) + CallHistory(c, p, docker.answers, |old(docker.history)|)
    ensures r == CallResult(CallHistory(c, p, docker.answers, |old(docker.history)|))
    ensures r.Finished? && r.ok <==> CallOk(CallHistory(c, p, docker.answers, |old(docker.history)|))
    ensures r.Errored? <==> docker.history[|docker.history| - 1].result.SpawnFailed?
  {
    hide GetKeysArgv, MigrateArgv, ParseKeys, KeyAllowed, Classify, Combined;
    var get := docker.Run(GetKeysArgv(c, p.slotStart));
    if get.SpawnFailed? { return Errored; }
    if !get.output.success { return Finished(false, get.output); }
    var keys := ParseKeys(get.output.stdout);
    StrictVerdict(RedisClusterMigrateSlotKeys, true, "ok");
    if keys == [] {
      return Finished(Classify(RedisClusterMigrateSlotKeys, true, "ok"), get.output);
    }
    for i := 0 to |keys|
      invariant AllAllowed(keys[..i])
    {
      if !KeyAllowed(keys[i]) {
        return Finished(false, CommandOutput(false, "", "key_invalid"));
      }
    }
    var migrate := docker.Run(MigrateArgv(c, p, keys));
    if migrate.SpawnFailed? { return Errored; }
    StrictVerdict(RedisClusterMigrateSlotKeys, migrate.output.success, Combined(migrate.output));
    return Finished(Classify(RedisClusterMigrateSlotKeys, migrate.output.success, Combined(migrate.output)),
                    migrate.output);
  }

  // ---- What the cluster does

  /** The keys of one slot, on the node that gives it up and on the node that takes it. */
  datatype Cluster = Cluster(source: set<string>, dest: set<string>)

  function Elements(keys: seq<string>): set<string> {
    set k | 0 <= k < |keys| :: keys[k]
  }

  predicate Distinct(keys: seq<string>) {
    forall i, j :: 0 <= i < j < |keys| ==> keys[i] != keys[j]
  }

  predicate IsGetKeys(argv: seq<string>, slot: nat) {
    |argv| == 7 && argv[3] == "CLUSTER" && argv[4] == "GETKEYSINSLOT" && argv[5] == Decimal(slot)
  }

  predicate IsMigrate(argv: seq<string>) {
    |argv| >= 10 && argv[3] == "MIGRATE" && argv[9] == "KEYS"
  }

  function Min(a: nat, b: nat): nat {
    if a < b then a else b
  }

  function Moved(s: Cluster, keys: set<string>): Cluster {
    Cluster(s.source - keys, s.dest + s.source * keys)
  }

  /** A listing: distinct keys of the slot, as many as asked for or as there are. */
  ghost predicate Lists(s: Cluster, count: Option<nat>, keys: seq<string>) {
    && Distinct(keys) && Elements(keys) <= s.source && count.Some? && |keys| == Min(count.value, |s.source|)
  }

  /** What a listing hands over: its keys, one to a line, trimmed at both ends by the runner. */
  ghost predicate Prints(e: Exchange, keys: seq<string>)
    requires e.result.Ran?
  {
    e.result.output.stdout == Trim(Join(keys, "\n"))
  }

  /**
   * How the cluster answers one command about the slot: a listing prints its keys one to a line and
   * changes nothing, a successful MIGRATE moves those of its keys that are there, a failed one some of them.
   */
  ghost predicate Transition(slot: nat, s: Cluster, e: Exchange, s': Cluster) {
    if IsMigrate(e.argv) then
      if Succeeded(e) then s' == Moved(s, Elements(e.argv[10..]))
      else exists some :: some <= Elements(e.argv[10..]) && s' == Moved(s, some)
    else
      && s' == s
      && (IsGetKeys(e.argv, slot) && Succeeded(e) ==>
            exists keys ::
              Lists(s, ParseUnsigned(e.argv[6], U16_MAX), keys) && Prints(e, keys))
  }

  /** One call against the cluster: its commands and the states around them. */
  datatype CallRecord = CallRecord(history: seq<Exchange>, before: Cluster, listed: Cluster, after: Cluster)

  ghost predicate IsCall(r: CallRecord, c: string, p: Params, answers: Answers, n: nat) {
    && r.history == CallHistory(c, p, answers, n)
    && Transition(p.slotStart, r.before, r.history[0], r.listed)
    && (if |r.history| == 1 then r.after == r.listed
        else Transition(p.slotStart, r.listed, r.history[1], r.after))
  }

  lemma Commands(c: string, p: Params, keys: seq<string>)
    ensures IsGetKeys(GetKeysArgv(c, p.slotStart), p.slotStart) && !IsMigrate(GetKeysArgv(c, p.slotStart))
    ensures ParseUnsigned(GetKeysArgv(c, p.slotStart)[6], U16_MAX) == Some(BATCH)
    ensures IsMigrate(MigrateArgv(c, p, keys)) && MigrateArgv(c, p, keys)[10..] == keys
  {
    ParseDecimal(BATCH, U16_MAX);
  }

  /** A listing changes nothing, and a success hands over keys of the slot. */
  lemma GetLeaves(c: string, p: Params, s: Cluster, e: Exchange, s': Cluster)
    requires e.argv == GetKeysArgv(c, p.slotStart) && Transition(p.slotStart, s, e, s')
    ensures s' == s
    ensures Succeeded(e) ==> exists keys :: Lists(s, Some(BATCH), keys) && Prints(e, keys)
  {
    Commands(c, p, []);
    GetKeysShape(c, p.slotStart);
    hide GetKeysArgv, IsGetKeys, IsMigrate, Prints, Lists, Elements, ParseUnsigned;
  }

  lemma GetKeysShape(c: string, slot: nat)
    ensures |GetKeysArgv(c, slot)| == 7
  {
  }

  lemma MigrateMoves(c: string, p: Params, keys: seq<string>, s: Cluster, e: Exchange, s': Cluster)
    returns (some: set<string>)
    requires e.argv == MigrateArgv(c, p, keys) && Transition(p.slotStart, s, e, s')
    ensures some <= Elements(keys) && s' == Moved(s, some) && (Succeeded(e) ==> some == Elements(keys))
  {
    Commands(c, p, keys);
    hide MigrateArgv, IsMigrate, IsGetKeys, Prints, Lists, Elements, Moved;
    if Succeeded(e) {
      some := Elements(keys);
    } else {
      some :| some <= Elements(e.argv[10..]) && s' == Moved(s, some);
    }
  }

  lemma MovedConserves(s: Cluster, some: set<string>)
    ensures Moved(s, some).source + Moved(s, some).dest == s.source + s.dest && Moved(s, some).source <= s.source
  {
  }

  /** What a call is made of: a listing, and a migration of its pieces or nothing more. */
  lemma CallShape(r: CallRecord, c: string, p: Params, answers: Answers, n: nat)
    requires IsCall(r, c, p, answers, n)
    ensures 1 <= |r.history| <= 2 && r.history[0].argv == GetKeysArgv(c, p.slotStart)
    ensures Transition(p.slotStart, r.before, r.history[0], r.listed)
    ensures |r.history| == 1 ==> r.after == r.listed
    ensures |r.history| == 2 ==>
              && Succeeded(r.history[0])
              && var keys := ParseKeys(r.history[0].result.output.stdout);
              && AllAllowed(keys) && keys != [] && r.history[1].argv == MigrateArgv(c, p, keys)
              && Transition(p.slotStart, r.listed, r.history[1], r.after)
    ensures |r.history| == 1 && Succeeded(r.history[0]) ==>
              var keys := ParseKeys(r.history[0].result.output.stdout); keys == [] || !AllAllowed(keys)
  {
    hide GetKeysArgv, MigrateArgv, ParseKeys, AllAllowed, Transition;
  }

  /** No call loses or invents a key, whatever is answered. */
  lemma CallConserves(r: CallRecord, c: string, p: Params, answers: Answers, n: nat)
    requires IsCall(r, c, p, answers, n)
    ensures r.after.source + r.after.dest == r.before.source + r.before.dest
    ensures r.after.source <= r.before.source
  {
    hide IsCall, Transition, GetKeysArgv, MigrateArgv, ParseKeys, Elements, AllAllowed, Moved;
    CallShape(r, c, p, answers, n);
    GetLeaves(c, p, r.before, r.history[0], r.listed);
    if |r.history| == 2 {
      var keys := ParseKeys(r.history[0].result.output.stdout);
      var some := MigrateMoves(c, p, keys, r.listed, r.history[1], r.after);
      MovedConserves(r.listed, some);
    }
  }

  /** A key that is not movable stays where it is, whatever is answered. */
  lemma UnmovableStays(r: CallRecord, c: string, p: Params, answers: Answers, n: nat, key: string)
    requires IsCall(r, c, p, answers, n) && !Movable(key) && key in r.before.source
    ensures key in r.after.source
  {
    hide IsCall, Transition, GetKeysArgv, MigrateArgv, ParseKeys, Elements, AllAllowed, Movable;
    CallShape(r, c, p, answers, n);
    GetLeaves(c, p, r.before, r.history[0], r.listed);
    if |r.history| == 2 {
      var stdout := r.history[0].result.output.stdout;
      var some := MigrateMoves(c, p, ParseKeys(stdout), r.listed, r.history[1], r.after);
      if key in some { PiecesMovable(stdout, key); }
    }
  }

  lemma PiecesMovable(stdout: string, key: string)
    requires AllAllowed(ParseKeys(stdout)) && key in Elements(ParseKeys(stdout))
    ensures Movable(key)
  {
    PiecesNoBlank(stdout);
    NonEmptyKeeps(SplitBlank(stdout));
    hide SplitBlank, NonEmpty, KeyAllowed, NoBlank;
  }

  ghost predicate AllMovable(keys: set<string>) {
    forall key :: key in keys ==> Movable(key)
  }

  lemma {:induction false} ElementsCount(keys: seq<string>)
    requires Distinct(keys)
    ensures |Elements(keys)| == |keys|
  {
    if keys != [] {
      var n := |keys| - 1;
      ElementsCount(keys[..n]);
      assert Elements(keys) == Elements(keys[..n]) + {keys[n]};
    }
  }

  /** What a call lists: the keys printed are the keys read, and all of them are allowed. */
  lemma ListedKeys(r: CallRecord, c: string, p: Params, answers: Answers, n: nat) returns (keys: seq<string>)
    requires IsCall(r, c, p, answers, n) && AllMovable(r.before.source)
    requires r.history != [] && Succeeded(r.history[0])
    ensures Lists(r.before, Some(BATCH), keys) && ParseKeys(r.history[0].result.output.stdout) == keys
    ensures AllAllowed(keys) && r.listed == r.before
  {
    hide IsCall, Transition, GetKeysArgv, MigrateArgv, ParseKeys, KeyAllowed, NoBlank, Lists, AllMovable, Trim;
    CallShape(r, c, p, answers, n);
    GetLeaves(c, p, r.before, r.history[0], r.listed);
    keys :| Lists(r.before, Some(BATCH), keys) && Prints(r.history[0], keys);
    ListedMovable(r.before, Some(BATCH), keys);
    TrimParses(Join(keys, "\n"));
    ParsePrinted(keys);
  }

  /**
   * MIGRATE, when it is run, names exactly the keys that were listed if and only if none of them is empty or holds
   * whitespace; and it is run if and only if there are pieces to move and all of them are allowed.
   */
  lemma MigrateNamesExactly(c: string, p: Params, answers: Answers, n: nat, keys: seq<string>)
    requires var get := Answered(GetKeysArgv(c, p.slotStart), answers, n); Succeeded(get) && Prints(get, keys)
    ensures var h, pieces := CallHistory(c, p, answers, n), ParseKeys(Join(keys, "\n"));
            && (|h| == 2 <==> pieces != [] && AllAllowed(pieces))
            && (|h| == 2 ==>
                  && h[1] == Answered(MigrateArgv(c, p, pieces), answers, n + 1) && h[1].argv[10..] == pieces
                  && (h[1].argv[10..] == keys <==>
                        forall k :: 0 <= k < |keys| ==> NoBlank(keys[k]) && keys[k] != ""))
  {
    Commands(c, p, ParseKeys(Join(keys, "\n")));
    hide GetKeysArgv, MigrateArgv, ParseKeys, IsGetKeys, IsMigrate, AllAllowed, Trim, Join, NoBlank;
    TrimParses(Join(keys, "\n"));
    ParsesBackExactly(keys);
  }

  lemma ListedMovable(s: Cluster, count: Option<nat>, keys: seq<string>)
    requires Lists(s, count, keys) && AllMovable(s.source)
    ensures forall k :: 0 <= k < |keys| ==> KeyAllowed(keys[k]) && NoBlank(keys[k]) && keys[k] != ""
  {
    hide NoneForbidden, NoBlank;
    forall k | 0 <= k < |keys| ensures Movable(keys[k]) {
      assert keys[k] in Elements(keys);
    }
  }

  lemma ListedCount(s: Cluster, keys: seq<string>)
    requires Lists(s, Some(BATCH), keys)
    ensures |s.source - Elements(keys)| == |s.source| - |keys| && |keys| == Min(BATCH, |s.source|)
    ensures keys == [] <==> s.source == {}
    ensures s.source - (s.source - Elements(keys)) == Elements(keys)
  {
    ElementsCount(keys);
    hide Elements, Distinct;
    assert s.source == Elements(keys) + (s.source - Elements(keys));
  }

  /**
   * A successful call on movable keys: it migrates exactly the keys it listed, a full batch or all that
   * are left, and sends no MIGRATE when none is left.
   */
  lemma CallDrains(r: CallRecord, c: string, p: Params, answers: Answers, n: nat)
    requires IsCall(r, c, p, answers, n) && AllMovable(r.before.source) && CallOk(r.history)
    ensures |r.after.source| == |r.before.source| - Min(BATCH, |r.before.source|)
    ensures |r.history| == 1 <==> r.before.source == {}
    ensures |r.history| == 2 ==> Elements(r.history[1].argv[10..]) == r.before.source - r.after.source
                                 && |r.history[1].argv[10..]| == Min(BATCH, |r.before.source|)
  {
    hide IsCall, Transition, GetKeysArgv, MigrateArgv, ParseKeys, Elements, AllMovable, AllAllowed, Lists;
    var keys := ListedKeys(r, c, p, answers, n);
    CallShape(r, c, p, answers, n);
    ListedCount(r.before, keys);
    if |r.history| == 2 {
      var some := MigrateMoves(c, p, keys, r.listed, r.history[1], r.after);
      MigrateNames(c, p, keys);
    }
  }

  lemma MigrateNames(c: string, p: Params, keys: seq<string>)
    ensures |MigrateArgv(c, p, keys)| >= 10 && MigrateArgv(c, p, keys)[10..] == keys
  {
  }

  // ---- Repeated calls

  function CommandCount(run: seq<CallRecord>): nat {
    if run == [] then 0 else CommandCount(run[..|run| - 1]) + |run[|run| - 1].history|
  }

  /** Calls one after the other, each finding the keys as the last one left them. */
  ghost predicate IsRun(run: seq<CallRecord>, c: string, p: Params, answers: Answers, n: nat, start: Cluster) {
    run == [] || (
      var last := |run| - 1;
      && IsRun(run[..last], c, p, answers, n, start)
      && IsCall(run[last], c, p, answers, n + CommandCount(run[..last]))
      && run[last].before == End(run[..last], start))
  }

  function End(run: seq<CallRecord>, start: Cluster): Cluster {
    if run == [] then start else run[|run| - 1].after
  }

  ghost predicate AllOk(run: seq<CallRecord>) {
    forall i :: 0 <= i < |run| ==> CallOk(run[i].history)
  }

  lemma {:induction false} RunConserves(run: seq<CallRecord>, c: string, p: Params, answers: Answers, n: nat,
                                        start: Cluster)
    requires IsRun(run, c, p, answers, n, start)
    ensures End(run, start).source + End(run, start).dest == start.source + start.dest
    ensures End(run, start).source <= start.source
  {
    hide IsCall;
    if run != [] {
      var last := |run| - 1;
      RunConserves(run[..last], c, p, answers, n, start);
      CallConserves(run[last], c, p, answers, n + CommandCount(run[..last]));
    }
  }

  lemma {:induction false} RunDrains(run: seq<CallRecord>, c: string, p: Params, answers: Answers, n: nat,
                                     start: Cluster)
    requires IsRun(run, c, p, answers, n, start) && AllOk(run) && AllMovable(start.source)
    ensures |End(run, start).source| == if |start.source| <= BATCH * |run| then 0 else |start.source| - BATCH * |run|
  {
    hide IsCall, CallOk, Movable;
    if run != [] {
      var last := |run| - 1;
      RunDrains(run[..last], c, p, answers, n, start);
      RunConserves(run[..last], c, p, answers, n, start);
      CallDrains(run[last], c, p, answers, n + CommandCount(run[..last]));
    }
  }

  lemma {:induction false} RunKeepsUnmovable(run: seq<CallRecord>, c: string, p: Params, answers: Answers, n: nat,
                                             start: Cluster, key: string)
    requires IsRun(run, c, p, answers, n, start) && !Movable(key) && key in start.source
    ensures key in End(run, start).source
  {
    hide IsCall, Movable;
    if run != [] {
      var last := |run| - 1;
      RunKeepsUnmovable(run[..last], c, p, answers, n, start, key);
      UnmovableStays(run[last], c, p, answers, n + CommandCount(run[..last]), key);
    }
  }

  /**
   * Successful calls empty the slot if and only if every key it held is movable and there were as many
   * calls as batches, rounded up.
   */
  lemma DrainsExactly(run: seq<CallRecord>, c: string, p: Params, answers: Answers, n: nat, start: Cluster)
    requires IsRun(run, c, p, answers, n, start) && AllOk(run)
    ensures End(run, start).source == {} <==>
            AllMovable(start.source) && |run| >= (|start.source| + BATCH - 1) / BATCH
  {
    hide IsCall, CallOk, Movable;
    if AllMovable(start.source) {
      RunDrains(run, c, p, answers, n, start);
    } else {
      var key :| key in start.source && !Movable(key);
      RunKeepsUnmovable(run, c, p, answers, n, start, key);
    }
  }
}
