/** Postgres standby bootstrap and follow: ordered docker commands with a fallback. */
module Standby {
  import opened Text
  import opened Wrappers
  import opened TemplatedParams
  import opened Runner

  const PG_HELPER_IMAGE := "docker.io/library/postgres:16"
  const PGDATA := "/var/lib/postgresql/data"

  function StartArgv(c: string): seq<string> {
    ["start", c]
  }

  function ClearArgv(c: string): seq<string> {
    ["run", "--rm", "--volumes-from", c, PG_HELPER_IMAGE, "find", PGDATA, "-mindepth", "1", "-delete"]
  }

  function BasebackupArgv(c: string, p: Params): seq<string> {
    ["run", "--rm", "--volumes-from", c, "--add-host", "host.docker.internal:host-gateway", PG_HELPER_IMAGE,
     "pg_basebackup", "-h", p.primaryHost, "-p", Decimal(p.primaryPort), "-U", p.user, "-D", PGDATA, "-R", "-X",
     "stream", "--no-password"]
  }

  function RewindArgv(c: string, p: Params): seq<string> {
    var source := "host=" + p.primaryHost + " port=" + Decimal(p.primaryPort) + " user=" + p.user;
    ["run", "--rm", "--volumes-from", c, "--add-host", "host.docker.internal:host-gateway", PG_HELPER_IMAGE,
     "pg_rewind", "--target-pgdata=" + PGDATA, "--source-server=" + source, "--no-password"]
  }

  // ---- What the commands do

  datatype Command = Stop | Start | Clear | Backup | Rewind | Other

  /** What docker does for a command line, read off its tokens. */
  function CommandOf(argv: seq<string>): Command {
    if |argv| == 2 && argv[0] == "stop" then Stop
    else if |argv| == 2 && argv[0] == "start" then Start
    else if |argv| == 10 && argv[0] == "run" && argv[5] == "find" && argv[9] == "-delete" then Clear
    else if |argv| == 20 && argv[0] == "run" && argv[7] == "pg_basebackup" then Backup
    else if |argv| == 11 && argv[0] == "run" && argv[7] == "pg_rewind" then Rewind
    else Other
  }

  lemma Commands(c: string, p: Params)
    ensures CommandOf(StopArgv(c)) == Stop && CommandOf(StartArgv(c)) == Start && CommandOf(ClearArgv(c)) == Clear
    ensures CommandOf(BasebackupArgv(c, p)) == Backup && CommandOf(RewindArgv(c, p)) == Rewind
  {
  }

  /** The data directory: usable, partly deleted, or emptied and not restored since. */
  datatype Data = Usable | Damaged | Emptied

  /** A clear that ran deletes everything or fails half-way; a backup that succeeds restores the directory. */
  function Effect(d: Data, e: Exchange): Data {
    match CommandOf(e.argv)
    case Clear => if Succeeded(e) then Emptied else if e.result.Ran? && d.Usable? then Damaged else d
    case Backup => if Succeeded(e) then Usable else d
    case _ => d
  }

  function DataAfter(d: Data, h: seq<Exchange>): Data {
    if h == [] then d else Effect(DataAfter(d, h[..|h| - 1]), h[|h| - 1])
  }

  /** The assumption on `pg_rewind`: it does not succeed on an emptied directory. */
  ghost predicate RewindHonest(d: Data, h: seq<Exchange>) {
    forall k :: 0 <= k < |h| && CommandOf(h[k].argv).Rewind? && Succeeded(h[k]) ==> !DataAfter(d, h[..k]).Emptied?
  }

  // ---- The two protocols

  /** Clear, then back up if that succeeded. */
  function ClearAndBackup(c: string, p: Params, answers: Answers, n: nat): (h: seq<Exchange>)
    ensures |h| > 0
  {
    var clear := Answered(ClearArgv(c), answers, n);
    if Succeeded(clear) then [clear, Answered(BasebackupArgv(c, p), answers, n + 1)] else [clear]
  }

  predicate Restored(h: seq<Exchange>) {
    |h| == 2 && Succeeded(h[1])
  }

  /** Clear, back up, start: each only if the one before succeeded. */
  function RestoreAndStart(c: string, p: Params, answers: Answers, n: nat): seq<Exchange> {
    var h := ClearAndBackup(c, p, answers, n);
    if Restored(h) then h + [Answered(StartArgv(c), answers, n + |h|)] else h
  }

  function BootstrapHistory(c: string, p: Params, answers: Answers, n: nat): seq<Exchange> {
    var stop := Answered(StopArgv(c), answers, n);
    if stop.result.SpawnFailed? then [stop] else [stop] + RestoreAndStart(c, p, answers, n + 1)
  }

  function FollowHistory(c: string, p: Params, answers: Answers, n: nat): seq<Exchange> {
    var stop := Answered(StopArgv(c), answers, n);
    var rewind := Answered(RewindArgv(c, p), answers, n + 1);
    var start := Answered(StartArgv(c), answers, n + 2);
    if stop.result.SpawnFailed? then [stop]
    else if rewind.result.SpawnFailed? then [stop, rewind]
    else if Succeeded(rewind) then [stop, rewind, start]
    else [stop, rewind] + RestoreAndStart(c, p, answers, n + 2)
  }

  /** A run of either protocol ends in success exactly when its last command is a start that succeeded. */
  predicate Success(h: seq<Exchange>) {
    h != [] && CommandOf(h[|h| - 1].argv).Start? && Succeeded(h[|h| - 1])
  }

  ghost predicate Reports(r: ExecResult, h: seq<Exchange>)
    requires h != []
  {
    ReportsLast(r, h[|h| - 1])
  }

  /** The result rests on the last command: the runner's error, or its output, a success for a start that succeeded. */
  ghost predicate ReportsLast(r: ExecResult, e: Exchange) {
    && (r.Errored? <==> e.result.SpawnFailed?)
    && (r.Finished? && r.ok <==> CommandOf(e.argv).Start? && Succeeded(e))
    && (r.Finished? ==> e.result == Ran(r.output))
  }

  /** The middle of both protocols: a result to return early with, unless clear and backup both succeeded. */
  method RunClearAndBackup(c: string, p: Params, docker: DockerCli) returns (early: Option<ExecResult>)
    modifies docker
    ensures docker.history == old(docker.history) + ClearAndBackup(c, p, docker.answers, |old(docker.history)|)
    ensures var h := ClearAndBackup(c, p, docker.answers, |old(docker.history)|);
            (early.None? <==> Restored(h)) && (early.Some? ==> Reports(early.value, h))
  {
    Commands(c, p);
    hide CommandOf, ClearArgv, BasebackupArgv;
    var clear := docker.Run(ClearArgv(c));
    if clear.SpawnFailed? { return Some(Errored); }
    if !clear.output.success { return Some(Finished(false, clear.output)); }
    var backup := docker.Run(BasebackupArgv(c, p));
    if backup.SpawnFailed? { return Some(Errored); }
    if !backup.output.success { return Some(Finished(false, backup.output)); }
    return None;
  }

  /** The end of both protocols. */
  method RunStart(c: string, t: Template, docker: DockerCli) returns (r: ExecResult)
    requires Strict(t)
    modifies docker
    ensures var start := Answered(StartArgv(c), docker.answers, |old(docker.history)|);
            docker.history == old(docker.history) + [start] && ReportsLast(r, start)
  {
    Started(c);
    hide CommandOf, StartArgv, Classify, Combined;
    var start := docker.Run(StartArgv(c));
    if start.SpawnFailed? { return Errored; }
    StrictVerdict(t, start.output.success, Combined(start.output));
    return Finished(Classify(t, start.output.success, Combined(start.output)), start.output);
  }

  lemma Started(c: string)
    ensures CommandOf(StartArgv(c)) == Start
  {
  }

  lemma Stopping(c: string)
    ensures CommandOf(StopArgv(c)) == Stop
  {
  }

  lemma Rewinding(c: string, p: Params)
    ensures CommandOf(RewindArgv(c, p)) == Rewind
  {
    Commands(c, p);
    hide CommandOf, RewindArgv;
  }

  /** `run_standby_bootstrap`. */
  method RunStandbyBootstrap(c: string, p: Params, docker: DockerCli) returns (r: ExecResult)
    modifies docker
    ensures docker.history == old(docker.history) + BootstrapHistory(c, p, docker.answers, |old(docker.history)|)
    ensures Reports(r, BootstrapHistory(c, p, docker.answers, |old(docker.history)|))
  {
    Stopping(c);
    hide CommandOf, StopArgv, StartArgv, ClearAndBackup, Restored, Succeeded;
    var stop := docker.Run(StopArgv(c));
    if stop.SpawnFailed? { return Errored; }
    var early := RunClearAndBackup(c, p, docker);
    if early.Some? { return early.value; }
    r := RunStart(c, PgStandbyBootstrap, docker);
  }

  /** `run_standby_follow`. */
  method RunStandbyFollow(c: string, p: Params, docker: DockerCli) returns (r: ExecResult)
    modifies docker
    ensures docker.history == old(docker.history) + FollowHistory(c, p, docker.answers, |old(docker.history)|)
    ensures Reports(r, FollowHistory(c, p, docker.answers, |old(docker.history)|))
  {
    Stopping(c);
    Rewinding(c, p);
    hide CommandOf, StopArgv, StartArgv, RewindArgv, ClearAndBackup, Restored;
    var stop := docker.Run(StopArgv(c));
    if stop.SpawnFailed? { return Errored; }
    var rewind := docker.Run(RewindArgv(c, p));
    if rewind.SpawnFailed? { return Errored; }
    if !rewind.output.success {
      var early := RunClearAndBackup(c, p, docker);
      if early.Some? { return early.value; }
    }
    r := RunStart(c, PgStandbyFollow, docker);
  }

  // ---- What they keep

  /** Right before every start, a backup or a rewind succeeded. */
  ghost predicate StartsGuarded(h: seq<Exchange>) {
    forall k :: 0 <= k < |h| && CommandOf(h[k].argv).Start? ==>
      k > 0 && Succeeded(h[k - 1]) && (CommandOf(h[k - 1].argv).Backup? || CommandOf(h[k - 1].argv).Rewind?)
  }

  /** Right before every clear, a rewind ran and failed. */
  ghost predicate ClearsGuarded(h: seq<Exchange>) {
    forall k :: 0 <= k < |h| && CommandOf(h[k].argv).Clear? ==>
      k > 0 && CommandOf(h[k - 1].argv).Rewind? && h[k - 1].result.Ran? && !Succeeded(h[k - 1])
  }

  lemma BootstrapGuarded(c: string, p: Params, answers: Answers, n: nat)
    ensures StartsGuarded(BootstrapHistory(c, p, answers, n))
  {
    Commands(c, p);
    hide CommandOf, StopArgv, StartArgv, ClearArgv, BasebackupArgv;
  }

  lemma RestoreGuarded(c: string, p: Params, answers: Answers, n: nat)
    ensures var h := RestoreAndStart(c, p, answers, n);
            StartsGuarded(h) && forall k :: 0 <= k < |h| && CommandOf(h[k].argv).Clear? ==> k == 0
  {
    Commands(c, p);
    hide CommandOf, StartArgv, ClearArgv, BasebackupArgv;
  }

  lemma FollowGuarded(c: string, p: Params, answers: Answers, n: nat)
    ensures StartsGuarded(FollowHistory(c, p, answers, n)) && ClearsGuarded(FollowHistory(c, p, answers, n))
  {
    hide CommandOf, StopArgv, StartArgv, ClearArgv, BasebackupArgv, RewindArgv, RestoreAndStart, Succeeded;
    Commands(c, p);
    RestoreGuarded(c, p, answers, n + 2);
    var h, tail := FollowHistory(c, p, answers, n), RestoreAndStart(c, p, answers, n + 2);
    assert forall k :: 2 <= k < |h| && |h| != 3 ==> h[k] == tail[k - 2];
  }

  predicate Did(h: seq<Exchange>, command: Command) {
    exists k :: 0 <= k < |h| && CommandOf(h[k].argv) == command && Succeeded(h[k])
  }

  /** Bootstrap succeeds if and only if clear, backup and start all did. */
  lemma BootstrapSucceedsExactly(c: string, p: Params, answers: Answers, n: nat)
    ensures var h := BootstrapHistory(c, p, answers, n);
            Success(h) <==> Did(h, Clear) && Did(h, Backup) && Did(h, Start)
  {
    Commands(c, p);
    hide CommandOf, StopArgv, StartArgv, ClearArgv, BasebackupArgv;
    var h := BootstrapHistory(c, p, answers, n);
    if Success(h) {
      assert |h| == 4 && h[1] == Answered(ClearArgv(c), answers, n + 1);
      assert h[2] == Answered(BasebackupArgv(c, p), answers, n + 2);
    }
  }

  /** Follow succeeds if and only if start did, and either the rewind or both clear and backup did. */
  lemma FollowSucceedsExactly(c: string, p: Params, answers: Answers, n: nat)
    ensures var h := FollowHistory(c, p, answers, n);
            Success(h) <==> Did(h, Start) && (Did(h, Rewind) || (Did(h, Clear) && Did(h, Backup)))
  {
    Commands(c, p);
    hide CommandOf, StopArgv, StartArgv, ClearArgv, BasebackupArgv, RewindArgv;
    var h := FollowHistory(c, p, answers, n);
    if Success(h) {
      if |h| == 3 {
        assert Succeeded(h[1]) && CommandOf(h[1].argv) == Rewind;
      } else {
        assert |h| == 5 && h[2] == Answered(ClearArgv(c), answers, n + 2);
        assert h[3] == Answered(BasebackupArgv(c, p), answers, n + 3);
      }
    }
  }

  // ---- Any sequence of calls

  datatype Call = Call(follow: bool, params: Params)

  function CallHistory(c: string, call: Call, answers: Answers, n: nat): seq<Exchange> {
    if call.follow then FollowHistory(c, call.params, answers, n) else BootstrapHistory(c, call.params, answers, n)
  }

  function CallsHistory(c: string, calls: seq<Call>, answers: Answers, n: nat): seq<Exchange> {
    if calls == [] then []
    else
      var before := CallsHistory(c, calls[..|calls| - 1], answers, n);
      before + CallHistory(c, calls[|calls| - 1], answers, n + |before|)
  }

  lemma StartsGuardedAppend(a: seq<Exchange>, b: seq<Exchange>)
    requires StartsGuarded(a) && StartsGuarded(b)
    ensures StartsGuarded(a + b)
  {
    hide CommandOf, Succeeded;
    var h := a + b;
    forall k | 0 <= k < |h| && CommandOf(h[k].argv).Start?
      ensures k > 0 && Succeeded(h[k - 1]) && (CommandOf(h[k - 1].argv).Backup? || CommandOf(h[k - 1].argv).Rewind?)
    {
      if k >= |a| {
        assert h[k] == b[k - |a|];
        assert h[k - 1] == b[k - |a| - 1];
      }
    }
  }

  lemma CallGuarded(c: string, call: Call, answers: Answers, n: nat)
    ensures StartsGuarded(CallHistory(c, call, answers, n))
  {
    hide StartsGuarded, FollowHistory, BootstrapHistory;
    FollowGuarded(c, call.params, answers, n);
    BootstrapGuarded(c, call.params, answers, n);
  }

  lemma {:induction false} CallsGuarded(c: string, calls: seq<Call>, answers: Answers, n: nat)
    ensures StartsGuarded(CallsHistory(c, calls, answers, n))
  {
    assert StartsGuarded([]);
    assert calls == [] ==> CallsHistory(c, calls, answers, n) == [];
    hide StartsGuarded, CallHistory;
    if calls != [] {
      var before := CallsHistory(c, calls[..|calls| - 1], answers, n);
      assert CallsHistory(c, calls, answers, n) == before + CallHistory(c, calls[|calls| - 1], answers, n + |before|);
      hide CallsHistory;
      CallsGuarded(c, calls[..|calls| - 1], answers, n);
      CallGuarded(c, calls[|calls| - 1], answers, n + |before|);
      StartsGuardedAppend(before, CallHistory(c, calls[|calls| - 1], answers, n + |before|));
    }
  }

  /**
   * On any sequence of bootstrap and follow calls, whatever the answers, the container is never started
   * on an emptied data directory, provided a rewind does not succeed on one.
   */
  lemma NeverStartsEmptied(c: string, calls: seq<Call>, answers: Answers, n: nat, d: Data, k: nat)
    requires var h := CallsHistory(c, calls, answers, n);
             k < |h| && CommandOf(h[k].argv).Start? && RewindHonest(d, h)
    ensures !DataAfter(d, CallsHistory(c, calls, answers, n)[..k]).Emptied?
  {
    var h := CallsHistory(c, calls, answers, n);
    CallsGuarded(c, calls, answers, n);
    hide CallsHistory, CommandOf, Succeeded;
    assert h[..k][..k - 1] == h[..k - 1] && h[..k][k - 1] == h[k - 1];
  }
}
