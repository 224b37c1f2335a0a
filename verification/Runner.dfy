/** The docker CLI as the agent sees it: any sequence of answers, and the commands that were run. */
module Runner {
  import opened Text
  import opened TemplatedParams

  datatype CommandOutput = CommandOutput(success: bool, stdout: string, stderr: string)

  datatype RunResult = Ran(output: CommandOutput) | SpawnFailed

  datatype Exchange = Exchange(argv: seq<string>, result: RunResult)

  predicate Succeeded(e: Exchange) {
    e.result.Ran? && e.result.output.success
  }

  /** `docker stop`. */
  function StopArgv(c: string): seq<string> {
    ["stop", c]
  }

  /** What the runner answers to its n-th command, whatever the command. */
  type Answers = nat -> RunResult

  function Answered(argv: seq<string>, answers: Answers, n: nat): Exchange {
    Exchange(argv, answers(n))
  }

  class DockerCli {
    const answers: Answers
    var history: seq<Exchange>

    constructor (answers: Answers)
      ensures this.answers == answers && history == []
    {
      this.answers, history := answers, [];
    }

    method Run(argv: seq<string>) returns (r: RunResult)
      modifies this
      ensures r == answers(|old(history)|) && history == old(history) + [Exchange(argv, r)]
    {
      r := answers(|history|);
      history := history + [Exchange(argv, r)];
    }
  }

  /** What a template run returns: a verdict with the output it rests on, or an error of the runner. */
  datatype ExecResult = Finished(ok: bool, output: CommandOutput) | Errored

  /** `CommandOutput::combined`. */
  function Combined(o: CommandOutput): string {
    if o.stderr == "" then o.stdout
    else if o.stdout == "" then o.stderr
    else o.stdout + "\n" + o.stderr
  }

  function AsciiLower(s: string): (r: string)
    ensures |r| == |s|
    ensures forall i :: 0 <= i < |s| ==>
              r[i] == if 'A' <= s[i] <= 'Z' then (s[i] as int + 32) as char else s[i]
  {
    seq(|s|, i requires 0 <= i < |s| => if 'A' <= s[i] <= 'Z' then (s[i] as int + 32) as char else s[i])
  }

  /** The failures that count as success because the engine is already where it should be. */
  predicate AlreadyThere(t: Template, lower: string) {
    match t
    case PgPromote =>
      Contains(lower, "not in recovery") || (Contains(lower, "pg_promote") && Contains(lower, "false"))
    case RedisReplicaofNoOne =>
      Contains(lower, "ok") || lower == "" || Contains(lower, "already") || Contains(lower, "not a replica")
      || Contains(lower, "master")
    case RedisReplicaof => Contains(lower, "ok") || lower == "" || Contains(lower, "already")
    case MongoRsInitiate | MongoConfigRsInitiate =>
      Contains(lower, "already initialized") || Contains(lower, "already initiated") || Contains(lower, "ismaster")
      || Contains(lower, "setname")
    case MongoRsAdd | MongoConfigRsAdd => Contains(lower, "already a member") || Contains(lower, "found two member")
    case MongoRsStepDown => Contains(lower, "not currently a primary") || Contains(lower, "not primary")
    case MongoAddShard =>
      Contains(lower, "already exists") || Contains(lower, "host already used")
      || Contains(lower, "is already a member")
    case MongoMoveChunk =>
      Contains(lower, "that chunk is already on shard") || Contains(lower, "chunk with the given bounds")
    case _ => false
  }

  /** The verdict of `classify_promote_outcome`. */
  predicate Classify(t: Template, success: bool, combined: string) {
    success || AlreadyThere(t, AsciiLower(combined))
  }

  /** The templates whose verdict is the exit status and nothing else. */
  predicate Strict(t: Template) {
    match t
    case PgPromote | RedisReplicaofNoOne | RedisReplicaof | MongoRsInitiate | MongoConfigRsInitiate | MongoRsAdd
       | MongoConfigRsAdd | MongoRsStepDown | MongoAddShard | MongoMoveChunk => false
    case _ => true
  }

  /** A failed command counts as success for exactly the templates outside the strict ones, for some output. */
  lemma StrictExactly(t: Template)
    ensures Strict(t) <==> forall combined :: !Classify(t, false, combined)
    ensures forall combined :: Classify(t, true, combined)
  {
    hide Contains, AsciiLower, AlreadyThere, Sample, NoCapital;
    if Strict(t) {
      forall combined: string ensures !Classify(t, false, combined) {
        StrictVerdict(t, false, combined);
      }
    } else {
      SampleIsLower(t);
      LowerSample(Sample(t));
      SampleThere(t);
      assert Classify(t, false, Sample(t));
    }
  }

  /** An output that makes a failure count as success. */
  function Sample(t: Template): string {
    match t
    case PgPromote => "not in recovery"
    case RedisReplicaofNoOne | RedisReplicaof => "already"
    case MongoRsInitiate | MongoConfigRsInitiate => "ismaster"
    case MongoRsAdd | MongoConfigRsAdd => "found two member"
    case MongoRsStepDown => "not primary"
    case MongoAddShard => "already exists"
    case _ => "chunk with the given bounds"
  }

  predicate NoCapital(s: string) {
    forall i :: 0 <= i < |s| ==> !('A' <= s[i] <= 'Z')
  }

  lemma LowerLiterals()
    ensures NoCapital("not in recovery") && NoCapital("already") && NoCapital("ismaster")
  {
  }

  lemma MoreLowerLiterals()
    ensures NoCapital("found two member") && NoCapital("not primary")
  {
  }

  lemma LongLowerLiterals()
    ensures NoCapital("already exists") && NoCapital("chunk with the given bounds")
  {
  }

  lemma SampleIsLower(t: Template)
    ensures NoCapital(Sample(t))
  {
    hide NoCapital;
    LowerLiterals();
    MoreLowerLiterals();
    LongLowerLiterals();
  }

  lemma ContainsItself(s: string)
    ensures Contains(s, s)
  {
    assert OccursAt(s, s, 0);
  }

  lemma SampleThere(t: Template)
    requires !Strict(t)
    ensures AlreadyThere(t, Sample(t))
  {
    ContainsItself(Sample(t));
    hide Contains;
  }

  lemma StrictVerdict(t: Template, success: bool, combined: string)
    requires Strict(t)
    ensures Classify(t, success, combined) <==> success
  {
  }

  lemma LowerSample(sample: string)
    requires NoCapital(sample)
    ensures AsciiLower(sample) == sample
  {
  }

  /** The substring test is loose: a promote that failed on a broken pipe counts as done, for the `ok` in `broken`. */
  lemma BrokenPipeCountsAsOk()
    ensures Classify(RedisReplicaofNoOne, false, "Broken pipe")
  {
    var lower := AsciiLower("Broken pipe");
    assert lower == "broken pipe";
    assert OccursAt(lower, "ok", 2);
  }
}
