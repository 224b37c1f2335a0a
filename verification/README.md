# Parton agent: a verified model

Parton is a host agent. It heartbeats to a control plane, applies signed re-enroll and revoke directives, and
carries out container actions through the `docker` command line. This project models the agent's decision logic
in Dafny and proves what it keeps over whole runs, what its text formats preserve, and what its command protocols
can and cannot do, whatever the network, the clock, the file system and docker answer. Every source of answers
from outside (the result of a POST, a clock reading, a failing `fsync`, the output of a command) is an arbitrary
parameter, so each theorem ranges over all of them.

`dafny verify dfyconfig.toml` checks everything.

## Layout

| file | what it models |
|---|---|
| `Wrappers.dfy`, `Integers.dfy` | `Option`, `Result`; the fixed-width unsigned integers |
| `Text.dfy` | Rust string operations (`trim`, `split`, `lines`, `parse`, `to_string`) over Unicode scalar values |
| `OrderedMap.dfy` | `BTreeMap<String, String>` |
| `EnvFile.dfy` | the `parton.env` parser and printer |
| `EnvRewrite.dfy` | the re-enroll rewrite: new contents, temp write, fsync, rename, chmod, crashes |
| `DirectivesWire.dfy` | the canonical texts that an authority signs |
| `Directives.dfy` | applying a batch of directives |
| `DirectiveChecks.dfy` | what the checks come to, from the directive and the environment themselves |
| `AgentRuntime.dfy` | one heartbeat iteration, as a class, and the main loop |
| `AgentRuns.dfy` | theorems over whole runs of the loop |
| `EnvHistory.dfy` | what `parton.env` can hold over batches and runs, crashes included |
| `TemplatedParams.dfy` | validation of the parameters of in-container operations |
| `Runner.dfy` | the docker runner and the verdict on a command's outcome |
| `Xml.dfy`, `Shell.dfy` | readers: a fragment of XML 1.0, and POSIX.1-2017 Shell Command Language, sections 2.2 and 2.3 |
| `RemoteServers.dfy` | ClickHouse topology: peers to shards to XML to shell script |
| `Standby.dfy`, `PostgresReading.dfy` | Postgres standby bootstrap and follow, and readers of their commands |
| `SlotKeys.dfy`, `Slots.dfy`, `RedisReading.dfy` | Redis Cluster slot-key migration and slot assignment, and a reader of the commands |
| `JsonValue.dfy`, `HealthCheck.dfy` | JSON values; the health-body evaluator |
| `SecretEnv.dfy` | secret environment entries and their file |
| `ActionRequest.dfy`, `DockerArgs.dfy`, `DeployReading.dfy` | `docker run` argument vectors, and reading them back |
| `Departures.dfy` | single inputs for the list below |
| `DockerGuard.dfy`, `DockerIdentity.dfy` | stop, restart and deploy guarded by an expected container id |
| `DockerAnswers.dfy` | what a request runs and answers, from docker's answers |

Where the source mutates in steps, the model is a class or a method with loops, proved equal to a specification
function; the theorems are about that function.

## Where the code departs from its documentation, or from what one would expect

Each of these is proved, with the exact condition where it is named first, and at a single input where
`Departures.dfy` is named.

- A re-enroll nobody signed is documented as skipped. An undecodable or undecryptable token comes before the
  signature check and is an error that ends the batch (`Directives.UnsignedSkippedExactly`,
  `Departures.UnsignedEndsBatch`).
- A batch that ends in an error keeps what it did before: one bad token after a good re-enroll leaves the file
  rewritten, and the agent ends with the applied token never reported and no grace window armed
  (`Directives.BatchExactly`, `AgentRuns.AbortedBatch`, `Departures.GoodThenBadAborts`).
- A re-enroll URL or key with a line feed is not stored as given (`EnvRewrite.RereadExactly`,
  `EnvRewrite.LineFeedCutsUrl`), and two different revokes with line feeds can have one signed text
  (`DirectivesWire.LineFeedsCollide`). The node id is safe even then (`EnvRewrite.NodeIdKept`).
- An applied-directive token is stamped on one report only; if that report is not answered, no control plane ever
  sees it (`AgentRuns.AnsweredReportCarriesToken`).
- A very large grace window makes the agent panic when it arms it (`AgentRuns.PanicsExactly`,
  `Departures.HugeWindowPanics`).
- A cluster name accepted by validation but starting with a digit or a hyphen gives XML that cannot be read
  (`RemoteServers.AcceptedPeersReadBack`, `RemoteServers.DigitClusterUnreadable`).
- A failed Redis promotion whose output merely contains `ok`, as in `broken pipe`, counts as success
  (`Runner.StrictExactly` for which templates that can happen, `Runner.BrokenPipeCountsAsOk`).
- A slot never drains while it holds a key that is blank, has whitespace, is too long or has a forbidden character
  (`SlotKeys.DrainsExactly`, `Departures.BlankKeyStays`).
- A listed key with whitespace in it is cut, and MIGRATE is given the pieces, which are other keys
  (`SlotKeys.MigrateNamesExactly`, `Departures.BlankKeyCut`).
- A reader of the secret env file that takes the text after `=` as it stands sees a changed value whenever the value
  needed quotes (`SecretEnv.LiteralExactly`, `Departures.QuotedSecretChanged`).
- A deploy stops and removes the old container before it looks at the secrets and the command of the new one, so a
  request rejected for those has already taken the service down (`DockerIdentity.DeployRemovesBeforeChecking`),
  and the temporary secret file is left behind when the command is rejected
  (`DockerIdentity.SecretFileLeftExactly`).
- A mount path with a colon, a label key with `=` or an image that starts with `-` is read by docker as something
  else (`DeployReading.SaysTheRequestExactly`, `Departures.ColonMountMisread`, `Departures.DashImageMisread`).
- An abbreviated expected id never matches (`DockerIdentity.HexMatchesExactly`).
- A primary host with a vertical tab or form feed in it is accepted, and cut there in `pg_rewind`'s connection string
  (`PostgresReading.CommandsSayTheRequest`, `Departures.TabbedHostMisread`).

## Model

| member | source | states |
|---|---|---|
| `EnvFile.ParseEnvFile` | parton/src/directive_apply.rs:95-111 | the parser's loop computes `Parse`, the function of the round-trip theorems |
| `EnvFile.LineExactly` | parton/src/directive_apply.rs:97-109 | what a line adds, blanks around it aside: nothing when blank, a comment, without `=` or without a key; else the text behind the first `=`, under the trimmed key |
| `Text.LinesExactly` | parton/src/directive_apply.rs:97 | a line ends at LF or CR LF; a last piece without LF is a line as it is |
| `Text.TrimExactly` | parton/src/directive_apply.rs:98 | trimming takes away the blanks around a text and nothing else |
| `EnvFile.ParseStorable` | parton/src/directive_apply.rs:95-111 | whatever the text, parsing yields strictly ordered keys that are trimmed, non-empty, without `=`, no `#` in front, and values without line feed or trailing blank |
| `EnvFile.ParseRender` | parton/src/directive_apply.rs:95-119 | parse(render(m)) == m for every map of such entries |
| `EnvFile.RoundTripExactly` | parton/src/directive_apply.rs:95-119 | a map survives render and parse if and only if all its entries are such |
| `EnvFile.Normalising` | parton/src/directive_apply.rs:95-119 | for every text b, parse(render(parse(b))) == parse(b), and rendering is then stable |
| `OrderedMap.InsertSorted` | parton/src/directive_apply.rs:107 | inserting keeps the map in strict key order |
| `OrderedMap.GetInsert` | parton/src/directive_apply.rs:344-357 | an inserted key reads as inserted, every other key as before |
| `EnvRewrite.UpdatedLookup` | parton/src/directive_apply.rs:322-357 | every key of the updated map: five set, the shared token and all others kept |
| `EnvRewrite.HeartbeatUrlExactly` | parton/src/directive_apply.rs:339-343 | a URL without the heartbeat path is stored as its base, all trailing slashes cut, with the path behind it; a URL with the path is only trimmed |
| `EnvRewrite.ManagedKeys` | parton/src/directive_apply.rs:323-357 | the six keys of the agent by name, with the default cell, and the rewrite refused exactly when the node id is missing or blank |
| `EnvRewrite.RereadExactly` | parton/src/directive_apply.rs:320-359 | re-reading the rewritten file gives the old map with only those keys changed, if and only if the normalised URL and the key hold no line feed |
| `EnvRewrite.LineFeedCutsUrl` | parton/src/directive_apply.rs:339-344 | a URL that fails that condition |
| `EnvRewrite.OldOrNew` | parton/src/directive_apply.rs:360-379 | after any prefix of create, write, fsync, rename, chmod, with any fault: the target is the old file or the complete new text, and a crash leaves an earlier possible text or the complete new one |
| `EnvRewrite.CompleteExactly` | parton/src/directive_apply.rs:360-381 | which fault is which error and leaves which file, and that success means new text, synced, owner-only |
| `EnvRewrite.RewriteExactly` | parton/src/directive_apply.rs:320-379 | an unreadable file or a missing node id is an error before the first step; else the steps write the updated map |
| `EnvRewrite.EnvDir.Replace` | parton/src/directive_apply.rs:360-379 | the file-system steps in order, stopping at the first fault |
| `EnvRewrite.EnvDir.ApplyReenrollEnv` | parton/src/directive_apply.rs:311-382 | error, disk states and final disk are those of `Rewrite` |
| `EnvRewrite.NodeIdKept` | parton/src/directive_apply.rs:323-359 | the rewrite never changes the node id, whatever the new URL, key and token hold, line feeds included |
| `DirectivesWire.ReenrollReadsBackExactly` | parton/src/directives_wire.rs:9-39 | the signed re-enroll text says each field under its own name, if and only if no field holds a line feed |
| `DirectivesWire.RevokeReadsBackExactly` | parton/src/directives_wire.rs:43-57 | the same for revoke |
| `DirectivesWire.ReenrollInjective` | parton/src/directives_wire.rs:9-39 | equal texts of line-feed-free fields mean equal fields, times to the second |
| `DirectivesWire.RevokeInjective` | parton/src/directives_wire.rs:43-57 | the same for revoke |
| `DirectivesWire.KindsDisjoint` | parton/src/directives_wire.rs:25-56 | no text is both a re-enroll and a revoke, whatever the fields |
| `DirectivesWire.LineFeedsCollide` | parton/src/directives_wire.rs:43-57 | two revokes with line feeds and one text |
| `Directives.UnsignedSkippedExactly` | parton/src/directive_apply.rs:190-235 | when an unsigned re-enroll is skipped and when it is an error |
| `DirectiveChecks.SetupExactly` | parton/src/directive_apply.rs:142-155 | which keys a batch has, and for which cause it has none: both if and only if, from the environment and the identity file |
| `DirectiveChecks.AcceptedExactly` | parton/src/directive_apply.rs:190-237 | a re-enroll is accepted if and only if it is in its window, the node id is set, its token opens, and the signature verifies for the text written out field by field; what is then carried out is its URL, its key and its token |
| `DirectiveChecks.RefusedExactly` | parton/src/directive_apply.rs:203-213 | when it is an error instead, and which |
| `DirectiveChecks.SignedTextSays` | parton/src/directive_apply.rs:215-229 | that text reads back as the directive's fields, each under its own name, if and only if none holds a line feed |
| `DirectiveChecks.RevokedExactly` | parton/src/directive_apply.rs:292-299 | a revoke counts if and only if its signature verifies for its text, written out field by field |
| `DirectiveChecks.RevokeReportedExactly` | parton/src/directive_apply.rs:157-165 | a batch that goes through reports a revoke if and only if one of its revokes verifies, wherever it stands |
| `DirectiveChecks.ReportedExactly` | parton/src/directive_apply.rs:243-254 | the previous endpoint and token are those of the file before, the shared token ahead of the enrollment token; the token to report is the one the file then holds |
| `Directives.ApplyReenrollDirective` | parton/src/directive_apply.rs:168-263 | one re-enroll acts as its verdict says on outcome and disk |
| `Directives.EnrollDirective` | parton/src/directive_apply.rs:237-262 | previous endpoint and token are read before the rewrite, the new token is reported only after it |
| `Directives.ApplyRevokeDirective` | parton/src/directive_apply.rs:279-308 | a revoke sets the exit flag if and only if it verifies, and never fails |
| `Directives.ApplyDirectives` | parton/src/directive_apply.rs:136-165 | result, disk and every disk state on the way are those of `Apply` and `ApplyTrail` |
| `Directives.OkBatchIsFold` | parton/src/directive_apply.rs:157-164 | a batch that succeeds leaves the file as rewriting for its accepted re-enrolls in order, and reports the last of them and whether any revoke verified, wherever it stood |
| `Directives.OkExactly` | parton/src/directive_apply.rs:157-164 | a batch succeeds if and only if no check fails and every accepted re-enroll can rewrite the file it meets |
| `Directives.BatchExactly` | parton/src/directive_apply.rs:157-165 | any batch, failing or not, rewrites for its accepted re-enrolls up to the directive that ends it, which adds only its own steps and gives the error |
| `Directives.ApplyIsFold` | parton/src/directive_apply.rs:136-165 | both, for directives under one fixed set of keys |
| `AgentRuntime.FromLookup` | parton/src/agent_runtime.rs:59-97 | fails only without a node id; the grace window is never under 30 s |
| `AgentRuntime.ConfigRead` | parton/src/agent_runtime.rs:59-97 | every field: endpoint, cell and token as set or by default; interval, leases and grace window as printed, by default when unset or unusable, the window never under its floor |
| `AgentRuntime.Agent.constructor` | parton/src/main.rs:153-157 | the initial state of the loop |
| `AgentRuntime.Agent.RunHeartbeatStep` | parton/src/agent_runtime.rs:134-173 | new state, posts, outcome and disk states are those of `Step` and `StepTrail` |
| `AgentRuntime.Agent.HandleHeartbeatError` | parton/src/agent_runtime.rs:177-196 | the failure branch, with its fallback post |
| `AgentRuntime.Agent.SendApplyFailedFallback` | parton/src/agent_runtime.rs:249-295 | at most one report, to the previous endpoint, never with an applied token |
| `AgentRuntime.Agent.ProcessSuccessfulHeartbeat` | parton/src/agent_runtime.rs:198-246 | the success branch, directives included |
| `AgentRuntime.Agent.RecordReenroll` | parton/src/agent_runtime.rs:222-244 | arming the grace window, stamping the token, renewing the configuration |
| `AgentRuntime.RunLoop` | parton/src/main.rs:160-177 | the loop goes on exactly while steps continue |
| `AgentRuns.ContinueFacts` | parton/src/agent_runtime.rs:141-245 | the five variables after a step that continues, case by case, the whole configuration included |
| `AgentRuns.PostFacts` | parton/src/agent_runtime.rs:141-153 | what each report of a step carries, where it goes and with which token |
| `AgentRuns.AbortedBatch` | parton/src/agent_runtime.rs:157-217 | a batch that errs ends the agent acknowledged, with no grace record and no stamp, on the disk the batch left |
| `AgentRuns.RevokedExactly` | parton/src/agent_runtime.rs:213-221 | a step ends as revoked if and only if its batch goes through and holds a revoke that verifies; a batch with such a revoke ends the agent even when it does not go through |
| `AgentRuns.RevokeEndsRun` | parton/src/main.rs:160-177 | no iteration follows one whose batch held a revoke that verifies |
| `AgentRuns.FailsExactly` | parton/src/agent_runtime.rs:143-240 | the three ways a step fails, each if and only if its cause |
| `AgentRuns.FallbackExactly` | parton/src/agent_runtime.rs:177-196 | a heartbeat that fails within grace does send the fallback, when that can be built, with its message, endpoint and token, and stamps the next report |
| `AgentRuns.PanicsExactly` | parton/src/agent_runtime.rs:228-231 | the step panics if and only if it arms a window whose end the clock library cannot represent |
| `AgentRuns.GraceOrigin` | parton/src/agent_runtime.rs:153-245 | on every run a pending grace record is that of an earlier re-enroll, and every heartbeat since failed |
| `AgentRuns.GracePersists` | parton/src/agent_runtime.rs:177-196 | while heartbeats fail, that record stays as it is |
| `AgentRuns.ExpiresExactly` | parton/src/agent_runtime.rs:153-245 | on every run an iteration exits for grace if and only if an earlier one armed it, every heartbeat since failed, and the window is over |
| `AgentRuns.GivesUpOnlyAfterGrace` | parton/src/agent_runtime.rs:83-86 | as started by `main`, that takes 30 seconds or more |
| `AgentRuns.FallbackGoesBack` | parton/src/agent_runtime.rs:177-295 | on every run a fallback goes to the endpoint and with the token that the last re-enroll replaced, with the window open and every heartbeat since failed |
| `AgentRuns.GraceDrains` | parton/src/agent_runtime.rs:177-195 | with failing heartbeats and a clock that advances by at least d, the loop exits at the first reading past the deadline, within ceil(window/d) steps |
| `AgentRuns.StampsAlwaysConsistent` | parton/src/agent_runtime.rs:141-245 | at every iteration a failure stamp needs a grace record, and an applied token excludes a failure stamp and acknowledgement |
| `AgentRuns.TokenStampedOnce` | parton/src/agent_runtime.rs:141-173 | an applied token is on the next main report and on no other, never with a failure, never holding back the enrollment token |
| `AgentRuns.AnsweredReportCarriesToken` | parton/src/agent_runtime.rs:141-153 | an answered report carries the token if and only if it is the first after the application |
| `AgentRuns.AcknowledgedExactly` | parton/src/agent_runtime.rs:158-243 | acknowledged if and only if a heartbeat was answered and the last answer applied no re-enroll |
| `AgentRuns.ConfigOrigin` | parton/src/agent_runtime.rs:236-240 | on every run the endpoint, token, node and cell are those of the process environment at the last re-enroll; interval, leases and grace window never change |
| `EnvHistory.BatchOldOrWritten` | parton/src/directive_apply.rs:157-165 | over any batch, at every disk state and after a crash there, the file holds a text it could hold before, or the whole text that an accepted order made from the very text it found |
| `EnvHistory.RunOldOrWritten` | parton/src/main.rs:160-177 | the same over any run of the loop, order by order from the start, and the file never goes missing |
| `EnvHistory.BatchOrdersAccepted` | parton/src/directive_apply.rs:157-165 | the orders a batch gets to are the first of those it accepts, and all of them when it succeeds |
| `EnvHistory.SettledReads` | parton/src/directive_apply.rs:243-245 | a file that is all on disk reads as its text before and after a crash, so the next two hold from any such start |
| `EnvHistory.NodeIdForever` | parton/src/directive_apply.rs:323-353 | on every run, whatever is signed, applied, failing or crashing, the node id in the file never changes |
| `EnvHistory.OtherKeysForever` | parton/src/directive_apply.rs:322-359 | on every run whose carried-out orders have a single-line normalised URL, key and token, every key that the rewrite does not set reads as at the start, at every disk state and after a crash there |
| `Departures.UnsignedEndsBatch` | parton/src/directive_apply.rs:209-213 | an unsigned re-enroll that is an error |
| `Departures.GoodThenBadAborts` | parton/src/directive_apply.rs:157-165 | a good re-enroll, then a bad token: rewritten file, no stamp, no grace, and the end of the agent |
| `Departures.HugeWindowPanics` | parton/src/agent_runtime.rs:228-231 | a window that makes the step panic |
| `Departures.GraceExpires` | parton/src/agent_runtime.rs:187-190 | a run of two iterations that does exit for an expired window |
| `Departures.BlankKeyStays` | parton/src/actions/templated_exec/redis_migrate_keys.rs:88-94 | a key that no run of migrations moves |
| `Departures.BlankKeyCut` | parton/src/actions/templated_exec/redis_migrate_keys.rs:66-94 | a listing of one key for which MIGRATE is given two others |
| `Departures.ColonMountMisread` | parton/src/actions/docker_args.rs:104-111 | a mount that is read as another one |
| `Departures.DashImageMisread` | parton/src/actions/docker_args.rs:164-169 | an image that is read as a flag |
| `Departures.QuotedSecretChanged` | parton/src/actions/secret_env.rs:68-77 | a value that a literal reader sees with quotes |
| `TemplatedParams.ValidateTopologyPeers` | parton/src/actions/types.rs:494-544 | accepts exactly the lists within the limits whose every entry is well formed; each error for its cause |
| `TemplatedParams.AcceptedPeersResplit` | parton/src/actions/types.rs:505-543 | splitting an accepted list again gives the entries that were checked |
| `TemplatedParams.AcceptedExactly` | parton/src/actions/types.rs:494-544 | a peer list is accepted if and only if it is of bounded size and each entry is `shard@host:port` or `host:port` with parts of their kinds |
| `TemplatedParams.CutExactly` | parton/src/actions/templated_exec/clickhouse_rmt.rs:120-125 | an entry is cut into these three parts if and only if it is made of them |
| `TemplatedParams.AlphabetsExactly` | parton/src/actions/types.rs:566-585 | the characters of hosts, users and node ids |
| `TemplatedParams.SlotRangeVerdict` | parton/src/actions/types.rs:470-492 | a range is accepted if and only if it is ordered, within 0..16383 and within the batch, one slot for one-slot templates; and as given |
| `TemplatedParams.ValidatePrimaryConn` | parton/src/actions/types.rs:395-454 | host, port and user verdicts, in the code's order |
| `TemplatedParams.ValidateFor` | parton/src/actions/types.rs:341-393 | parameters pass if and only if every field passes its own check, and are then normalised; else the error is that of the first failing check in the code's order |
| `TemplatedParams.ValidExactly` | parton/src/actions/types.rs:214-281 | parameters pass if and only if each field that the template reads is of its kind, with the templates that read it listed |
| `TemplatedParams.DefaultsExactly` | parton/src/actions/types.rs:285-300 | accepted parameters carry the host, port and user given, or the template's default |
| `TemplatedParams.ValidatedSafe` | parton/src/actions/types.rs:341-393 | what a template can rely on afterwards, defaults and topology peers included |
| `Xml.ReadPrint` | parton/src/actions/templated_exec/clickhouse_rmt.rs:135-153 | a printed document reads back as itself if and only if its names and texts are legal XML |
| `Shell.LexEscaped` | parton/src/actions/templated_exec/clickhouse_rmt.rs:158 | an escaped text inside single quotes contributes exactly itself |
| `RemoteServers.CollectShards` | parton/src/actions/templated_exec/clickhouse_rmt.rs:118-134 | the grouping loop |
| `RemoteServers.BuildRemoteServersXml` | parton/src/actions/templated_exec/clickhouse_rmt.rs:117-154 | the text is the printed document of the grouped peers |
| `RemoteServers.ShardText` | parton/src/actions/templated_exec/clickhouse_rmt.rs:140-148 | the text of one shard |
| `RemoteServers.NamesByFirstAppearance` | parton/src/actions/templated_exec/clickhouse_rmt.rs:126-133 | shards stand in the order of their first peer, each once |
| `RemoteServers.GroupGrouped` | parton/src/actions/templated_exec/clickhouse_rmt.rs:118-134 | each shard has all and only its peers, in input order |
| `RemoteServers.NoneSkipped` | parton/src/actions/templated_exec/clickhouse_rmt.rs:120-125 | no accepted entry takes a silent `continue` |
| `RemoteServers.AcceptedPeersReadBack` | parton/src/actions/templated_exec/clickhouse_rmt.rs:117-154 | for every accepted list: no entry dropped, every shard of a peer there, grouped by first appearance, and the XML reads back as just that, if and only if the cluster name may start an XML name and no host holds a character XML forbids |
| `RemoteServers.DigitClusterUnreadable` | parton/src/actions/types.rs:575-581 | a cluster name that validation accepts and XML does not |
| `RemoteServers.ScriptTokens` | parton/src/actions/templated_exec/clickhouse_rmt.rs:156-166 | for every XML, the shell sees `printf`, `%s`, that XML, and a redirection to the fixed path |
| `RemoteServers.RunChRemoteServersApply` | parton/src/actions/templated_exec/clickhouse_rmt.rs:66-87 | reload only after a successful write of the built text; result and output for every way out |
| `RemoteServers.WrittenConfig` | parton/src/actions/templated_exec/clickhouse_rmt.rs:66-71 | for accepted parameters the third word of the script reads back as exactly the requested peers |
| `RemoteServers.RunRemoteServersAction` | parton/src/actions/templated_exec/mod.rs:147-167 | refused parameters run nothing and give the first failure; accepted ones write a text that reads back as the requested peers, and succeed only if write and reload did |
| `Runner.StrictExactly` | parton/src/actions/templated_exec/registry.rs:140-267 | for which templates a failed command can count as success |
| `Runner.BrokenPipeCountsAsOk` | parton/src/actions/templated_exec/registry.rs:286-292 | a failure that counts as success |
| `Standby.RunClearAndBackup` | parton/src/actions/templated_exec/postgres_standby.rs:19-26 | the clear and backup of both protocols, with every early way out |
| `Standby.RunStandbyBootstrap` | parton/src/actions/templated_exec/postgres_standby.rs:11-34 | the commands, for any answers, and the verdict |
| `Standby.RunStandbyFollow` | parton/src/actions/templated_exec/postgres_standby.rs:37-61 | the commands, for any answers, and the verdict |
| `Standby.FollowGuarded` | parton/src/actions/templated_exec/postgres_standby.rs:37-61 | follow wipes only right after a failed rewind, and starts only right after a successful rewind or backup |
| `Standby.BootstrapSucceedsExactly` | parton/src/actions/templated_exec/postgres_standby.rs:11-34 | success if and only if clear, backup and start succeeded |
| `Standby.FollowSucceedsExactly` | parton/src/actions/templated_exec/postgres_standby.rs:37-61 | success if and only if start did, and the rewind or both clear and backup did |
| `Standby.CallsGuarded` | parton/src/actions/templated_exec/postgres_standby.rs:11-61 | on any sequence of calls every start comes right after a successful backup or rewind |
| `Standby.NeverStartsEmptied` | parton/src/actions/templated_exec/postgres_standby.rs:11-61 | on any sequence of calls the container is never started on a wiped data directory, if a rewind does not succeed on one |
| `PostgresReading.CommandsSayTheRequest` | parton/src/actions/templated_exec/registry.rs:315-400 | for accepted parameters the commands stop, clear, fill and start that container from the requested host, port and user, defaults included; the rewind too, if and only if the host holds no vertical tab and no form feed |
| `PostgresReading.ConnReadExactly` | parton/src/actions/templated_exec/registry.rs:384-387 | a connection string reads back as host, port and user if and only if the host has no blank |
| `SlotKeys.ParsePrinted` | parton/src/actions/templated_exec/redis_migrate_keys.rs:88-94 | keys without whitespace are read as they were printed |
| `SlotKeys.RunMigrateSlotKeys` | parton/src/actions/templated_exec/redis_migrate_keys.rs:14-51 | MIGRATE names exactly the whitespace-separated pieces of the listing, or is not run; runner error, refused key, verdict and output told apart |
| `SlotKeys.ParsesBackExactly` | parton/src/actions/templated_exec/redis_migrate_keys.rs:88-94 | a listing is read back as the keys printed if and only if none is empty or holds whitespace |
| `SlotKeys.MigrateNamesExactly` | parton/src/actions/templated_exec/redis_migrate_keys.rs:24-44 | when MIGRATE is run, and that it then names exactly the listed keys if and only if none is empty or holds whitespace |
| `SlotKeys.TrimParses` | parton/src/actions/templated_exec/runner.rs:14-20 | the trimming that the runner does to the listing changes no key that is read |
| `SlotKeys.CallConserves` | parton/src/actions/templated_exec/redis_migrate_keys.rs:14-51 | no call loses or invents a key, failed and partial migrations included |
| `SlotKeys.UnmovableStays` | parton/src/actions/templated_exec/redis_migrate_keys.rs:24-42 | a key that cannot be printed, cut and checked stays at the source |
| `SlotKeys.CallDrains` | parton/src/actions/templated_exec/redis_migrate_keys.rs:14-51 | a successful call moves min(100, n) of n movable keys, and sends no MIGRATE when n is 0 |
| `SlotKeys.RunConserves` | parton/src/actions/templated_exec/redis_migrate_keys.rs:14-51 | conservation over any sequence of calls |
| `SlotKeys.RunDrains` | parton/src/actions/templated_exec/redis_migrate_keys.rs:14-51 | how many keys are left after any number of successful calls |
| `SlotKeys.DrainsExactly` | parton/src/actions/templated_exec/redis_migrate_keys.rs:14-103 | successful calls empty the slot if and only if all its keys are movable and there were ceil(n/100) calls or more |
| `RedisReading.MoveSaysTheRequest` | parton/src/actions/templated_exec/redis_migrate_keys.rs:54-86 | the listing asks for 100 keys of the requested slot, and MIGRATE sends its keys to the requested host and port, database 0, in 5000 ms |
| `Slots.RedisTemplatedExecArgv` | parton/src/actions/templated_exec/registry.rs:79-138 | the argument vector of each Redis template |
| `RedisReading.CommandSaysTheRequest` | parton/src/actions/templated_exec/registry.rs:79-138 | for accepted parameters each template's command reads as the requested operation on that container: host, port, node, slots and slot state |
| `Slots.PushSlots` | parton/src/actions/templated_exec/registry.rs:105-107 | the slot loop |
| `Slots.ValidRangeNamed` | parton/src/actions/templated_exec/registry.rs:102-108 | a validated range's command names its slots in order, 64 at most |
| `Slots.AllSlotsAssignedOnce` | parton/src/actions/types.rs:470-492 | validated ranges that tile all slots name each of the 16384 once, in order, with at least 256 commands |
| `HealthCheck.JsonPathGet` | parton/src/command_queue/health_check.rs:8-17 | the walk computes `PathGet` |
| `HealthCheck.KeyNamesField` | parton/src/command_queue/health_check.rs:8-17 | the empty path names the whole, a single key the field of that name or nothing; with the next row, every path |
| `HealthCheck.PathComposes` | parton/src/command_queue/health_check.rs:8-17 | looking up p.q is looking up q in what p names, for all paths |
| `HealthCheck.EmptySegmentsSkipped` | parton/src/command_queue/health_check.rs:11-13 | only the non-empty segments count |
| `HealthCheck.PerLogicalAllStateOk` | parton/src/command_queue/health_check.rs:20-31 | true if and only if every entry's state is `ok`, in any order |
| `HealthCheck.EvaluateHealthBody` | parton/src/command_queue/health_check.rs:36-110 | verdict and the detail that remains |
| `HealthCheck.CheckAssertions` | parton/src/command_queue/health_check.rs:87-102 | the assertion loop stops at the first entry that is malformed or fails |
| `HealthCheck.AssertionsMeaning` | parton/src/command_queue/health_check.rs:87-102 | all hold, or the first that does not is malformed: both if and only if |
| `HealthCheck.PassesExactly` | parton/src/command_queue/health_check.rs:36-110 | with an ok status a body passes if and only if the declared checks hold |
| `HealthCheck.ErrsExactly` | parton/src/command_queue/health_check.rs:87-94 | it is an error if and only if the first entry that does not hold is malformed |
| `HealthCheck.FailingStatus` | parton/src/command_queue/health_check.rs:44-64 | what a failing status leaves of the checks |
| `HealthCheck.FirstRejectionStays` | parton/src/command_queue/health_check.rs:87-102 | the first assertion that does not hold gives the error or the detail, by its cause |
| `HealthCheck.LastFailureReported` | parton/src/command_queue/health_check.rs:44-109 | of several failing checks the assertions are reported, else the states, else the mode, each by its cause |
| `SecretEnv.ValidateName` | parton/src/actions/secret_env.rs:13-35 | accepts exactly trimmed `[A-Z_][A-Z0-9_]*`; each error for its cause |
| `SecretEnv.ValidateVars` | parton/src/actions/secret_env.rs:50-66 | accepts exactly the lists of valid entries; else the error of the first bad one, its name before its value |
| `SecretEnv.TwoPasses` | parton/src/actions/secret_env.rs:75 | the two replacement passes equal escaping character by character |
| `SecretEnv.UnquoteQuoted` | parton/src/actions/secret_env.rs:68-77 | quoted and raw forms cannot be confused: unquoting gives the value back |
| `SecretEnv.LiteralExactly` | parton/src/actions/secret_env.rs:68-77 | a reader that does not unquote sees the value if and only if it needed no quotes |
| `SecretEnv.WriteContents` | parton/src/actions/secret_env.rs:85-99 | the text that is written, for valid lists only; else the first entry's error |
| `SecretEnv.ContentsReadBack` | parton/src/actions/secret_env.rs:68-99 | the file says exactly the trimmed names and the values, in order |
| `SecretEnv.ContentsInjective` | parton/src/actions/secret_env.rs:68-99 | equal files mean equal trimmed names and equal values |
| `DockerArgs.DeployCommandStrings` | parton/src/actions/docker_args.rs:7-18 | all strings in order, or the first value that is none |
| `DockerArgs.DeployDockerArgs` | parton/src/actions/docker_args.rs:65-173 | fails exactly for a non-string command value; else the vector is `Arguments` |
| `DockerArgs.ReadsAsAskedExactly` | parton/src/actions/docker_args.rs:65-173 | read flag by flag the vector gives back options, image and command, if and only if the image does not start with `-` |
| `DockerArgs.EveryFlagRead` | parton/src/actions/docker_args.rs:65-165 | each flag is read with the values the request wants for it, in order, and no others |
| `DeployReading.MountReadExactly` | parton/src/actions/docker_args.rs:104-111 | a mount is read back if and only if neither path holds a colon |
| `DeployReading.LabelsReadExactly` | parton/src/actions/docker_args.rs:112-115 | the label map is read back if and only if no trimmed key holds an `=` |
| `DeployReading.LabelOrderIrrelevant` | parton/src/actions/docker_args.rs:112-115 | the order of the hash map does not matter when trimmed keys are distinct |
| `DeployReading.ProbeCommandReads` | parton/src/actions/docker_args.rs:126-138 | the health command determines port and path |
| `DeployReading.SaysTheRequestExactly` | parton/src/actions/docker_args.rs:65-173 | the vector as a whole says the requested deployment (name, network, hosts, environment, ports, mounts, labels, limits, probe, entrypoint, restart policy, image, command) if and only if those three conditions hold |
| `DockerGuard.InspectContainerId` | parton/src/actions/docker_exec.rs:230-248 | the id query and its three answers |
| `DockerGuard.MaybeIdentitySkip` | parton/src/actions/docker_exec.rs:276-317 | the stop and restart guard |
| `DockerGuard.GuardedDeployPrecleanup` | parton/src/actions/docker_exec.rs:320-348 | the deploy guard with its stop and removal |
| `DockerGuard.RunDockerCommand` | parton/src/actions/docker_exec.rs:192-219 | stdout, else stderr, on success; an error otherwise |
| `DockerGuard.Launch` | parton/src/actions/docker_exec.rs:460-471 | secret file, arguments, run, removal of the file |
| `DockerGuard.RunGeneralAction` | parton/src/actions/docker_exec.rs:451-480 | a request changes the host as `GeneralStep` says |
| `DockerAnswers.QueryExactly` | parton/src/actions/docker_exec.rs:230-248 | the id query changes nothing; its three answers, each if and only if its cause |
| `DockerAnswers.AnsweredExactly` | parton/src/actions/docker_exec.rs:192-480 | every request is skipped or refused for its cause after no more than the id query, or runs its own command line and answers exactly what docker answers to that: trimmed output, standard error if that is blank, or a failure |
| `DockerIdentity.GuardHolds` | parton/src/actions/docker_exec.rs:276-348 | whatever docker answers, a request reaches only the container its name resolved to, and that only with the expected id if one is given |
| `DockerIdentity.StopsExactly` | parton/src/actions/docker_exec.rs:276-317 | when a guarded stop or restart acts |
| `DockerIdentity.MismatchedDeployRefused` | parton/src/actions/docker_exec.rs:335-346 | a mismatched deploy is an error and changes nothing |
| `DockerIdentity.DeployRemovesBeforeChecking` | parton/src/actions/docker_exec.rs:457-467 | what a deploy takes down does not depend on its secrets and command, and happens even if it is rejected for those |
| `DockerIdentity.SecretFileLeftExactly` | parton/src/actions/docker_exec.rs:460-471 | when the temporary secret file outlives the request |
| `DockerIdentity.NormalizeHex` | parton/src/actions/docker_exec.rs:221-227 | the normal form of a hexadecimal id, in any case, with blanks around and with or without digest prefix |
| `DockerIdentity.HexMatchesExactly` | parton/src/actions/docker_exec.rs:303 | such an id matches only itself |
| `DockerIdentity.EveryTouchAccounted` | parton/src/actions/docker_exec.rs:276-480 | on every run, with other actors changing containers between requests, each stop, restart and removal belongs to a request for that very container, with its expected id |

## Assumptions

Cryptography and base64 are arbitrary functions. Time formatting is an arbitrary function too; where two signed
texts are compared it is assumed to tell seconds apart and to hold no line feed (`FormatsSeconds`). Docker's part in
`DockerIdentity` is: references and ids carry no surrounding whitespace (`Proper`), a successful id query on a
reference that resolves prints its id, `docker run` takes no existing reference away. Redis's part in `SlotKeys`
is `Transition`, with the listing trimmed as the runner trims all output; Postgres's part in `Standby` is that `pg_rewind`
does not succeed on an emptied directory. `PostgresReading` reads options as `getopt` does and connection strings as
`name=value` pairs ended by a blank of C's `isspace`, without quotes and backslashes, which accepted parameters do not
hold; `RedisReading` reads the words that `redis-cli` is given.

## Left out

- HTTP transport, SPIFFE headers, metrics, tracing, `tokio` and the sleep between iterations: libraries not shown.
- The insides of Ed25519, sealed boxes, SHA-256, base64 and RFC 3339: parameters of the model.
- Claiming actions and posting results in the main loop: they do not touch the five loop variables.
- Host probing, `docker ps` parsing, mounts, memory: thin parsing and sums.
- Image policy, cosign, network and mount checks, SSRF masks: single decisions and foreign calls.
- `ensure_docker_image`, `ensure_network`, handoff teardown, WireGuard, `grow_fs`, diagnostics.
- Mongo scripts, bulk copies, `run_ch_distributed_ensure` and the ClickHouse readiness arguments: literals.
- Message tables and error texts: verdicts and causes are modelled, their wording is not; health details are
  constructors, so text clipping is not modelled either.
- `report.success` of queue actions, which the code sets regardless of the response.
- Environment variables are looked up, never changed: after a re-enroll the configuration is renewed from an
  arbitrary lookup, as the code reads the process environment and not the rewritten file.
- Crashes are modelled at the granularity of characters written, not of disk blocks or bytes within a character.
- JSON numbers are compared by their printed text, so `0.0` and `-0.0`, which serde holds equal, differ.
- Aliasing: values that the source clones or borrows are values here, with no sharing to go wrong.
- Shell.LexEscaped: the tokeniser covers single quotes, backslashes, blanks, plain words and output redirection, and
  answers nothing for every other operator, quotation and expansion, and for digits right before `>`, quoted or not.
  Reserved words, aliases and assignments are plain words to it, as at this level they are to the shell.
- Xml.ReadPrint: the reader covers elements and character data, with the ASCII part of XML names.
