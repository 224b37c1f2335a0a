/** What the Redis commands say, read as `docker exec` and `redis-cli` read them, against what was requested. */
module RedisReading {
  import opened Integers
  import opened Wrappers
  import opened Text
  import opened TemplatedParams
  import opened Slots
  import opened SlotKeys

  datatype Op =
    | ReplicaOf(host: string, port: nat)
    | Meet(host: string, port: nat)
    | Replicate(node: string)
    | AddSlots(slots: seq<nat>)
    | SetSlot(slot: nat, state: string, node: string)
    | MyId
    | ListKeys(slot: nat, count: nat)
    | Migrate(host: string, port: nat, db: nat, timeoutMs: nat, keys: seq<string>)

  /** `docker exec <container> redis-cli <word>...`: the container and the words. */
  function ReadExec(argv: seq<string>): Option<(string, seq<string>)> {
    if |argv| >= 4 && argv[0] == "exec" && argv[2] == "redis-cli" then Some((argv[1], argv[3..])) else None
  }

  function Addressed(host: string, port: string): Option<(string, nat)> {
    match ParseUnsigned(port, U16_MAX)
    case None => None
    case Some(n) => Some((host, n))
  }

  /** The words of a `CLUSTER` command, behind that. */
  function ReadCluster(words: seq<string>): Option<Op> {
    if |words| == 3 && words[0] == "MEET" then
      match Addressed(words[1], words[2])
      case None => None
      case Some((host, port)) => Some(Meet(host, port))
    else if |words| == 2 && words[0] == "REPLICATE" then Some(Replicate(words[1]))
    else if |words| >= 1 && words[0] == "ADDSLOTS" then
      match ReadSlots(words[1..])
      case None => None
      case Some(slots) => Some(AddSlots(slots))
    else if |words| == 4 && words[0] == "SETSLOT" then
      match ParseUnsigned(words[1], MAX_SLOT)
      case None => None
      case Some(slot) => Some(SetSlot(slot, words[2], words[3]))
    else if words == ["MYID"] then Some(MyId)
    else if |words| == 3 && words[0] == "GETKEYSINSLOT" then
      match (ParseUnsigned(words[1], MAX_SLOT), ParseUnsigned(words[2], U32_MAX))
      case (Some(slot), Some(count)) => Some(ListKeys(slot, count))
      case _ => None
    else None
  }

  /** The words of `MIGRATE host port "" db timeout KEYS key...`, behind the first. */
  function ReadMigrate(words: seq<string>): Option<Op> {
    if |words| < 6 || words[2] != "" || words[5] != "KEYS" then None
    else
      match (ParseUnsigned(words[1], U16_MAX), ParseUnsigned(words[3], U32_MAX), ParseUnsigned(words[4], U32_MAX))
      case (Some(port), Some(db), Some(timeout)) => Some(Migrate(words[0], port, db, timeout, words[6..]))
      case _ => None
  }

  function ReadWords(words: seq<string>): Option<Op> {
    if words == [] then None
    else if words[0] == "CLUSTER" then ReadCluster(words[1..])
    else if words[0] == "MIGRATE" then ReadMigrate(words[1..])
    else if words[0] == "REPLICAOF" && |words| == 3 then
      match Addressed(words[1], words[2])
      case None => None
      case Some((host, port)) => Some(ReplicaOf(host, port))
    else None
  }

  ghost predicate Says(argv: seq<string>, c: string, op: Op) {
    ReadExec(argv).Some? && ReadExec(argv).value.0 == c && ReadWords(ReadExec(argv).value.1) == Some(op)
  }

  // ---- What was requested

  /** The port that a request names, that of Redis by default. */
  function Port(p: Params): nat {
    if p.primaryPort == 0 then 6379 else p.primaryPort
  }

  /** What a single-command template is to do. */
  function Requested(p: Params, t: Template): Option<Op> {
    match t
    case RedisReplicaof => Some(ReplicaOf(Trim(p.primaryHost), Port(p)))
    case RedisClusterMeet => Some(Meet(Trim(p.primaryHost), Port(p)))
    case RedisClusterReplicate => Some(Replicate(Trim(p.clusterNodeId)))
    case RedisClusterSlotsAssign =>
      if p.slotStart <= p.slotEnd then Some(AddSlots(Range(p.slotStart, p.slotEnd - p.slotStart + 1))) else None
    case RedisClusterMigrate => Some(SetSlot(p.slotStart, "NODE", Trim(p.clusterNodeId)))
    case RedisClusterMyId => Some(MyId)
    case RedisClusterSetslotImporting => Some(SetSlot(p.slotStart, "IMPORTING", Trim(p.clusterNodeId)))
    case RedisClusterSetslotMigrating => Some(SetSlot(p.slotStart, "MIGRATING", Trim(p.clusterNodeId)))
    case _ => None
  }

  lemma ExecReads(c: string, words: seq<string>)
    requires words != []
    ensures ReadExec(["exec", c, "redis-cli"] + words) == Some((c, words))
  {
    var argv := ["exec", c, "redis-cli"] + words;
    assert argv[3..] == words;
  }

  predicate SetsSlot(t: Template) {
    t.RedisClusterMigrate? || t.RedisClusterSetslotImporting? || t.RedisClusterSetslotMigrating?
  }

  lemma NormalisedAddress(p: Params, t: Template)
    requires Valid(p, t) && (t.RedisReplicaof? || t.RedisClusterMeet? || t.RedisClusterMigrateSlotKeys?)
    ensures Normalised(p, t).primaryHost == Trim(p.primaryHost) && Normalised(p, t).primaryPort == Port(p)
  {
    hide Trim, HostAllowed, UserVerdict, ClusterNodeIdVerdict, SlotRangeVerdict, TopologyVerdict;
  }

  lemma NormalisedNode(p: Params, t: Template)
    requires Valid(p, t) && (t.RedisClusterReplicate? || SetsSlot(t))
    ensures Normalised(p, t).clusterNodeId == Trim(p.clusterNodeId)
  {
    hide Trim, ClusterNodeIdAllowed, UserVerdict, PrimaryHostVerdict, SlotRangeVerdict, TopologyVerdict;
  }

  lemma NormalisedSlots(p: Params, t: Template)
    requires Valid(p, t) && (t.RedisClusterSlotsAssign? || SetsSlot(t) || t.RedisClusterMigrateSlotKeys?)
    ensures var v := Normalised(p, t); p.slotStart == v.slotStart <= v.slotEnd == p.slotEnd <= MAX_SLOT
  {
    hide UserVerdict, PrimaryHostVerdict, ClusterNodeIdVerdict, TopologyVerdict;
  }

  lemma NormalisedRequest(p: Params, t: Template)
    requires Valid(p, t)
    ensures var v := Normalised(p, t);
            && (t.RedisReplicaof? || t.RedisClusterMeet? || t.RedisClusterMigrateSlotKeys? ==>
                  v.primaryHost == Trim(p.primaryHost) && v.primaryPort == Port(p))
            && (t.RedisClusterReplicate? || SetsSlot(t) ==> v.clusterNodeId == Trim(p.clusterNodeId))
            && (t.RedisClusterSlotsAssign? || SetsSlot(t) || t.RedisClusterMigrateSlotKeys? ==>
                  p.slotStart == v.slotStart <= v.slotEnd == p.slotEnd <= MAX_SLOT)
  {
    hide Valid, Normalised, Trim, Port;
    if t.RedisReplicaof? || t.RedisClusterMeet? || t.RedisClusterMigrateSlotKeys? { NormalisedAddress(p, t); }
    if t.RedisClusterReplicate? || SetsSlot(t) { NormalisedNode(p, t); }
    if t.RedisClusterSlotsAssign? || SetsSlot(t) || t.RedisClusterMigrateSlotKeys? { NormalisedSlots(p, t); }
  }

  lemma ClusterReads(words: seq<string>)
    ensures ReadWords(["CLUSTER"] + words) == ReadCluster(words)
  {
    assert (["CLUSTER"] + words)[1..] == words;
    hide ReadCluster;
  }

  lemma SetSlotReads(slot: nat, state: string, node: string)
    requires slot <= MAX_SLOT
    ensures ReadCluster(["SETSLOT", Decimal(slot), state, node]) == Some(SetSlot(slot, state, node))
  {
    ParseDecimal(slot, MAX_SLOT);
    hide Decimal, ParseUnsigned, ReadSlots;
  }

  lemma AddSlotsReads(first: nat, last: nat)
    requires first <= last <= MAX_SLOT
    ensures ReadCluster(["ADDSLOTS"] + SlotTokens(first, last)) == Some(AddSlots(Range(first, last - first + 1)))
  {
    hide SlotTokens, ReadSlots, Range;
    ReadSlotTokens(first, last);
    assert (["ADDSLOTS"] + SlotTokens(first, last))[1..] == SlotTokens(first, last);
  }

  lemma AddressReads(host: string, port: nat)
    requires port <= U16_MAX
    ensures ReadCluster(["MEET", host, Decimal(port)]) == Some(Meet(host, port))
    ensures ReadWords(["REPLICAOF", host, Decimal(port)]) == Some(ReplicaOf(host, port))
  {
    ParseDecimal(port, U16_MAX);
    hide Decimal, ParseUnsigned, ReadSlots, ReadMigrate;
  }

  lemma ListReads(slot: nat)
    requires slot <= MAX_SLOT
    ensures ReadCluster(["GETKEYSINSLOT", Decimal(slot), Decimal(100)]) == Some(ListKeys(slot, 100))
  {
    ParseDecimal(slot, MAX_SLOT);
    ParseDecimal(100, U32_MAX);
    hide Decimal, ParseUnsigned, ReadSlots;
  }

  lemma NodeReads(node: string)
    ensures ReadCluster(["REPLICATE", node]) == Some(Replicate(node)) && ReadCluster(["MYID"]) == Some(MyId)
  {
    hide Decimal, ParseUnsigned, ReadSlots;
  }

  lemma ClusterWords(host: string, port: string, node: string, slots: seq<string>)
    ensures ["CLUSTER", "MEET", host, port] == ["CLUSTER"] + ["MEET", host, port]
    ensures ["CLUSTER", "REPLICATE", node] == ["CLUSTER"] + ["REPLICATE", node]
    ensures ["CLUSTER", "MYID"] == ["CLUSTER"] + ["MYID"]
    ensures ["CLUSTER", "ADDSLOTS"] + slots == ["CLUSTER"] + (["ADDSLOTS"] + slots)
  {
  }

  lemma SlotWords(slot: string, state: string, node: string)
    ensures ["CLUSTER", "SETSLOT", slot, state, node] == ["CLUSTER"] + ["SETSLOT", slot, state, node]
  {
  }

  /** The commands about one slot. */
  lemma SetSlotWords(p: Params, t: Template, v: Params)
    requires SetsSlot(t) && v.clusterNodeId == Trim(p.clusterNodeId) && p.slotStart == v.slotStart <= MAX_SLOT
    ensures RedisCommand(t, v) != [] && ReadWords(RedisCommand(t, v)) == Requested(p, t)
  {
    hide ReadWords, ReadCluster, Decimal, Trim;
    var state := if t.RedisClusterMigrate? then "NODE" else if t.RedisClusterSetslotImporting? then "IMPORTING"
                 else "MIGRATING";
    SetSlotReads(v.slotStart, state, v.clusterNodeId);
    SlotWords(Decimal(v.slotStart), state, v.clusterNodeId);
    ClusterReads(["SETSLOT", Decimal(v.slotStart), state, v.clusterNodeId]);
  }

  lemma WordsRead(p: Params, t: Template, v: Params)
    requires Requested(p, t).Some?
    requires t.RedisReplicaof? || t.RedisClusterMeet? ==>
               v.primaryHost == Trim(p.primaryHost) && v.primaryPort == Port(p)
    requires t.RedisClusterReplicate? || SetsSlot(t) ==> v.clusterNodeId == Trim(p.clusterNodeId)
    requires t.RedisClusterSlotsAssign? || SetsSlot(t) ==>
               p.slotStart == v.slotStart <= v.slotEnd == p.slotEnd <= MAX_SLOT
    ensures RedisCommand(t, v) != [] && ReadWords(RedisCommand(t, v)) == Requested(p, t)
  {
    hide ReadWords, ReadCluster, Decimal, Trim, SlotTokens, Range;
    if SetsSlot(t) {
      SetSlotWords(p, t, v);
    } else {
      AddressReads(v.primaryHost, v.primaryPort);
      NodeReads(v.clusterNodeId);
      ClusterWords(v.primaryHost, Decimal(v.primaryPort), v.clusterNodeId, SlotTokens(v.slotStart, v.slotEnd));
      ClusterReads(["MEET", v.primaryHost, Decimal(v.primaryPort)]);
      ClusterReads(["REPLICATE", v.clusterNodeId]);
      ClusterReads(["MYID"]);
      if t.RedisClusterSlotsAssign? {
        AddSlotsReads(v.slotStart, v.slotEnd);
        ClusterReads(["ADDSLOTS"] + SlotTokens(v.slotStart, v.slotEnd));
      }
    }
  }

  lemma ListWords(c: string, slot: nat)
    ensures ReadExec(GetKeysArgv(c, slot))
         == Some((c, ["CLUSTER"] + ["GETKEYSINSLOT", Decimal(slot), Decimal(100)]))
  {
    hide Decimal;
    assert GetKeysArgv(c, slot)[3..] == ["CLUSTER"] + ["GETKEYSINSLOT", Decimal(slot), Decimal(100)];
  }

  lemma MigrateReads(host: string, port: nat, keys: seq<string>)
    requires port <= U16_MAX
    ensures ReadMigrate([host, Decimal(port), "", "0", "5000", "KEYS"] + keys)
         == Some(Migrate(host, port, 0, 5000, keys))
  {
    ParseDecimal(port, U16_MAX);
    SmallNumbers();
    hide Decimal, ParseUnsigned;
    assert ([host, Decimal(port), "", "0", "5000", "KEYS"] + keys)[6..] == keys;
  }

  lemma SmallNumbers()
    ensures ParseUnsigned("0", U32_MAX) == Some(0) && ParseUnsigned("5000", U32_MAX) == Some(5000)
  {
    assert "5000"[..3] == "500" && "500"[..2] == "50" && "50"[..1] == "5" && "5"[..0] == "";
    assert DigitsValue("5") == 5;
    assert DigitsValue("50") == 50;
    assert DigitsValue("500") == 500;
  }

  lemma MigrateWords(c: string, v: Params, keys: seq<string>)
    ensures ReadExec(MigrateArgv(c, v, keys)).Some?
    ensures var (container, words) := ReadExec(MigrateArgv(c, v, keys)).value;
            container == c && ReadWords(words)
                              == ReadMigrate([v.primaryHost, Decimal(v.primaryPort), "", "0", "5000", "KEYS"] + keys)
  {
    hide Decimal, ReadMigrate;
    var argv := MigrateArgv(c, v, keys);
    assert argv[3..][1..] == [v.primaryHost, Decimal(v.primaryPort), "", "0", "5000", "KEYS"] + keys;
  }

  /** For accepted parameters, the command of a single-command template says what was requested, to that container. */
  lemma CommandSaysTheRequest(c: string, p: Params, t: Template)
    requires Valid(p, t) && Requested(p, t).Some?
    ensures Says(["exec", c, "redis-cli"] + RedisCommand(t, Normalised(p, t)), c, Requested(p, t).value)
  {
    hide Valid, Normalised, ReadExec, ReadWords, RedisCommand, Requested;
    NormalisedRequest(p, t);
    WordsRead(p, t, Normalised(p, t));
    ExecReads(c, RedisCommand(t, Normalised(p, t)));
  }

  /** The listing asks for up to 100 keys of the slot; the migration moves its keys to the requested node at once. */
  lemma MoveSaysTheRequest(c: string, p: Params, keys: seq<string>)
    requires Valid(p, RedisClusterMigrateSlotKeys)
    ensures var v := Normalised(p, RedisClusterMigrateSlotKeys);
            && Says(GetKeysArgv(c, v.slotStart), c, ListKeys(p.slotStart, 100))
            && Says(MigrateArgv(c, v, keys), c, Migrate(Trim(p.primaryHost), Port(p), 0, 5000, keys))
  {
    hide Valid, Normalised, ReadExec, ReadCluster, ReadMigrate, Decimal, Trim;
    var v := Normalised(p, RedisClusterMigrateSlotKeys);
    NormalisedRequest(p, RedisClusterMigrateSlotKeys);
    ListReads(v.slotStart);
    ListWords(c, v.slotStart);
    ClusterReads(["GETKEYSINSLOT", Decimal(v.slotStart), Decimal(100)]);
    MigrateReads(v.primaryHost, v.primaryPort, keys);
    MigrateWords(c, v, keys);
  }
}
