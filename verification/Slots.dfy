/** `CLUSTER` command lines, and handing out the slots of a Redis Cluster. */
module Slots {
  import opened Wrappers
  import opened Text
  import opened TemplatedParams

  const SLOT_COUNT: nat := MAX_SLOT + 1

  function SlotTokens(first: nat, last: nat): seq<string>
    decreases last + 1 - first
  {
    if first > last then [] else [Decimal(first)] + SlotTokens(first + 1, last)
  }

  /** The tokens after `redis-cli` for each single-step Redis template. */
  function RedisCommand(t: Template, p: Params): seq<string> {
    match t
    case RedisReplicaof => ["REPLICAOF", p.primaryHost, Decimal(p.primaryPort)]
    case RedisClusterMeet => ["CLUSTER", "MEET", p.primaryHost, Decimal(p.primaryPort)]
    case RedisClusterReplicate => ["CLUSTER", "REPLICATE", p.clusterNodeId]
    case RedisClusterSlotsAssign => ["CLUSTER", "ADDSLOTS"] + SlotTokens(p.slotStart, p.slotEnd)
    case RedisClusterMigrate => ["CLUSTER", "SETSLOT", Decimal(p.slotStart), "NODE", p.clusterNodeId]
    case RedisClusterMyId => ["CLUSTER", "MYID"]
    case RedisClusterSetslotImporting => ["CLUSTER", "SETSLOT", Decimal(p.slotStart), "IMPORTING", p.clusterNodeId]
    case RedisClusterSetslotMigrating => ["CLUSTER", "SETSLOT", Decimal(p.slotStart), "MIGRATING", p.clusterNodeId]
    case _ => []
  }

  lemma {:induction false} SlotTokensSnoc(first: nat, last: nat)
    requires first <= last
    ensures SlotTokens(first, last) ==
            (if last == first then [] else SlotTokens(first, last - 1)) + [Decimal(last)]
    decreases last - first
  {
    if first < last {
      SlotTokensSnoc(first + 1, last);
    } else {
      assert SlotTokens(first + 1, last) == [];
    }
  }

  /** `redis_templated_exec_argv`. */
  method RedisTemplatedExecArgv(c: string, t: Template, p: Params) returns (argv: seq<string>)
    ensures argv == ["exec", c, "redis-cli"] + RedisCommand(t, p)
  {
    hide Decimal, SlotTokens;
    argv := ["exec", c, "redis-cli"];
    match t {
      case RedisReplicaof =>
        argv := argv + ["REPLICAOF"] + [p.primaryHost] + [Decimal(p.primaryPort)];
      case RedisClusterMeet =>
        argv := argv + ["CLUSTER"] + ["MEET"] + [p.primaryHost] + [Decimal(p.primaryPort)];
      case RedisClusterReplicate =>
        argv := argv + ["CLUSTER"] + ["REPLICATE"] + [p.clusterNodeId];
      case RedisClusterSlotsAssign =>
        var slots := PushSlots(p.slotStart, p.slotEnd);
        argv := argv + ["CLUSTER"] + ["ADDSLOTS"] + slots;
      case RedisClusterMigrate =>
        argv := argv + ["CLUSTER"] + ["SETSLOT"] + [Decimal(p.slotStart)] + ["NODE"] + [p.clusterNodeId];
      case RedisClusterMyId =>
        argv := argv + ["CLUSTER"] + ["MYID"];
      case RedisClusterSetslotImporting =>
        argv := argv + ["CLUSTER"] + ["SETSLOT"] + [Decimal(p.slotStart)] + ["IMPORTING"] + [p.clusterNodeId];
      case RedisClusterSetslotMigrating =>
        argv := argv + ["CLUSTER"] + ["SETSLOT"] + [Decimal(p.slotStart)] + ["MIGRATING"] + [p.clusterNodeId];
      case _ =>
    }
  }

  /** The loop over the slots of a range, none when it is empty. */
  method PushSlots(first: nat, last: nat) returns (tokens: seq<string>)
    ensures tokens == SlotTokens(first, last)
  {
    hide Decimal;
    tokens := [];
    if first > last { return; }
    for slot := first to last + 1
      invariant tokens == if slot == first then [] else SlotTokens(first, slot - 1)
    {
      SlotTokensSnoc(first, slot);
      tokens := tokens + [Decimal(slot)];
    }
  }

  // ---- Reading a command line as redis-cli does

  /** The slots an `ADDSLOTS` command names; `None` for anything else. */
  function AddedSlots(argv: seq<string>): Option<seq<nat>> {
    if |argv| < 5 || argv[2] != "redis-cli" || argv[3] != "CLUSTER" || argv[4] != "ADDSLOTS" then None
    else ReadSlots(argv[5..])
  }

  function ReadSlots(tokens: seq<string>): Option<seq<nat>> {
    if tokens == [] then Some([])
    else
      match (ParseUnsigned(tokens[0], MAX_SLOT), ReadSlots(tokens[1..]))
      case (Some(n), Some(rest)) => Some([n] + rest)
      case _ => None
  }

  function Range(first: nat, count: nat): (r: seq<nat>)
    ensures |r| == count && forall i :: 0 <= i < count ==> r[i] == first + i
  {
    seq(count, i requires 0 <= i < count => first + i)
  }

  lemma {:induction false} ReadSlotTokens(first: nat, last: nat)
    requires first <= last + 1 && last <= MAX_SLOT
    ensures ReadSlots(SlotTokens(first, last)) == Some(Range(first, last + 1 - first))
    decreases last + 1 - first
  {
    hide ParseUnsigned, Decimal;
    if first <= last {
      var rest := SlotTokens(first + 1, last);
      ReadSlotTokens(first + 1, last);
      ParseDecimal(first, MAX_SLOT);
      assert SlotTokens(first, last) == [Decimal(first)] + rest && ([Decimal(first)] + rest)[1..] == rest;
      assert [first] + Range(first + 1, last - first) == Range(first, last + 1 - first);
    } else {
      assert Range(first, 0) == [];
    }
  }

  lemma AddedSlotsOf(c: string, tokens: seq<string>)
    ensures AddedSlots(["exec", c, "redis-cli"] + (["CLUSTER", "ADDSLOTS"] + tokens)) == ReadSlots(tokens)
  {
    hide ReadSlots;
    var argv := ["exec", c, "redis-cli"] + (["CLUSTER", "ADDSLOTS"] + tokens);
    assert argv[2] == "redis-cli" && argv[3] == "CLUSTER" && argv[4] == "ADDSLOTS" && argv[5..] == tokens;
  }

  /** The command for a validated range names the slots from its start to its end, in order, at most a batch of them. */
  lemma ValidRangeNamed(c: string, p: Params)
    requires SlotRangeVerdict(p, RedisClusterSlotsAssign).Ok?
    ensures var argv := ["exec", c, "redis-cli"] + RedisCommand(RedisClusterSlotsAssign, p);
            AddedSlots(argv) == Some(Range(p.slotStart, p.slotEnd - p.slotStart + 1))
    ensures p.slotEnd - p.slotStart + 1 <= MAX_SLOT_BATCH
  {
    hide AddedSlots, ReadSlots, SlotTokens, Range, Decimal;
    AddedSlotsOf(c, SlotTokens(p.slotStart, p.slotEnd));
    ReadSlotTokens(p.slotStart, p.slotEnd);
  }

  // ---- Handing out all slots

  /** Validated ranges that follow each other from slot 0 to the last one. */
  ghost predicate Tiles(ranges: seq<Params>, from: nat, to: nat) {
    if ranges == [] then from == to
    else
      && SlotRangeVerdict(ranges[0], RedisClusterSlotsAssign).Ok?
      && ranges[0].slotStart == from && Tiles(ranges[1..], ranges[0].slotEnd + 1, to)
  }

  /** All slots named by the commands for a list of ranges. */
  function AllAdded(c: string, ranges: seq<Params>): Option<seq<nat>> {
    if ranges == [] then Some([])
    else
      match (AddedSlots(["exec", c, "redis-cli"] + RedisCommand(RedisClusterSlotsAssign, ranges[0])),
             AllAdded(c, ranges[1..]))
      case (Some(first), Some(rest)) => Some(first + rest)
      case _ => None
  }

  lemma {:induction false} TilesAdded(c: string, ranges: seq<Params>, from: nat, to: nat)
    requires Tiles(ranges, from, to)
    ensures from <= to && AllAdded(c, ranges) == Some(Range(from, to - from))
    ensures to - from <= MAX_SLOT_BATCH * |ranges|
  {
    hide SlotRangeVerdict, RedisCommand, AddedSlots;
    if ranges == [] {
      assert Range(from, 0) == [];
    } else {
      var next := ranges[0].slotEnd + 1;
      TilesAdded(c, ranges[1..], next, to);
      ValidRangeNamed(c, ranges[0]);
      RangeOrdered(ranges[0]);
      assert Range(from, next - from) + Range(next, to - next) == Range(from, to - from);
    }
  }

  lemma RangeOrdered(p: Params)
    requires SlotRangeVerdict(p, RedisClusterSlotsAssign).Ok?
    ensures p.slotStart <= p.slotEnd
  {
  }

  /**
   * Ranges that tile all slots name every slot exactly once and in increasing order, and there are at
   * least 256 of them.
   */
  lemma AllSlotsAssignedOnce(c: string, ranges: seq<Params>)
    requires Tiles(ranges, 0, SLOT_COUNT)
    ensures AllAdded(c, ranges) == Some(Range(0, SLOT_COUNT)) && |ranges| >= 256
  {
    TilesAdded(c, ranges, 0, SLOT_COUNT);
  }
}
