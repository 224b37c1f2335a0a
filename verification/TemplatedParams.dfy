/** Parameters of the allowlisted in-container operations, and their validation. */
module TemplatedParams {
  import opened Integers
  import opened Wrappers
  import opened Text

  datatype Template =
    | PgStandbyBootstrap | PgStandbyFollow | PgPromote | PgShardBulkCopy
    | RedisReplicaofNoOne | RedisReplicaof | RedisClusterMeet | RedisClusterReplicate | RedisClusterSlotsAssign
    | RedisClusterMigrate | RedisClusterMyId | RedisClusterSetslotImporting | RedisClusterSetslotMigrating
    | RedisClusterMigrateSlotKeys
    | ChRmtBootstrap | ChRmtFollow | ChPromote | ChRemoteServersApply | ChKeeperQuorumApply | ChDistributedEnsure
    | ChShardBulkCopy
    | MongoRsInitiate | MongoRsAdd | MongoRsStepDown | MongoConfigRsInitiate | MongoConfigRsAdd
    | MongoShardsvrEnable | MongoAddShard | MongoMoveChunk

  predicate RequiresPrimaryConn(t: Template) {
    match t
    case PgStandbyBootstrap | PgStandbyFollow | RedisReplicaof | RedisClusterMeet | RedisClusterMigrateSlotKeys
       | PgShardBulkCopy | ChShardBulkCopy | ChRmtBootstrap | ChRmtFollow | MongoRsInitiate | MongoRsAdd
       | MongoConfigRsInitiate | MongoConfigRsAdd | MongoAddShard => true
    case _ => false
  }

  predicate RequiresClusterNodeId(t: Template) {
    match t
    case RedisClusterReplicate | RedisClusterMigrate | RedisClusterSetslotImporting
       | RedisClusterSetslotMigrating => true
    case _ => false
  }

  predicate RequiresSlotRange(t: Template) {
    t.RedisClusterSlotsAssign? || OneSlotPerCall(t)
  }

  predicate OneSlotPerCall(t: Template) {
    match t
    case RedisClusterMigrate | RedisClusterSetslotImporting | RedisClusterSetslotMigrating
       | RedisClusterMigrateSlotKeys => true
    case _ => false
  }

  predicate RequiresTopologyPeers(t: Template) {
    t.ChRemoteServersApply? || t.ChKeeperQuorumApply?
  }

  predicate RequiresChClusterName(t: Template) {
    t.ChRemoteServersApply? || t.ChDistributedEnsure?
  }

  function DefaultPrimaryPort(t: Template): U16 {
    match t
    case RedisReplicaof | RedisClusterMeet | RedisClusterMigrateSlotKeys => 6379
    case ChRmtBootstrap | ChKeeperQuorumApply => 9181
    case ChRmtFollow => 8123
    case ChRemoteServersApply | ChShardBulkCopy => 9000
    case MongoRsInitiate | MongoRsAdd | MongoConfigRsInitiate | MongoConfigRsAdd | MongoAddShard => 27017
    case _ => 5432
  }

  /** The user a template falls back to when none is given; `None` when it does not read one here. */
  function DefaultUser(t: Template): Option<string> {
    match t
    case PgStandbyBootstrap | PgStandbyFollow | PgShardBulkCopy | PgPromote => Some("nucleus")
    case MongoConfigRsInitiate => Some("cfg0")
    case MongoRsInitiate | MongoAddShard => Some("rs0")
    case _ => None
  }

  predicate RequiresUser(t: Template) {
    RequiresChClusterName(t) || t.MongoMoveChunk?
  }

  const MAX_SLOT: nat := 16383
  const MAX_SLOT_BATCH: nat := 64

  datatype Params = Params(primaryHost: string, primaryPort: U16, user: string, clusterNodeId: string,
                           slotStart: U16, slotEnd: U16, topologyPeers: string)

  datatype ParamError =
    | PrimaryHostEmpty | PrimaryHostInvalid | UserInvalid | ClusterNodeIdEmpty | ClusterNodeIdInvalid
    | SlotRangeInvalid | TopologyPeersEmpty | TopologyPeersTooLong | TopologyPeersTooMany | TopologyPeersInvalid

  /** The characters that hosts and Redis keys may not contain. */
  predicate Forbidden(c: char) {
    c == ' ' || c == '\t' || c == '\n' || c == '\r' || c == ';' || c == '|' || c == '&' || c == '$' || c == '`'
    || c == '(' || c == ')' || c == '<' || c == '>' || c == '"' || c == '\'' || c == '\\' || c == '\0'
  }

  predicate NoneForbidden(s: string) {
    forall i :: 0 <= i < |s| ==> !Forbidden(s[i])
  }

  predicate HostAllowed(host: string) {
    host != "" && Utf8Len(host) <= 253 && NoneForbidden(host)
  }

  predicate UserChar(c: char) {
    'a' <= c <= 'z' || 'A' <= c <= 'Z' || IsDigit(c) || c == '_' || c == '-'
  }

  predicate UserAllowed(user: string) {
    user != "" && Utf8Len(user) <= 63 && forall i :: 0 <= i < |user| ==> UserChar(user[i])
  }

  predicate HexDigit(c: char) {
    IsDigit(c) || 'a' <= c <= 'f' || 'A' <= c <= 'F'
  }

  predicate ClusterNodeIdAllowed(id: string) {
    id != "" && Utf8Len(id) <= 64 && forall i :: 0 <= i < |id| ==> HexDigit(id[i])
  }

  // ---- Topology peers

  /** One `shard@host:port` or `host:port` entry, the shard empty in the second form. */
  datatype Peer = Peer(shard: string, host: string, port: string)

  /** Cutting an entry at its first `@` and last `:`. */
  function CutPeer(part: string, shardForm: bool): Option<Peer> {
    if !shardForm then CutHostPort("", part)
    else
      match SplitOnce(part, '@')
      case None => None
      case Some((shard, hostPort)) => CutHostPort(shard, hostPort)
  }

  function CutHostPort(shard: string, hostPort: string): Option<Peer> {
    match RSplitOnce(hostPort, ':')
    case None => None
    case Some((host, port)) => Some(Peer(shard, host, port))
  }

  predicate ShardAllowed(shard: string) {
    shard != "" && AllDigits(shard) && |shard| <= 8
  }

  predicate PeerAllowed(p: Peer, shardForm: bool) {
    (shardForm ==> ShardAllowed(p.shard)) && HostAllowed(p.host) && ParseUnsigned(p.port, U16_MAX).Some?
  }

  predicate PartAllowed(part: string, shardForm: bool) {
    CutPeer(part, shardForm).Some? && PeerAllowed(CutPeer(part, shardForm).value, shardForm)
  }

  function PeerParts(raw: string): seq<string> {
    NonEmpty(Split(raw, ','))
  }

  ghost predicate AllPartsAllowed(parts: seq<string>, shardForm: bool) {
    forall i :: 0 <= i < |parts| ==> PartAllowed(parts[i], shardForm)
  }

  /** What `validate_topology_peers` concludes. */
  ghost function TopologyVerdict(p: Params, t: Template): Result<string, ParamError> {
    var raw := Trim(p.topologyPeers);
    var parts := PeerParts(raw);
    if !RequiresTopologyPeers(t) then Ok("")
    else if raw == "" then Err(TopologyPeersEmpty)
    else if Utf8Len(raw) > 4096 then Err(TopologyPeersTooLong)
    else if parts == [] then Err(TopologyPeersEmpty)
    else if |parts| > 64 then Err(TopologyPeersTooMany)
    else if !AllPartsAllowed(parts, t.ChRemoteServersApply?) then Err(TopologyPeersInvalid)
    else Ok(Join(parts, ","))
  }

  /** `validate_topology_peers`. */
  method ValidateTopologyPeers(p: Params, t: Template) returns (r: Result<string, ParamError>)
    ensures r == TopologyVerdict(p, t)
  {
    hide Split, NonEmpty, Join, HostAllowed, ShardAllowed, ParseUnsigned, SplitOnce, RSplitOnce, Utf8Len, Trim;
    if !RequiresTopologyPeers(t) { return Ok(""); }
    var raw := Trim(p.topologyPeers);
    if raw == "" { return Err(TopologyPeersEmpty); }
    if Utf8Len(raw) > 4096 { return Err(TopologyPeersTooLong); }
    var parts := NonEmpty(Split(raw, ','));
    if parts == [] { return Err(TopologyPeersEmpty); }
    if |parts| > 64 { return Err(TopologyPeersTooMany); }
    var shardForm := t.ChRemoteServersApply?;
    for i := 0 to |parts|
      invariant forall j :: 0 <= j < i ==> PartAllowed(parts[j], shardForm)
    {
      var hostPort := parts[i];
      if shardForm {
        var cut := SplitOnce(parts[i], '@');
        if cut.None? { return Err(TopologyPeersInvalid); }
        var shard := cut.value.0;
        if !ShardAllowed(shard) { return Err(TopologyPeersInvalid); }
        hostPort := cut.value.1;
      }
      var cut := RSplitOnce(hostPort, ':');
      if cut.None? { return Err(TopologyPeersInvalid); }
      if !HostAllowed(cut.value.0) { return Err(TopologyPeersInvalid); }
      if ParseUnsigned(cut.value.1, U16_MAX).None? { return Err(TopologyPeersInvalid); }
      assert PartAllowed(parts[i], shardForm);
    }
    return Ok(Join(parts, ","));
  }

  /** Splitting an accepted peer list again yields exactly the entries that were checked. */
  lemma AcceptedPeersResplit(p: Params, t: Template)
    requires RequiresTopologyPeers(t) && TopologyVerdict(p, t).Ok?
    ensures PeerParts(TopologyVerdict(p, t).value) == PeerParts(Trim(p.topologyPeers))
    ensures AllPartsAllowed(PeerParts(Trim(p.topologyPeers)), t.ChRemoteServersApply?)
  {
    hide Utf8Len, Trim, PartAllowed;
    var raw := Trim(p.topologyPeers);
    var parts := PeerParts(raw);
    SplitPieces(raw, ',');
    PiecesKept(Split(raw, ','), ',');
    SplitJoin(parts, ',');
    NonEmptyUnchanged(parts);
  }

  /** The characters that names may and may not hold, one by one. */
  lemma AlphabetsExactly(c: char)
    ensures Forbidden(c) <==> c in {' ', '\t', '\n', '\r', ';', '|', '&', '$', '`', '(', ')', '<', '>', '"', '\'', '\\',
                                    '\0'}
    ensures UserChar(c) <==> 'a' <= c <= 'z' || 'A' <= c <= 'Z' || '0' <= c <= '9' || c in {'_', '-'}
    ensures HexDigit(c) <==> '0' <= c <= '9' || 'a' <= c <= 'f' || 'A' <= c <= 'F'
  {
  }

  lemma HostPortExactly(hostPort: string, shard: string, p: Peer)
    ensures CutHostPort(shard, hostPort) == Some(p) <==>
            p.shard == shard && hostPort == p.host + ":" + p.port && Lacks(p.port, ':')
  {
    if hostPort == p.host + ":" + p.port && Lacks(p.port, ':') {
      RSplitOnceAfter(p.host, ':', p.port);
      assert hostPort == p.host + [':'] + p.port;
    }
  }

  lemma EntryRegroup(shard: string, host: string, port: string)
    ensures shard + "@" + host + ":" + port == shard + ['@'] + (host + ":" + port)
  {
  }

  /** Cutting an entry gives its three parts, and no other. */
  lemma CutExactly(part: string, p: Peer)
    ensures CutPeer(part, true) == Some(p) <==>
            part == p.shard + "@" + p.host + ":" + p.port && Lacks(p.shard, '@') && Lacks(p.port, ':')
    ensures CutPeer(part, false) == Some(p) <==> p.shard == "" && part == p.host + ":" + p.port && Lacks(p.port, ':')
  {
    hide Lacks, CutHostPort, SplitOnce;
    HostPortExactly(part, "", p);
    EntryRegroup(p.shard, p.host, p.port);
    if part == p.shard + "@" + p.host + ":" + p.port && Lacks(p.shard, '@') {
      SplitOnceAfter(p.shard, '@', p.host + ":" + p.port);
      HostPortExactly(p.host + ":" + p.port, p.shard, p);
    }
    var cut := SplitOnce(part, '@');
    if cut.Some? {
      HostPortExactly(cut.value.1, cut.value.0, p);
    }
  }

  /** `shard@host:port`, with one to eight digits and an allowed host, or `host:port`. */
  ghost predicate WellFormed(part: string, shardForm: bool) {
    exists p: Peer ::
      && part == (if shardForm then p.shard + "@" else p.shard) + p.host + ":" + p.port && Lacks(p.port, ':')
      && (if shardForm then 1 <= |p.shard| <= 8 && AllDigits(p.shard) else p.shard == "")
      && HostAllowed(p.host) && ParseUnsigned(p.port, 65535).Some?
  }

  lemma PartExactly(part: string, shardForm: bool)
    ensures PartAllowed(part, shardForm) <==> WellFormed(part, shardForm)
  {
    hide CutPeer, HostAllowed, ParseUnsigned;
    if PartAllowed(part, shardForm) {
      CutExactly(part, CutPeer(part, shardForm).value);
    }
    if WellFormed(part, shardForm) {
      var p: Peer :|
        && part == (if shardForm then p.shard + "@" else p.shard) + p.host + ":" + p.port && Lacks(p.port, ':')
        && (if shardForm then 1 <= |p.shard| <= 8 && AllDigits(p.shard) else p.shard == "")
        && HostAllowed(p.host) && ParseUnsigned(p.port, 65535).Some?;
      assert shardForm ==> Lacks(p.shard, '@');
      assert !shardForm ==> part == p.host + ":" + p.port;
      CutExactly(part, p);
    }
  }

  /** A peer list is accepted if and only if it is of bounded size and each entry is well formed. */
  lemma AcceptedExactly(p: Params, t: Template)
    requires t.ChRemoteServersApply? || t.ChKeeperQuorumApply?
    ensures var raw := Trim(p.topologyPeers); var parts := NonEmpty(Split(raw, ','));
            TopologyVerdict(p, t).Ok? <==>
            && raw != "" && Utf8Len(raw) <= 4096 && 1 <= |parts| <= 64
            && forall i :: 0 <= i < |parts| ==> WellFormed(parts[i], t.ChRemoteServersApply?)
  {
    hide Trim, NonEmpty, Split, Utf8Len, WellFormed, PartAllowed;
    forall part { PartExactly(part, t.ChRemoteServersApply?); }
  }

  lemma {:induction false} PiecesKept(parts: seq<string>, c: char)
    requires forall k :: 0 <= k < |parts| ==> Lacks(parts[k], c)
    ensures forall k :: 0 <= k < |NonEmpty(parts)| ==> Lacks(NonEmpty(parts)[k], c)
  {
    if parts != [] {
      PiecesKept(parts[1..], c);
    }
  }

  // ---- The other parameters

  function PrimaryHostVerdict(p: Params, t: Template): Result<string, ParamError> {
    var host := Trim(p.primaryHost);
    if !RequiresPrimaryConn(t) then Ok("")
    else if host == "" then Err(PrimaryHostEmpty)
    else if !HostAllowed(host) then Err(PrimaryHostInvalid)
    else Ok(host)
  }

  function PrimaryPort(p: Params, t: Template): U16 {
    if RequiresPrimaryConn(t) && p.primaryPort != 0 then p.primaryPort else DefaultPrimaryPort(t)
  }

  function UserVerdict(p: Params, t: Template): Result<string, ParamError> {
    var user := Trim(p.user);
    if DefaultUser(t).None? && !RequiresUser(t) then Ok("")
    else if user == "" && DefaultUser(t).Some? then Ok(DefaultUser(t).value)
    else if !UserAllowed(user) then Err(UserInvalid)
    else Ok(user)
  }

  function ClusterNodeIdVerdict(p: Params, t: Template): Result<string, ParamError> {
    var id := Trim(p.clusterNodeId);
    if !RequiresClusterNodeId(t) then Ok("")
    else if id == "" then Err(ClusterNodeIdEmpty)
    else if !ClusterNodeIdAllowed(id) then Err(ClusterNodeIdInvalid)
    else Ok(id)
  }

  /** `validate_slot_range`. */
  function SlotRangeVerdict(p: Params, t: Template): (r: Result<(U16, U16), ParamError>)
    ensures r.Ok? ==> r.value == (p.slotStart, p.slotEnd)
    ensures r.Ok? <==> p.slotStart <= p.slotEnd <= 16383
                       && p.slotEnd - p.slotStart < if OneSlotPerCall(t) then 1 else 64
  {
    if p.slotStart > MAX_SLOT || p.slotEnd > MAX_SLOT || p.slotStart > p.slotEnd then Err(SlotRangeInvalid)
    else if OneSlotPerCall(t) then
      if p.slotStart != p.slotEnd then Err(SlotRangeInvalid) else Ok((p.slotStart, p.slotEnd))
    else if p.slotEnd - p.slotStart + 1 > MAX_SLOT_BATCH then Err(SlotRangeInvalid)
    else Ok((p.slotStart, p.slotEnd))
  }

  /** `validate_primary_conn`. */
  method ValidatePrimaryConn(p: Params, t: Template) returns (r: Result<(string, U16, string), ParamError>)
    ensures PrimaryHostVerdict(p, t).Err? ==> r == Err(PrimaryHostVerdict(p, t).error)
    ensures PrimaryHostVerdict(p, t).Ok? && RequiresPrimaryConn(t) ==>
              r == if UserVerdict(p, t).Err? then Err(UserVerdict(p, t).error)
                   else Ok((PrimaryHostVerdict(p, t).value, PrimaryPort(p, t), UserVerdict(p, t).value))
    ensures !RequiresPrimaryConn(t) ==> r == Ok(("", DefaultPrimaryPort(t), ""))
  {
    hide Trim, HostAllowed, UserAllowed;
    var host, port, user := "", DefaultPrimaryPort(t), "";
    if !RequiresPrimaryConn(t) { return Ok((host, port, user)); }
    host := Trim(p.primaryHost);
    if host == "" { return Err(PrimaryHostEmpty); }
    if !HostAllowed(host) { return Err(PrimaryHostInvalid); }
    port := if p.primaryPort == 0 then DefaultPrimaryPort(t) else p.primaryPort;
    if DefaultUser(t).Some? {
      var u := Trim(p.user);
      if u == "" {
        user := DefaultUser(t).value;
      } else if !UserAllowed(u) {
        return Err(UserInvalid);
      } else {
        user := u;
      }
    }
    return Ok((host, port, user));
  }

  /** The parameters that pass: each field passes its own check. */
  ghost predicate Valid(p: Params, t: Template) {
    && PrimaryHostVerdict(p, t).Ok? && UserVerdict(p, t).Ok? && ClusterNodeIdVerdict(p, t).Ok?
    && (RequiresSlotRange(t) ==> SlotRangeVerdict(p, t).Ok?) && TopologyVerdict(p, t).Ok?
  }

  ghost function Normalised(p: Params, t: Template): Params
    requires Valid(p, t)
  {
    Params(PrimaryHostVerdict(p, t).value, PrimaryPort(p, t), UserVerdict(p, t).value,
           ClusterNodeIdVerdict(p, t).value,
           if RequiresSlotRange(t) || t.MongoMoveChunk? then p.slotStart else 0,
           if RequiresSlotRange(t) then p.slotEnd else 0,
           TopologyVerdict(p, t).value)
  }

  /** The user is checked with the connection, or before the node id; elsewhere it is checked last. */
  predicate UserFirst(t: Template) {
    RequiresPrimaryConn(t) || t.MongoMoveChunk?
  }

  /** Why parameters are refused: the first check that fails, in the code's order. */
  ghost function Refusal(p: Params, t: Template): (e: Option<ParamError>)
    ensures e.None? <==> Valid(p, t)
  {
    if PrimaryHostVerdict(p, t).Err? then Some(PrimaryHostVerdict(p, t).error)
    else if UserFirst(t) && UserVerdict(p, t).Err? then Some(UserVerdict(p, t).error)
    else if ClusterNodeIdVerdict(p, t).Err? then Some(ClusterNodeIdVerdict(p, t).error)
    else if RequiresSlotRange(t) && SlotRangeVerdict(p, t).Err? then Some(SlotRangeVerdict(p, t).error)
    else if TopologyVerdict(p, t).Err? then Some(TopologyVerdict(p, t).error)
    else if UserVerdict(p, t).Err? then Some(UserVerdict(p, t).error)
    else None
  }

  /** The user of a template that reads one without a connection. */
  method ValidateUser(p: Params, t: Template) returns (r: Result<string, ParamError>)
    requires RequiresUser(t) || t.PgPromote?
    ensures r == UserVerdict(p, t)
  {
    hide Trim, UserAllowed;
    var user := Trim(p.user);
    UserNotEmpty(user);
    if user == "" && t.PgPromote? { return Ok("nucleus"); }
    if user == "" || !UserAllowed(user) { return Err(UserInvalid); }
    return Ok(user);
  }

  /** `TemplatedExecParams::validate_for`: parameters pass if and only if every field does, else the first failure. */
  method ValidateFor(p: Params, t: Template) returns (r: Result<Params, ParamError>)
    ensures r.Ok? <==> Valid(p, t)
    ensures r.Ok? ==> r.value == Normalised(p, t)
    ensures r.Err? ==> Refusal(p, t) == Some(r.error)
  {
    hide Trim, UserVerdict, PrimaryHostVerdict, TopologyVerdict, SlotRangeVerdict, ClusterNodeIdVerdict,
         DefaultPrimaryPort;
    NotRead(p, t);
    var conn := ValidatePrimaryConn(p, t);
    if conn.Err? { return Err(conn.error); }
    var (host, port, user) := conn.value;
    var slotStart: U16, slotEnd: U16 := 0, 0;
    if t.MongoMoveChunk? {
      var u := ValidateUser(p, t);
      if u.Err? { return Err(u.error); }
      user, slotStart := u.value, p.slotStart;
    }
    var id := ClusterNodeIdVerdict(p, t);
    if id.Err? { return Err(id.error); }
    if RequiresSlotRange(t) {
      var range := SlotRangeVerdict(p, t);
      if range.Err? { return Err(range.error); }
      slotStart, slotEnd := range.value.0, range.value.1;
    }
    var peers := ValidateTopologyPeers(p, t);
    if peers.Err? { return Err(peers.error); }
    if RequiresChClusterName(t) || t.PgPromote? {
      var u := ValidateUser(p, t);
      if u.Err? { return Err(u.error); }
      user := u.value;
    }
    return Ok(Params(host, port, user, id.value, slotStart, slotEnd, peers.value));
  }

  /** What a template does not read is accepted as empty. */
  lemma NotRead(p: Params, t: Template)
    ensures !RequiresPrimaryConn(t) ==> PrimaryHostVerdict(p, t) == Ok("") && PrimaryPort(p, t) == DefaultPrimaryPort(t)
    ensures !RequiresPrimaryConn(t) && !RequiresUser(t) && !t.PgPromote? ==> UserVerdict(p, t) == Ok("")
    ensures RequiresPrimaryConn(t) ==> !RequiresUser(t) && !t.PgPromote?
  {
    hide Trim;
  }

  lemma UserNotEmpty(user: string)
    ensures UserAllowed(user) ==> user != ""
  {
  }

  /** What a template can rely on: no forbidden character anywhere, bounded lengths, slots in range. */
  lemma ValidatedSafe(p: Params, t: Template)
    requires Valid(p, t)
    ensures var v := Normalised(p, t);
            && (v.primaryHost == "" || HostAllowed(v.primaryHost)) && (RequiresPrimaryConn(t) ==> v.primaryHost != "")
            && (v.user == "" || UserAllowed(v.user)) && (DefaultUser(t).Some? || RequiresUser(t) ==> v.user != "")
            && (v.clusterNodeId == "" || ClusterNodeIdAllowed(v.clusterNodeId)) && v.primaryPort != 0
            && (RequiresSlotRange(t) ==>
                  v.slotStart <= v.slotEnd <= MAX_SLOT && v.slotEnd - v.slotStart < MAX_SLOT_BATCH)
    ensures var v := Normalised(p, t); var parts := PeerParts(v.topologyPeers);
            if RequiresTopologyPeers(t) then 1 <= |parts| <= 64 && AllPartsAllowed(parts, t.ChRemoteServersApply?)
            else v.topologyPeers == ""
  {
    hide Trim, HostAllowed, UserAllowed, ClusterNodeIdAllowed, PeerParts, AllPartsAllowed, Utf8Len;
    DefaultUserAllowed(t);
    HostNotEmpty(Trim(p.primaryHost));
    UserNotEmpty(Trim(p.user));
    if RequiresTopologyPeers(t) {
      AcceptedPeersResplit(p, t);
    }
  }

  /** The port a template uses when it connects nowhere or is given 0. */
  function PortByDefault(t: Template): nat {
    if t in {RedisReplicaof, RedisClusterMeet, RedisClusterMigrateSlotKeys} then 6379
    else if t in {ChRmtBootstrap, ChKeeperQuorumApply} then 9181
    else if t in {ChRmtFollow} then 8123
    else if t in {ChRemoteServersApply, ChShardBulkCopy} then 9000
    else if t in {MongoRsInitiate, MongoRsAdd, MongoConfigRsInitiate, MongoConfigRsAdd, MongoAddShard} then 27017
    else 5432
  }

  /** The templates that connect to a host. */
  predicate Connects(t: Template) {
    t in {PgStandbyBootstrap, PgStandbyFollow, PgShardBulkCopy, RedisReplicaof, RedisClusterMeet,
          RedisClusterMigrateSlotKeys, ChRmtBootstrap, ChRmtFollow, ChShardBulkCopy, MongoRsInitiate, MongoRsAdd,
          MongoConfigRsInitiate, MongoConfigRsAdd, MongoAddShard}
  }

  lemma HostExactly(p: Params, t: Template)
    requires Valid(p, t)
    ensures Normalised(p, t).primaryHost == if Connects(t) then Trim(p.primaryHost) else ""
  {
    hide Trim, HostAllowed, PrimaryPort, UserVerdict, ClusterNodeIdVerdict, SlotRangeVerdict, TopologyVerdict;
  }

  lemma PortExactly(p: Params, t: Template)
    ensures PrimaryPort(p, t) == if Connects(t) && p.primaryPort != 0 then p.primaryPort else PortByDefault(t)
  {
  }

  lemma AddressExactly(p: Params, t: Template)
    requires Valid(p, t)
    ensures var v := Normalised(p, t);
            && v.primaryHost == (if Connects(t) then Trim(p.primaryHost) else "")
            && v.primaryPort == (if Connects(t) && p.primaryPort != 0 then p.primaryPort else PortByDefault(t))
  {
    hide Valid, Trim, Connects, PortByDefault, PrimaryPort, PrimaryHostVerdict, UserVerdict, ClusterNodeIdVerdict,
         SlotRangeVerdict, TopologyVerdict, RequiresSlotRange;
    HostExactly(p, t);
    PortExactly(p, t);
  }

  lemma UserExactly(p: Params, t: Template)
    requires Valid(p, t)
    ensures var user := Normalised(p, t).user; var given := Trim(p.user);
            && (t in {PgStandbyBootstrap, PgStandbyFollow, PgShardBulkCopy, PgPromote} ==>
                  user == if given == "" then "nucleus" else given)
            && (t in {MongoRsInitiate, MongoAddShard} ==> user == if given == "" then "rs0" else given)
            && (t == MongoConfigRsInitiate ==> user == if given == "" then "cfg0" else given)
            && (t in {ChRemoteServersApply, ChDistributedEnsure, MongoMoveChunk} ==> user == given)
  {
    hide Trim, UserAllowed, PrimaryHostVerdict, PrimaryPort, ClusterNodeIdVerdict, SlotRangeVerdict, TopologyVerdict;
  }

  /** Accepted parameters carry the host, port and user that were given, or the default of their template. */
  lemma DefaultsExactly(p: Params, t: Template)
    requires Valid(p, t)
    ensures var v := Normalised(p, t); var given := Trim(p.user);
            && v.primaryHost == (if Connects(t) then Trim(p.primaryHost) else "")
            && v.primaryPort == (if Connects(t) && p.primaryPort != 0 then p.primaryPort else PortByDefault(t))
            && (t in {PgStandbyBootstrap, PgStandbyFollow, PgShardBulkCopy, PgPromote} ==>
                  v.user == if given == "" then "nucleus" else given)
            && (t in {MongoRsInitiate, MongoAddShard} ==> v.user == if given == "" then "rs0" else given)
            && (t == MongoConfigRsInitiate ==> v.user == if given == "" then "cfg0" else given)
            && (t in {ChRemoteServersApply, ChDistributedEnsure, MongoMoveChunk} ==> v.user == given)
  {
    hide Valid, Normalised, Connects, PortByDefault, Trim;
    AddressExactly(p, t);
    UserExactly(p, t);
  }

  /** The templates that name a cluster node, that name slots, that read a user if given one, and that need one. */
  predicate NamesNode(t: Template) {
    t in {RedisClusterReplicate, RedisClusterMigrate, RedisClusterSetslotImporting, RedisClusterSetslotMigrating}
  }

  predicate NamesSlots(t: Template) {
    t in {RedisClusterSlotsAssign, RedisClusterMigrate, RedisClusterSetslotImporting, RedisClusterSetslotMigrating,
          RedisClusterMigrateSlotKeys}
  }

  predicate ReadsUser(t: Template) {
    t in {PgStandbyBootstrap, PgStandbyFollow, PgShardBulkCopy, PgPromote, MongoRsInitiate, MongoAddShard,
          MongoConfigRsInitiate}
  }

  predicate NeedsUser(t: Template) {
    t in {ChRemoteServersApply, ChDistributedEnsure, MongoMoveChunk}
  }

  lemma HostVerdictExactly(p: Params, t: Template)
    ensures PrimaryHostVerdict(p, t).Ok? <==> (Connects(t) ==> HostAllowed(Trim(p.primaryHost)))
  {
    hide Trim, HostAllowed;
    HostNotEmpty(Trim(p.primaryHost));
  }

  lemma UserVerdictExactly(p: Params, t: Template)
    ensures UserVerdict(p, t).Ok? <==>
            && (ReadsUser(t) ==> Trim(p.user) == "" || UserAllowed(Trim(p.user)))
            && (NeedsUser(t) ==> UserAllowed(Trim(p.user)))
  {
    hide Trim, UserAllowed;
    UserNotEmpty(Trim(p.user));
  }

  lemma NodeIdNotEmpty(id: string)
    ensures ClusterNodeIdAllowed(id) ==> id != ""
  {
  }

  lemma NodeVerdictExactly(p: Params, t: Template)
    ensures ClusterNodeIdVerdict(p, t).Ok? <==> (NamesNode(t) ==> ClusterNodeIdAllowed(Trim(p.clusterNodeId)))
  {
    hide Trim, ClusterNodeIdAllowed;
    NodeIdNotEmpty(Trim(p.clusterNodeId));
  }

  lemma SlotTemplates(t: Template)
    ensures RequiresSlotRange(t) <==> NamesSlots(t)
    ensures OneSlotPerCall(t) <==> NamesSlots(t) && t != RedisClusterSlotsAssign
  {
  }

  /** Parameters are accepted if and only if what their template reads is of its kind; nothing else is looked at. */
  lemma ValidExactly(p: Params, t: Template)
    ensures Valid(p, t) <==>
            && (Connects(t) ==> HostAllowed(Trim(p.primaryHost)))
            && (ReadsUser(t) ==> Trim(p.user) == "" || UserAllowed(Trim(p.user)))
            && (NeedsUser(t) ==> UserAllowed(Trim(p.user)))
            && (NamesNode(t) ==> ClusterNodeIdAllowed(Trim(p.clusterNodeId)))
            && (NamesSlots(t) ==> p.slotStart <= p.slotEnd <= 16383
                                  && p.slotEnd - p.slotStart < if t == RedisClusterSlotsAssign then 64 else 1)
            && (t in {ChRemoteServersApply, ChKeeperQuorumApply} ==> TopologyVerdict(p, t).Ok?)
  {
    assert t !in {ChRemoteServersApply, ChKeeperQuorumApply} ==> TopologyVerdict(p, t).Ok?;
    hide Trim, Connects, ReadsUser, NeedsUser, NamesNode, NamesSlots, HostAllowed, UserAllowed, ClusterNodeIdAllowed,
         TopologyVerdict, PrimaryHostVerdict, UserVerdict, ClusterNodeIdVerdict, RequiresSlotRange, OneSlotPerCall;
    HostVerdictExactly(p, t);
    UserVerdictExactly(p, t);
    NodeVerdictExactly(p, t);
    SlotTemplates(t);
  }

  lemma HostNotEmpty(host: string)
    ensures HostAllowed(host) ==> host != ""
  {
  }

  lemma NucleusAllowed()
    ensures UserAllowed("nucleus")
  {
    assert Utf8Len("nucleus") == 7;
  }

  lemma ReplicaSetNamesAllowed()
    ensures UserAllowed("cfg0") && UserAllowed("rs0")
  {
    assert Utf8Len("cfg0") == 4 && Utf8Len("rs0") == 3;
  }

  lemma DefaultUserAllowed(t: Template)
    ensures DefaultUser(t).Some? ==> UserAllowed(DefaultUser(t).value) && DefaultUser(t).value != ""
  {
    hide UserAllowed;
    NucleusAllowed();
    ReplicaSetNamesAllowed();
  }
}
