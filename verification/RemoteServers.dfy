/** ClickHouse `remote_servers`: from a validated peer list to XML, to a shell script, to the container. */
module RemoteServers {
  import opened Integers
  import opened Wrappers
  import opened Text
  import opened TemplatedParams
  import opened Xml
  import opened Runner
  import Shell

  datatype Replica = Replica(host: string, port: string)

  datatype Shard = Shard(name: string, replicas: seq<Replica>)

  // ---- Grouping peers by shard

  /** Adding a peer to the shard of its name, or to a new last one. */
  function AddPeer(shards: seq<Shard>, p: Peer): seq<Shard> {
    if shards == [] then [Shard(p.shard, [Replica(p.host, p.port)])]
    else if shards[0].name == p.shard then
      [Shard(p.shard, shards[0].replicas + [Replica(p.host, p.port)])] + shards[1..]
    else [shards[0]] + AddPeer(shards[1..], p)
  }

  function Group(peers: seq<Peer>): seq<Shard> {
    if peers == [] then [] else AddPeer(Group(peers[..|peers| - 1]), peers[|peers| - 1])
  }

  /** The entries the builder does not skip. */
  function CutPeers(parts: seq<string>): seq<Peer> {
    if parts == [] then []
    else
      var before := CutPeers(parts[..|parts| - 1]);
      var last := CutPeer(parts[|parts| - 1], true);
      if last.Some? then before + [last.value] else before
  }

  /** Position of the shard of a name, or the length. */
  function FindShard(shards: seq<Shard>, name: string): (i: nat)
    ensures i <= |shards| && (i < |shards| ==> shards[i].name == name)
    ensures forall j :: 0 <= j < i ==> shards[j].name != name
  {
    if shards == [] || shards[0].name == name then 0 else 1 + FindShard(shards[1..], name)
  }

  /** Adding a peer: in place when its shard is there, else as a new last shard. */
  lemma {:induction false} AddPeerInPlace(shards: seq<Shard>, p: Peer)
    ensures var i, r := FindShard(shards, p.shard), Replica(p.host, p.port);
            AddPeer(shards, p) == if i < |shards| then shards[i := Shard(p.shard, shards[i].replicas + [r])]
                                  else shards + [Shard(p.shard, [r])]
  {
    hide AddPeer, FindShard;
    if shards == [] || shards[0].name == p.shard {
      AddPeerHere(shards, p);
    } else {
      AddPeerInPlace(shards[1..], p);
      AddPeerLater(shards, p);
      assert shards == [shards[0]] + shards[1..];
    }
  }

  lemma AddPeerHere(shards: seq<Shard>, p: Peer)
    requires shards == [] || shards[0].name == p.shard
    ensures FindShard(shards, p.shard) == 0
    ensures var r := Replica(p.host, p.port);
            AddPeer(shards, p) == if shards == [] then [Shard(p.shard, [r])]
                                  else shards[0 := Shard(p.shard, shards[0].replicas + [r])]
  {
  }

  lemma AddPeerLater(shards: seq<Shard>, p: Peer)
    requires shards != [] && shards[0].name != p.shard
    ensures AddPeer(shards, p) == [shards[0]] + AddPeer(shards[1..], p)
    ensures FindShard(shards, p.shard) == 1 + FindShard(shards[1..], p.shard)
  {
  }

  // ---- What grouping is for

  /** Position of the first peer of a shard, or the length. */
  function FirstOf(peers: seq<Peer>, shard: string): (i: nat)
    ensures i <= |peers| && (i < |peers| ==> peers[i].shard == shard)
    ensures forall j :: 0 <= j < i ==> peers[j].shard != shard
  {
    if peers == [] || peers[0].shard == shard then 0 else 1 + FirstOf(peers[1..], shard)
  }

  /** The shards of a peer list, by first appearance. */
  function Names(peers: seq<Peer>): seq<string> {
    if peers == [] then []
    else
      var before, last := Names(peers[..|peers| - 1]), peers[|peers| - 1].shard;
      if FirstOf(peers, last) < |peers| - 1 then before else before + [last]
  }

  /** The replicas a peer list gives for one shard, in order. */
  function ReplicasOf(peers: seq<Peer>, shard: string): seq<Replica> {
    if peers == [] then []
    else
      var before, last := ReplicasOf(peers[..|peers| - 1], shard), peers[|peers| - 1];
      if last.shard == shard then before + [Replica(last.host, last.port)] else before
  }

  lemma {:induction false} FirstOfSnoc(peers: seq<Peer>, p: Peer, shard: string)
    ensures FirstOf(peers + [p], shard) ==
            if FirstOf(peers, shard) < |peers| || p.shard == shard then FirstOf(peers, shard) else |peers| + 1
  {
    if peers != [] && peers[0].shard != shard {
      FirstOfSnoc(peers[1..], p, shard);
      assert (peers + [p])[1..] == peers[1..] + [p];
    }
  }

  lemma NamesSnoc(peers: seq<Peer>, p: Peer)
    ensures Names(peers + [p]) ==
            if FirstOf(peers, p.shard) < |peers| then Names(peers) else Names(peers) + [p.shard]
  {
    assert (peers + [p])[..|peers|] == peers;
    FirstOfSnoc(peers, p, p.shard);
  }

  lemma ReplicasSnoc(peers: seq<Peer>, p: Peer, shard: string)
    ensures ReplicasOf(peers + [p], shard) ==
            if p.shard == shard then ReplicasOf(peers, shard) + [Replica(p.host, p.port)] else ReplicasOf(peers, shard)
  {
    assert (peers + [p])[..|peers|] == peers;
  }

  /** The names stand in the order in which the shards first appear, each once. */
  ghost predicate ByFirstAppearance(peers: seq<Peer>, names: seq<string>) {
    && (forall i :: 0 <= i < |names| ==> FirstOf(peers, names[i]) < |peers|)
    && (forall i, j :: 0 <= i < j < |names| ==> FirstOf(peers, names[i]) < FirstOf(peers, names[j]))
  }

  lemma ByFirstAppearanceSnoc(peers: seq<Peer>, p: Peer, names: seq<string>)
    requires ByFirstAppearance(peers, names)
    ensures ByFirstAppearance(peers + [p], names)
  {
    hide FirstOf;
    var more := peers + [p];
    forall i | 0 <= i < |names| ensures FirstOf(more, names[i]) == FirstOf(peers, names[i]) {
      FirstOfSnoc(peers, p, names[i]);
    }
  }

  lemma ByFirstAppearanceNew(peers: seq<Peer>, names: seq<string>, name: string)
    requires ByFirstAppearance(peers, names) && FirstOf(peers, name) == |peers| - 1
    requires forall i :: 0 <= i < |names| ==> FirstOf(peers, names[i]) < |peers| - 1
    ensures ByFirstAppearance(peers, names + [name])
  {
    hide FirstOf;
    var names' := names + [name];
    assert forall i :: 0 <= i < |names| ==> names'[i] == names[i];
    assert names'[|names|] == name;
  }

  lemma NamesEarlier(peers: seq<Peer>, p: Peer, names: seq<string>)
    requires ByFirstAppearance(peers, names)
    ensures forall i :: 0 <= i < |names| ==> FirstOf(peers + [p], names[i]) < |peers|
  {
    hide FirstOf;
    forall i | 0 <= i < |names| ensures FirstOf(peers + [p], names[i]) < |peers| {
      FirstOfSnoc(peers, p, names[i]);
    }
  }

  lemma {:induction false} NamesByFirstAppearance(peers: seq<Peer>)
    ensures ByFirstAppearance(peers, Names(peers))
  {
    assert ByFirstAppearance([], []) && Names([]) == [];
    hide ByFirstAppearance, FirstOf, Names;
    if peers != [] {
      var before, p := peers[..|peers| - 1], peers[|peers| - 1];
      assert before + [p] == peers;
      NamesByFirstAppearance(before);
      NamesSnoc(before, p);
      ByFirstAppearanceSnoc(before, p, Names(before));
      FirstOfSnoc(before, p, p.shard);
      if FirstOf(before, p.shard) == |before| {
        NamesEarlier(before, p, Names(before));
        ByFirstAppearanceNew(peers, Names(before), p.shard);
      }
    }
  }

  /** Every shard that appears is named. */
  lemma {:induction false} NamesCover(peers: seq<Peer>, shard: string) returns (i: nat)
    requires FirstOf(peers, shard) < |peers|
    ensures i < |Names(peers)| && Names(peers)[i] == shard
  {
    var before, p := peers[..|peers| - 1], peers[|peers| - 1];
    assert before + [p] == peers;
    hide FirstOf, Names;
    NamesSnoc(before, p);
    FirstOfSnoc(before, p, shard);
    if FirstOf(before, shard) < |before| {
      i := NamesCover(before, shard);
    } else {
      i := |Names(before)|;
    }
  }

  predicate Named(names: seq<string>, shard: string) {
    exists k :: 0 <= k < |names| && names[k] == shard
  }

  /** Every peer's shard has its name in the list. */
  ghost predicate Covers(names: seq<string>, peers: seq<Peer>) {
    forall i :: 0 <= i < |peers| ==> Named(names, peers[i].shard)
  }

  lemma NamesCoverAll(peers: seq<Peer>)
    ensures Covers(Names(peers), peers)
  {
    hide Names, FirstOf;
    forall i | 0 <= i < |peers| ensures Named(Names(peers), peers[i].shard) {
      var k := NamesCover(peers, peers[i].shard);
    }
  }

  lemma {:induction false} NoReplicas(peers: seq<Peer>, shard: string)
    requires FirstOf(peers, shard) == |peers|
    ensures ReplicasOf(peers, shard) == []
  {
    if peers != [] {
      var n := |peers| - 1;
      FirstOfSnoc(peers[..n], peers[n], shard);
      assert peers[..n] + [peers[n]] == peers;
      NoReplicas(peers[..n], shard);
    }
  }

  /** Each named shard in its place, with all and only its peers in their order. */
  ghost predicate Grouped(peers: seq<Peer>, names: seq<string>, shards: seq<Shard>) {
    |shards| == |names| && forall i :: 0 <= i < |shards| ==> shards[i] == Shard(names[i], ReplicasOf(peers, names[i]))
  }

  lemma GroupedInPlace(peers: seq<Peer>, p: Peer, names: seq<string>, shards: seq<Shard>, at: nat)
    requires Grouped(peers, names, shards) && ByFirstAppearance(peers, names)
    requires at < |names| && names[at] == p.shard
    ensures Grouped(peers + [p], names, AddPeer(shards, p))
  {
    hide FirstOf, ReplicasOf, AddPeer;
    AddPeerInPlace(shards, p);
    assert shards[at].name == p.shard;
    var i := FindShard(shards, p.shard);
    assert names[i] == p.shard;
    forall k | 0 <= k < |names|
      ensures AddPeer(shards, p)[k] == Shard(names[k], ReplicasOf(peers + [p], names[k]))
    {
      ReplicasSnoc(peers, p, names[k]);
      assert k != i ==> names[k] != p.shard;
    }
  }

  lemma AddPeerNew(names: seq<string>, shards: seq<Shard>, p: Peer)
    requires |shards| == |names| && forall k :: 0 <= k < |names| ==> shards[k].name == names[k] != p.shard
    ensures AddPeer(shards, p) == shards + [Shard(p.shard, [Replica(p.host, p.port)])]
  {
    hide AddPeer;
    AddPeerInPlace(shards, p);
  }

  lemma NoneNamed(peers: seq<Peer>, shard: string, names: seq<string>, shards: seq<Shard>)
    requires Grouped(peers, names, shards) && ByFirstAppearance(peers, names) && FirstOf(peers, shard) == |peers|
    ensures forall k :: 0 <= k < |names| ==> shards[k].name == names[k] != shard
  {
    hide FirstOf, ReplicasOf;
  }

  lemma NewReplicas(peers: seq<Peer>, p: Peer)
    requires FirstOf(peers, p.shard) == |peers|
    ensures ReplicasOf(peers + [p], p.shard) == [Replica(p.host, p.port)]
  {
    hide FirstOf, ReplicasOf;
    NoReplicas(peers, p.shard);
    ReplicasSnoc(peers, p, p.shard);
  }

  lemma GroupedNew(peers: seq<Peer>, p: Peer, names: seq<string>, shards: seq<Shard>)
    requires Grouped(peers, names, shards) && ByFirstAppearance(peers, names) && FirstOf(peers, p.shard) == |peers|
    ensures Grouped(peers + [p], names + [p.shard], AddPeer(shards, p))
  {
    hide FirstOf, ReplicasOf, AddPeer, ByFirstAppearance;
    NoneNamed(peers, p.shard, names, shards);
    AddPeerNew(names, shards, p);
    NewReplicas(peers, p);
    var more := peers + [p];
    forall k | 0 <= k < |names| ensures shards[k] == Shard(names[k], ReplicasOf(more, names[k])) {
      ReplicasSnoc(peers, p, names[k]);
    }
  }

  lemma {:induction false} GroupGrouped(peers: seq<Peer>)
    ensures Grouped(peers, Names(peers), Group(peers))
  {
    assert Grouped([], Names([]), Group([]));
    hide Grouped, ByFirstAppearance, Names, FirstOf, Group;
    if peers != [] {
      var before, p := peers[..|peers| - 1], peers[|peers| - 1];
      assert before + [p] == peers;
      GroupGrouped(before);
      NamesByFirstAppearance(before);
      NamesSnoc(before, p);
      GroupSnoc(before, p);
      if FirstOf(before, p.shard) < |before| {
        var at := NamesCover(before, p.shard);
        GroupedInPlace(before, p, Names(before), Group(before), at);
      } else {
        GroupedNew(before, p, Names(before), Group(before));
      }
    }
  }

  /** No accepted entry is skipped: there is one peer for each, cut as validation cut it. */
  lemma {:induction false} NoneSkipped(parts: seq<string>)
    requires AllPartsAllowed(parts, true)
    ensures |CutPeers(parts)| == |parts|
    ensures forall i :: 0 <= i < |parts| ==>
              Some(CutPeers(parts)[i]) == CutPeer(parts[i], true) && PeerAllowed(CutPeers(parts)[i], true)
  {
    hide CutPeer, PeerAllowed;
    if parts != [] {
      NoneSkipped(parts[..|parts| - 1]);
      assert PartAllowed(parts[|parts| - 1], true);
    }
  }

  // ---- The document

  function ReplicaForest(rs: seq<Replica>): Forest {
    if rs == [] then Nil
    else Element("replica",
                 Element("host", Chars(rs[0].host, Nil), Element("port", Chars(rs[0].port, Nil), Nil)),
                 ReplicaForest(rs[1..]))
  }

  function ShardForest(shards: seq<Shard>): Forest {
    if shards == [] then Nil
    else Element("shard", ReplicaForest(shards[0].replicas), ShardForest(shards[1..]))
  }

  function Document(cluster: string, shards: seq<Shard>): Forest {
    Element("clickhouse", Element("remote_servers", Element(cluster, ShardForest(shards), Nil), Nil), Nil)
  }

  /** What the builder writes for a cluster name and a peer list. */
  function RemoteServersXml(cluster: string, topologyPeers: string): string {
    Print(Document(cluster, Group(CutPeers(PeerParts(topologyPeers)))))
  }

  function Tagged(name: string, text: string): string {
    "<" + name + ">" + text + "</" + name + ">"
  }

  lemma PrintElementTagged(name: string, kids: Forest, next: Forest)
    ensures Print(Element(name, kids, next)) == Tagged(name, Print(kids)) + Print(next)
  {
  }

  lemma PrintOneText(name: string, text: string, next: Forest)
    ensures Print(Element(name, Chars(text, Nil), next)) == Tagged(name, text) + Print(next)
  {
    assert Print(Chars(text, Nil)) == text;
    PrintElementTagged(name, Chars(text, Nil), next);
  }

  lemma Flatten(a: string, b: string, h: string, c: string, d: string, p: string, e: string, f: string)
    ensures a + ((b + h + c) + (d + p + e)) + f == (a + b) + h + (c + d) + p + (e + f)
  {
  }

  /** One replica, as the literals that the builder pushes. */
  lemma ReplicaLiterals(host: string, port: string)
    ensures Tagged("replica", Tagged("host", host) + Tagged("port", port)) ==
            "<replica><host>" + host + "</host><port>" + port + "</port></replica>"
  {
    Flatten("<replica>", "<host>", host, "</host>", "<port>", port, "</port>", "</replica>");
    assert "<" + "replica" + ">" == "<replica>" && "</" + "replica" + ">" == "</replica>";
    assert "<" + "host" + ">" == "<host>" && "</" + "host" + ">" == "</host>";
    assert "<" + "port" + ">" == "<port>" && "</" + "port" + ">" == "</port>";
    assert "<replica>" + "<host>" == "<replica><host>" && "</host>" + "<port>" == "</host><port>";
    assert "</port>" + "</replica>" == "</port></replica>";
    TaggedParts("replica", Tagged("host", host) + Tagged("port", port));
    TaggedParts("host", host);
    TaggedParts("port", port);
  }

  lemma TaggedParts(name: string, text: string)
    ensures Tagged(name, text) == ("<" + name + ">") + text + ("</" + name + ">")
  {
  }

  lemma PrintReplica(rs: seq<Replica>)
    requires rs != []
    ensures Print(ReplicaForest(rs)) ==
            Tagged("replica", Tagged("host", rs[0].host) + Tagged("port", rs[0].port)) + Print(ReplicaForest(rs[1..]))
  {
    var port := Element("port", Chars(rs[0].port, Nil), Nil);
    var host := Element("host", Chars(rs[0].host, Nil), port);
    var rest := ReplicaForest(rs[1..]);
    assert ReplicaForest(rs) == Element("replica", host, rest);
    assert Print(Nil) == "";
    hide Print, Tagged, ReplicaForest;
    PrintOneText("port", rs[0].port, Nil);
    PrintOneText("host", rs[0].host, port);
    PrintElementTagged("replica", host, rest);
    assert Tagged("port", rs[0].port) + "" == Tagged("port", rs[0].port);
  }

  lemma PrintShard(shards: seq<Shard>)
    requires shards != []
    ensures Print(ShardForest(shards)) ==
            Tagged("shard", Print(ReplicaForest(shards[0].replicas))) + Print(ShardForest(shards[1..]))
  {
    assert ShardForest(shards) == Element("shard", ReplicaForest(shards[0].replicas), ShardForest(shards[1..]));
    hide Print, Tagged, ReplicaForest, ShardForest;
    PrintElementTagged("shard", ReplicaForest(shards[0].replicas), ShardForest(shards[1..]));
  }

  lemma FlattenDocument(a: string, b: string, c: string, x: string, d: string, e: string, f: string)
    ensures a + (b + (c + x + d) + e) + f == ((a + b) + c) + x + (d + (e + f))
  {
  }

  lemma PrintDocument(cluster: string, shards: seq<Shard>)
    ensures Print(Document(cluster, shards)) ==
            ("<clickhouse><remote_servers><" + cluster + ">") + Print(ShardForest(shards)) +
            ("</" + cluster + "></remote_servers></clickhouse>")
  {
    var inner := Element(cluster, ShardForest(shards), Nil);
    var servers := Element("remote_servers", inner, Nil);
    var text := Print(ShardForest(shards));
    assert Print(Nil) == "";
    hide Print, ShardForest;
    PrintElementTagged(cluster, ShardForest(shards), Nil);
    PrintElementTagged("remote_servers", inner, Nil);
    PrintElementTagged("clickhouse", servers, Nil);
    assert Print(Document(cluster, shards)) == Tagged("clickhouse", Tagged("remote_servers", Tagged(cluster, text)));
    TaggedParts(cluster, text);
    TaggedParts("remote_servers", Tagged(cluster, text));
    TaggedParts("clickhouse", Tagged("remote_servers", Tagged(cluster, text)));
    hide Tagged, Document;
    FlattenDocument("<" + "clickhouse" + ">", "<" + "remote_servers" + ">", "<" + cluster + ">", text,
                    "</" + cluster + ">", "</" + "remote_servers" + ">", "</" + "clickhouse" + ">");
    DocumentOpening(cluster);
    DocumentClosing(cluster);
  }

  lemma DocumentOpening(cluster: string)
    ensures "<" + "clickhouse" + ">" + ("<" + "remote_servers" + ">") + ("<" + cluster + ">") ==
            "<clickhouse><remote_servers><" + cluster + ">"
  {
    OpeningLiteral();
    MoveIn("<" + "clickhouse" + ">" + ("<" + "remote_servers" + ">"), "<", cluster, ">");
  }

  lemma OpeningLiteral()
    ensures "<" + "clickhouse" + ">" + ("<" + "remote_servers" + ">") + "<" == "<clickhouse><remote_servers><"
  {
  }

  lemma MoveIn(a: string, b: string, c: string, d: string)
    ensures a + (b + c + d) == (a + b) + c + d
  {
  }

  lemma MoveOut(a: string, b: string, c: string, d: string)
    ensures (a + b + c) + d == a + b + (c + d)
  {
  }

  lemma ClosingLiteral()
    ensures ">" + (("</" + "remote_servers" + ">") + ("</" + "clickhouse" + ">")) == "></remote_servers></clickhouse>"
  {
  }

  lemma DocumentClosing(cluster: string)
    ensures ("</" + cluster + ">") + (("</" + "remote_servers" + ">") + ("</" + "clickhouse" + ">")) ==
            "</" + cluster + "></remote_servers></clickhouse>"
  {
    ClosingLiteral();
    MoveOut("</", cluster, ">", ("</" + "remote_servers" + ">") + ("</" + "clickhouse" + ">"));
  }

  /** The first loop of `build_remote_servers_xml`. */
  method CollectShards(parts: seq<string>) returns (shards: seq<Shard>)
    ensures shards == Group(CutPeers(parts))
  {
    hide SplitOnce, RSplitOnce;
    shards := [];
    for i := 0 to |parts|
      invariant shards == Group(CutPeers(parts[..i]))
    {
      assert parts[..i + 1][..i] == parts[..i];
      var cut := SplitOnce(parts[i], '@');
      if cut.None? {
        continue;
      }
      var hostPort := RSplitOnce(cut.value.1, ':');
      if hostPort.None? {
        continue;
      }
      var shard, replica := cut.value.0, Replica(hostPort.value.0, hostPort.value.1);
      ghost var peer := Peer(shard, replica.host, replica.port);
      GroupSnoc(CutPeers(parts[..i]), peer);
      AddPeerInPlace(shards, peer);
      var at := FindShard(shards, shard);
      if at < |shards| {
        shards := shards[at := Shard(shard, shards[at].replicas + [replica])];
      } else {
        shards := shards + [Shard(shard, [replica])];
      }
    }
    assert parts[..|parts|] == parts;
  }

  /** `build_remote_servers_xml`. */
  method BuildRemoteServersXml(cluster: string, topologyPeers: string) returns (body: string)
    ensures body == RemoteServersXml(cluster, topologyPeers)
  {
    hide Group, CutPeers, Print, ShardForest, ReplicaForest, PeerParts, Tagged, Document;
    var shards := CollectShards(PeerParts(topologyPeers));
    body := "<clickhouse><remote_servers><" + cluster + ">";
    ghost var all := body + Print(ShardForest(shards));
    for i := 0 to |shards|
      invariant body + Print(ShardForest(shards[i..])) == all
    {
      PrintShard(shards[i..]);
      var shard := ShardText(shards[i].replicas);
      assert shards[i..][1..] == shards[i + 1..];
      ghost var rest := Print(ShardForest(shards[i + 1..]));
      assert body + (shard + rest) == (body + shard) + rest;
      body := body + shard;
    }
    PrintNothing(shards[|shards|..]);
    body := body + ("</" + cluster + "></remote_servers></clickhouse>");
    PrintDocument(cluster, shards);
  }

  lemma PrintNothing(shards: seq<Shard>)
    requires shards == []
    ensures Print(ShardForest(shards)) == ""
  {
  }

  /** The inner loop: the text of one shard. */
  method ShardText(replicas: seq<Replica>) returns (text: string)
    ensures text == Tagged("shard", Print(ReplicaForest(replicas)))
  {
    TaggedParts("shard", Print(ReplicaForest(replicas)));
    assert "<" + "shard" + ">" == "<shard>" && "</" + "shard" + ">" == "</shard>";
    assert Print(ReplicaForest([])) == "";
    hide Print, ReplicaForest, Tagged;
    text := "<shard>";
    ghost var all := "<shard>" + Print(ReplicaForest(replicas));
    assert replicas[0..] == replicas;
    for j := 0 to |replicas|
      invariant text + Print(ReplicaForest(replicas[j..])) == all
    {
      PrintReplica(replicas[j..]);
      assert replicas[j..][1..] == replicas[j + 1..];
      ReplicaLiterals(replicas[j].host, replicas[j].port);
      var replica := "<replica><host>" + replicas[j].host + "</host><port>" + replicas[j].port + "</port></replica>";
      ghost var rest := Print(ReplicaForest(replicas[j + 1..]));
      assert text + (replica + rest) == (text + replica) + rest;
      text := text + replica;
    }
    assert replicas[|replicas|..] == [] && text + "" == text;
    text := text + "</shard>";
  }

  lemma GroupSnoc(peers: seq<Peer>, p: Peer)
    ensures Group(peers + [p]) == AddPeer(Group(peers), p)
  {
    assert (peers + [p])[..|peers|] == peers;
  }

  // ---- Reading it back

  function ReadReplicas(f: Forest): Option<seq<Replica>> {
    match f
    case Nil => Some([])
    case Element(name, Element(n1, Chars(host, Nil), Element(n2, Chars(port, Nil), Nil)), next) =>
      if name != "replica" || n1 != "host" || n2 != "port" then None
      else
        var rest := ReadReplicas(next);
        if rest.None? then None else Some([Replica(host, port)] + rest.value)
    case _ => None
  }

  function ReadShards(f: Forest): Option<seq<seq<Replica>>> {
    match f
    case Nil => Some([])
    case Element(name, kids, next) =>
      var first, rest := ReadReplicas(kids), ReadShards(next);
      if name != "shard" || first.None? || rest.None? then None else Some([first.value] + rest.value)
    case _ => None
  }

  /** A `remote_servers` configuration as ClickHouse would see it: cluster name, and the replicas of each shard. */
  function ReadConfig(text: string): Option<(string, seq<seq<Replica>>)> {
    match Read(text)
    case Some(Element(n1, Element(n2, Element(cluster, shards, Nil), Nil), Nil)) =>
      if n1 != "clickhouse" || n2 != "remote_servers" || ReadShards(shards).None? then None
      else Some((cluster, ReadShards(shards).value))
    case _ => None
  }

  function ReplicaLists(shards: seq<Shard>): (r: seq<seq<Replica>>)
    ensures |r| == |shards| && forall i :: 0 <= i < |shards| ==> r[i] == shards[i].replicas
  {
    if shards == [] then [] else [shards[0].replicas] + ReplicaLists(shards[1..])
  }

  lemma {:induction false} ReadReplicaForest(rs: seq<Replica>)
    ensures ReadReplicas(ReplicaForest(rs)) == Some(rs)
  {
    if rs != [] {
      ReadReplicaForest(rs[1..]);
      assert rs == [Replica(rs[0].host, rs[0].port)] + rs[1..];
    }
  }

  lemma {:induction false} ReadShardForest(shards: seq<Shard>)
    ensures ReadShards(ShardForest(shards)) == Some(ReplicaLists(shards))
  {
    if shards != [] {
      ReadReplicaForest(shards[0].replicas);
      ReadShardForest(shards[1..]);
    }
  }

  predicate ReplicaSafe(r: Replica) {
    HostAllowed(r.host) && ParseUnsigned(r.port, U16_MAX).Some?
  }

  ghost predicate AllReplicasSafe(rs: seq<Replica>) {
    forall i :: 0 <= i < |rs| ==> ReplicaSafe(rs[i])
  }

  ghost predicate AllShardsSafe(shards: seq<Shard>) {
    forall i :: 0 <= i < |shards| ==> AllReplicasSafe(shards[i].replicas)
  }

  predicate LegalHost(host: string) {
    forall i :: 0 <= i < |host| ==> XmlChar(host[i])
  }

  ghost predicate AllHostsLegal(shards: seq<Shard>) {
    forall i :: 0 <= i < |shards| ==> HostsLegal(shards[i].replicas)
  }

  lemma HostText(host: string)
    requires HostAllowed(host)
    ensures host != "" && Lacks(host, '<') && (CharacterData(host) <==> LegalHost(host))
  {
    hide Utf8Len, Contains;
    assert Lacks(host, '&') && Lacks(host, '>');
    NoSectionEnd(host);
  }

  lemma PortText(port: string)
    requires ParseUnsigned(port, U16_MAX).Some?
    ensures port != "" && Lacks(port, '<') && CharacterData(port)
  {
    hide ParseUnsigned, Contains;
    NoSectionEnd(port);
  }

  lemma FixedNames()
    ensures Name("clickhouse") && Name("remote_servers") && Name("shard") && Name("replica") && Name("host")
    ensures Name("port")
  {
  }

  lemma NameDelimited(name: string)
    requires Name(name)
    ensures Lacks(name, '>') && name[0] != '/'
  {
  }

  lemma OneTextSafe(name: string, text: string, next: Forest)
    requires Name(name) && text != "" && Lacks(text, '<') && Delimited(next)
    ensures var f := Element(name, Chars(text, Nil), next);
            Delimited(f) && (Legal(f) <==> CharacterData(text) && Legal(next))
  {
    assert Legal(Nil) && Delimited(Nil);
    hide Name, CharacterData;
    NameDelimited(name);
    assert Delimited(Chars(text, Nil)) && (Legal(Chars(text, Nil)) <==> CharacterData(text));
  }

  lemma ReplicaSafeForest(r: Replica, next: Forest)
    requires ReplicaSafe(r) && Delimited(next)
    ensures var port := Element("port", Chars(r.port, Nil), Nil);
            var f := Element("replica", Element("host", Chars(r.host, Nil), port), next);
            Delimited(f) && (Legal(f) <==> LegalHost(r.host) && Legal(next))
  {
    assert Legal(Nil) && Delimited(Nil);
    hide Name, CharacterData, LegalHost, HostAllowed, ParseUnsigned;
    FixedNames();
    HostText(r.host);
    PortText(r.port);
    var port := Element("port", Chars(r.port, Nil), Nil);
    OneTextSafe("port", r.port, Nil);
    OneTextSafe("host", r.host, port);
    NameDelimited("replica");
  }

  ghost predicate HostsLegal(rs: seq<Replica>) {
    forall j :: 0 <= j < |rs| ==> LegalHost(rs[j].host)
  }

  lemma {:induction false} ReplicaForestSafe(rs: seq<Replica>)
    requires AllReplicasSafe(rs)
    ensures Delimited(ReplicaForest(rs)) && (Legal(ReplicaForest(rs)) <==> HostsLegal(rs))
  {
    if rs != [] {
      var rest := rs[1..];
      assert forall j :: 0 <= j < |rest| ==> rest[j] == rs[j + 1];
      assert HostsLegal(rs) <==> LegalHost(rs[0].host) && HostsLegal(rest) by {
        if LegalHost(rs[0].host) && HostsLegal(rest) {
          forall j | 0 <= j < |rs| ensures LegalHost(rs[j].host) {
            if j > 0 { assert LegalHost(rest[j - 1].host); }
          }
        }
      }
      ReplicaForestSafe(rest);
      ReplicaSafeForest(rs[0], ReplicaForest(rest));
    }
  }

  lemma {:induction false} ShardForestSafe(shards: seq<Shard>)
    requires AllShardsSafe(shards)
    ensures Delimited(ShardForest(shards)) && (Legal(ShardForest(shards)) <==> AllHostsLegal(shards))
  {
    FixedNames();
    hide Name, ReplicaForest, ReplicaSafe, LegalHost, AllReplicasSafe;
    if shards != [] {
      var first, rest := shards[0].replicas, shards[1..];
      assert forall i :: 0 <= i < |rest| ==> rest[i] == shards[i + 1];
      assert AllReplicasSafe(first) && AllShardsSafe(rest);
      ReplicaForestSafe(first);
      ShardForestSafe(rest);
      NameDelimited("shard");
      assert AllHostsLegal(shards) <==> HostsLegal(first) && AllHostsLegal(rest) by {
        hide HostsLegal;
        if HostsLegal(first) && AllHostsLegal(rest) {
          forall i | 0 <= i < |shards| ensures HostsLegal(shards[i].replicas) {
            if i > 0 { assert HostsLegal(rest[i - 1].replicas); }
          }
        }
      }
    }
  }

  lemma {:induction false} ReplicasOfSafe(peers: seq<Peer>, shard: string)
    requires forall i :: 0 <= i < |peers| ==> PeerAllowed(peers[i], true)
    ensures AllReplicasSafe(ReplicasOf(peers, shard))
  {
    hide HostAllowed, ShardAllowed, ParseUnsigned;
    if peers != [] {
      ReplicasOfSafe(peers[..|peers| - 1], shard);
    }
  }

  lemma GroupSafe(peers: seq<Peer>)
    requires forall i :: 0 <= i < |peers| ==> PeerAllowed(peers[i], true)
    ensures AllShardsSafe(Group(peers))
  {
    hide PeerAllowed, Group, AllReplicasSafe, Names;
    GroupGrouped(peers);
    forall i | 0 <= i < |Group(peers)| ensures AllReplicasSafe(Group(peers)[i].replicas) {
      ReplicasOfSafe(peers, Names(peers)[i]);
    }
  }

  lemma DocumentSafe(cluster: string, shards: seq<Shard>)
    requires UserAllowed(cluster) && AllShardsSafe(shards)
    ensures Delimited(Document(cluster, shards))
    ensures Legal(Document(cluster, shards)) <==> NameStart(cluster[0]) && AllHostsLegal(shards)
  {
    ClusterName(cluster);
    ShardForestSafe(shards);
    FixedNames();
    NameDelimited("clickhouse");
    NameDelimited("remote_servers");
    assert Delimited(Nil) && Legal(Nil);
    hide UserAllowed, Name, AllShardsSafe, AllHostsLegal, NameStart, ShardForest;
    var inner := Element(cluster, ShardForest(shards), Nil);
    assert Delimited(inner) && (Legal(inner) <==> NameStart(cluster[0]) && AllHostsLegal(shards));
    var servers := Element("remote_servers", inner, Nil);
    assert Delimited(servers) && (Legal(servers) <==> Legal(inner));
  }

  /** A validated cluster name holds no markup, and is an XML name unless it starts with a digit or a hyphen. */
  lemma ClusterName(cluster: string)
    requires UserAllowed(cluster)
    ensures Lacks(cluster, '>') && cluster != "" && cluster[0] != '/' && (Name(cluster) <==> NameStart(cluster[0]))
  {
    hide Utf8Len;
    assert forall i :: 0 <= i < |cluster| ==> UserChar(cluster[i]) && NameChar(cluster[i]);
  }

  lemma ReadDocument(cluster: string, shards: seq<Shard>)
    requires UserAllowed(cluster) && AllShardsSafe(shards)
    ensures ReadConfig(Print(Document(cluster, shards))) ==
            if NameStart(cluster[0]) && AllHostsLegal(shards) then Some((cluster, ReplicaLists(shards))) else None
  {
    hide UserAllowed, AllShardsSafe, AllHostsLegal, Read, Print, ShardForest, ReplicaLists, Delimited, Legal;
    ClusterName(cluster);
    DocumentSafe(cluster, shards);
    ReadPrint(Document(cluster, shards));
    ReadShardForest(shards);
  }

  /**
   * For every accepted peer list: no entry is dropped, each peer's shard is there and gets exactly its peers in
   * their order, shards stand by first appearance, and the text the builder writes reads back as just that, if and only
   * if the cluster name may start an XML name and no host holds a character that XML does not allow.
   */
  lemma AcceptedPeersReadBack(cluster: string, p: Params)
    requires UserAllowed(cluster) && TopologyVerdict(p, ChRemoteServersApply).Ok?
    ensures var parts := PeerParts(Trim(p.topologyPeers));
            var peers := CutPeers(parts);
            && |peers| == |parts| && (forall i :: 0 <= i < |parts| ==> CutPeer(parts[i], true) == Some(peers[i]))
            && Grouped(peers, Names(peers), Group(peers)) && ByFirstAppearance(peers, Names(peers))
            && Covers(Names(peers), peers)
            && ReadConfig(RemoteServersXml(cluster, TopologyVerdict(p, ChRemoteServersApply).value)) ==
               if NameStart(cluster[0]) && AllHostsLegal(Group(peers))
               then Some((cluster, ReplicaLists(Group(peers)))) else None
  {
    hide UserAllowed, AllShardsSafe, AllHostsLegal, ReadConfig, Print, Document, Grouped, ByFirstAppearance, Covers,
         Names, Group, CutPeers, CutPeer, PeerAllowed, PeerParts, TopologyVerdict, Trim, NameStart, ReplicaLists;
    var parts := PeerParts(Trim(p.topologyPeers));
    var peers := CutPeers(parts);
    ClusterName(cluster);
    AcceptedPeersResplit(p, ChRemoteServersApply);
    NoneSkipped(parts);
    GroupGrouped(peers);
    NamesByFirstAppearance(peers);
    NamesCoverAll(peers);
    GroupSafe(peers);
    ReadDocument(cluster, Group(peers));
  }

  lemma DigitCluster()
    ensures UserAllowed("1st") && !NameStart("1st"[0])
  {
    assert Utf8Len("1st") == 3;
  }

  lemma ClusterUnreadable(cluster: string, p: Params)
    requires UserAllowed(cluster) && TopologyVerdict(p, ChRemoteServersApply).Ok?
    ensures cluster != ""
    ensures !NameStart(cluster[0]) ==>
              ReadConfig(RemoteServersXml(cluster, TopologyVerdict(p, ChRemoteServersApply).value)) == None
  {
    hide UserAllowed, ReadConfig, RemoteServersXml, TopologyVerdict, AllHostsLegal, Grouped, Names, Group, CutPeers,
         PeerParts, Trim, ByFirstAppearance, CutPeer, ReplicaLists, NameStart;
    ClusterName(cluster);
    AcceptedPeersReadBack(cluster, p);
  }

  /** A cluster name that validation accepts and XML does not: the written text is not readable. */
  lemma DigitClusterUnreadable(p: Params)
    requires TopologyVerdict(p, ChRemoteServersApply).Ok?
    ensures UserAllowed("1st")
    ensures ReadConfig(RemoteServersXml("1st", TopologyVerdict(p, ChRemoteServersApply).value)) == None
  {
    hide UserAllowed, ReadConfig, RemoteServersXml, TopologyVerdict, NameStart;
    DigitCluster();
    ClusterUnreadable("1st", p);
  }

  // ---- Writing it in the container

  const CONFIG_DIR := "/etc/clickhouse-server/config.d/"
  const CONFIG_PATH := CONFIG_DIR + "nucleus_remote_servers.xml"

  function Script(xml: string): string {
    "printf '%s' '" + Shell.EscapeQuotes(xml) + "' > " + CONFIG_PATH
  }

  /** `write_remote_servers_xml_argv`. */
  function WriteArgv(container: string, xml: string): seq<string> {
    ["exec", container, "sh", "-c", Script(xml)]
  }

  function ReloadArgv(container: string): seq<string> {
    ["exec", container, "clickhouse-client", "-q", "SYSTEM RELOAD CONFIG"]
  }

  lemma PlainJoined(a: string, b: string)
    requires Shell.PlainWord(a) && Shell.PlainWord(b)
    ensures Shell.PlainWord(a + b)
  {
    hide Shell.Special;
  }

  lemma DirIsPlain()
    ensures Shell.PlainWord(CONFIG_DIR)
  {
    hide Shell.PlainWord;
    assert CONFIG_DIR == "/etc/clickhouse-" + "server/config.d/";
    DirPieces();
    PlainJoined("/etc/clickhouse-", "server/config.d/");
  }

  lemma DirPieces()
    ensures Shell.PlainWord("/etc/clickhouse-") && Shell.PlainWord("server/config.d/")
  {
  }

  lemma FileIsPlain()
    ensures Shell.PlainWord("nucleus_remote_servers.xml")
  {
  }

  lemma PathIsPlain()
    ensures Shell.PlainWord(CONFIG_PATH) && CONFIG_PATH != ""
  {
    hide Shell.PlainWord, CONFIG_DIR;
    DirIsPlain();
    FileIsPlain();
    PlainJoined(CONFIG_DIR, "nucleus_remote_servers.xml");
  }

  lemma ScriptPieces(escaped: string)
    ensures "printf '%s' '" + escaped + "' > " + CONFIG_PATH ==
            "printf" + (" " + ("'" + ("%s" + ("'" + (" " + ("'" + (escaped + ("'" +
              (" " + (">" + (" " + CONFIG_PATH)))))))))))
  {
    assert "printf" + (" " + ("'" + ("%s" + ("'" + (" " + "'"))))) == "printf '%s' '";
    assert "'" + (" " + (">" + " ")) == "' > ";
  }

  /** Whatever the XML, the shell sees `printf`, `%s`, exactly that XML, and a redirection to the fixed path. */
  lemma ScriptTokens(xml: string)
    ensures Shell.Tokenise(Script(xml)) ==
            Some([Shell.Word("printf"), Shell.Word("%s"), Shell.Word(xml), Shell.RedirectOut, Shell.Word(CONFIG_PATH)])
  {
    assert Shell.EscapeQuotes("%s") == "%s";
    hide Shell.Lex, Shell.PlainWord, Shell.EscapeQuotes;
    PathIsPlain();
    ScriptPieces(Shell.EscapeQuotes(xml));
    Shell.PrintfTokens(xml, CONFIG_PATH);
  }

  /** The commands of one call: the write, and the reload if it succeeded. */
  function ApplyHistory(container: string, params: Params, answers: Answers, n: nat): seq<Exchange> {
    var xml := RemoteServersXml(params.user, params.topologyPeers);
    var write := Exchange(WriteArgv(container, xml), answers(n));
    if Succeeded(write) then [write, Exchange(ReloadArgv(container), answers(n + 1))] else [write]
  }

  /** The result rests on the last command: its runner error, or its output; success needs both commands. */
  function ApplyResult(h: seq<Exchange>): ExecResult
    requires h != []
  {
    match h[|h| - 1].result
    case SpawnFailed => Errored
    case Ran(output) => Finished(|h| == 2 && output.success, output)
  }

  /** `run_ch_remote_servers_apply`: reload only after a successful write of exactly the built text. */
  method RunChRemoteServersApply(container: string, params: Params, docker: DockerCli) returns (r: ExecResult)
    modifies docker
    ensures docker.history
         == old(docker.history) + ApplyHistory(container, params, docker.answers, |old(docker.history)|)
    ensures r == ApplyResult(ApplyHistory(container, params, docker.answers, |old(docker.history)|))
  {
    hide RemoteServersXml, Script, Classify, Combined;
    var xml := BuildRemoteServersXml(params.user, params.topologyPeers);
    var write := docker.Run(WriteArgv(container, xml));
    if write.SpawnFailed? { return Errored; }
    if !write.output.success { return Finished(false, write.output); }
    var reload := docker.Run(ReloadArgv(container));
    if reload.SpawnFailed? { return Errored; }
    StrictVerdict(ChRemoteServersApply, reload.output.success, Combined(reload.output));
    return Finished(Classify(ChRemoteServersApply, reload.output.success, Combined(reload.output)), reload.output);
  }

  // ---- From the request to the file in the container

  /** A command that has `printf` write a text to the configuration file. */
  ghost predicate Writes(argv: seq<string>, container: string, text: string) {
    && |argv| == 5 && argv[..4] == ["exec", container, "sh", "-c"]
    && Shell.Tokenise(argv[4]) == Some([Shell.Word("printf"), Shell.Word("%s"), Shell.Word(text), Shell.RedirectOut,
                                        Shell.Word("/etc/clickhouse-server/config.d/" + "nucleus_remote_servers.xml")])
  }

  /** The configuration that the requested peers describe, when it can be read at all. */
  ghost function PeersConfig(p: Params): Option<(string, seq<seq<Replica>>)> {
    var cluster, shards := Trim(p.user), Group(CutPeers(PeerParts(Trim(p.topologyPeers))));
    if cluster != "" && NameStart(cluster[0]) && AllHostsLegal(shards) then Some((cluster, ReplicaLists(shards)))
    else None
  }

  lemma ConfigPathIs()
    ensures CONFIG_PATH == "/etc/clickhouse-server/config.d/" + "nucleus_remote_servers.xml"
  {
  }

  lemma WriteWrites(container: string, xml: string)
    ensures Writes(WriteArgv(container, xml), container, xml)
  {
    hide Shell.Tokenise, Script, CONFIG_PATH;
    ScriptTokens(xml);
    ConfigPathIs();
  }

  lemma ClusterUser(p: Params)
    requires Valid(p, ChRemoteServersApply)
    ensures UserAllowed(Trim(p.user)) && Normalised(p, ChRemoteServersApply).user == Trim(p.user)
  {
    hide Trim, UserAllowed, TopologyVerdict;
  }

  /** For accepted parameters, the command writes a text that reads back as exactly the requested peers. */
  lemma WrittenConfig(container: string, p: Params)
    requires Valid(p, ChRemoteServersApply)
    ensures var v := Normalised(p, ChRemoteServersApply); var xml := RemoteServersXml(v.user, v.topologyPeers);
            Writes(WriteArgv(container, xml), container, xml) && ReadConfig(xml) == PeersConfig(p)
  {
    hide UserAllowed, AllHostsLegal, ReadConfig, RemoteServersXml, Names, Group, CutPeers, PeerParts, TopologyVerdict,
         Trim, NameStart, ReplicaLists, Writes, WriteArgv, Grouped, ByFirstAppearance, CutPeer;
    ClusterUser(p);
    var v := Normalised(p, ChRemoteServersApply);
    ClusterName(v.user);
    AcceptedPeersReadBack(v.user, p);
    WriteWrites(container, RemoteServersXml(v.user, v.topologyPeers));
  }

  /** The commands of an accepted action, and its verdict. */
  ghost predicate Configures(h: seq<Exchange>, container: string, p: Params, r: ExecResult) {
    && 1 <= |h| <= 2
    && (exists xml :: Writes(h[0].argv, container, xml) && ReadConfig(xml) == PeersConfig(p))
    && (|h| == 2 ==> h[1].argv == ["exec", container, "clickhouse-client", "-q", "SYSTEM RELOAD CONFIG"])
    && (r.Finished? && r.ok <==> |h| == 2 && Succeeded(h[0]) && Succeeded(h[1]))
    && (r.Errored? <==> h[|h| - 1].result.SpawnFailed?) && (r.Finished? ==> h[|h| - 1].result == Ran(r.output))
  }

  /**
   * The whole action: refused parameters run nothing. Accepted ones write, before anything else, a text that reads
   * back as the requested peers, and the action succeeds only if that write and the reload did.
   */
  method RunRemoteServersAction(containerRef: string, p: Params, docker: DockerCli)
    returns (r: Result<ExecResult, ParamError>)
    modifies docker
    ensures r.Err? <==> !Valid(p, ChRemoteServersApply)
    ensures r.Err? ==> docker.history == old(docker.history) && Refusal(p, ChRemoteServersApply) == Some(r.error)
    ensures r.Ok? ==> old(docker.history) <= docker.history
                      && Configures(docker.history[|old(docker.history)|..], Trim(containerRef), p, r.value)
  {
    hide Trim, Valid, Refusal, Normalised, ApplyHistory, ApplyResult, Configures;
    var v := ValidateFor(p, ChRemoteServersApply);
    if v.Err? { return Err(v.error); }
    ghost var before := docker.history;
    var result := RunChRemoteServersApply(Trim(containerRef), v.value, docker);
    ghost var h := ApplyHistory(Trim(containerRef), v.value, docker.answers, |before|);
    assert (before + h)[|before|..] == h;
    ActionConfigures(Trim(containerRef), p, docker.answers, |before|);
    return Ok(result);
  }

  lemma ActionConfigures(container: string, p: Params, answers: Answers, n: nat)
    requires Valid(p, ChRemoteServersApply)
    ensures var h := ApplyHistory(container, Normalised(p, ChRemoteServersApply), answers, n);
            h != [] && Configures(h, container, p, ApplyResult(h))
  {
    hide Valid, Normalised, Writes, ReadConfig, PeersConfig, RemoteServersXml, WriteArgv;
    WrittenConfig(container, p);
  }
}
