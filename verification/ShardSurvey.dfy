/** surveyCluster: the shards read out of a CLUSTER NODES view, in two passes over the nodes. */
module ShardSurvey {
  import opened ClusterNodes

  datatype Health = Ready | Degraded | Down

  datatype Shard = Shard(index: nat, primary: string, primaryID: string, slotRanges: seq<string>, slotCount: int,
                         health: Health, replicas: seq<string>)

  /** The master nodes of a view, in its order. */
  function Masters(nodes: seq<Node>): seq<Node> {
    if nodes == [] then []
    else
      var front := Masters(nodes[..|nodes| - 1]);
      if nodes[|nodes| - 1].IsMaster() then front + [nodes[|nodes| - 1]] else front
  }

  /** Master ID to shard index; an ID listed twice keeps the last index. */
  function ById(masters: seq<Node>): map<string, nat> {
    if masters == [] then map[]
    else ById(masters[..|masters| - 1])[masters[|masters| - 1].id := |masters| - 1]
  }

  predicate AttachesTo(n: Node, byId: map<string, nat>, k: nat) {
    !n.IsMaster() && n.masterID != "" && n.masterID in byId && byId[n.masterID] == k
  }

  /** The replica nodes of shard k, in the view's order. */
  function Attached(nodes: seq<Node>, byId: map<string, nat>, k: nat): seq<Node> {
    if nodes == [] then []
    else
      var front := Attached(nodes[..|nodes| - 1], byId, k);
      if AttachesTo(nodes[|nodes| - 1], byId, k) then front + [nodes[|nodes| - 1]] else front
  }

  function Pods(nodes: seq<Node>): seq<string> {
    seq(|nodes|, i requires 0 <= i < |nodes| => nodes[i].podName)
  }

  ghost predicate SomeUnhealthy(replicas: seq<Node>) {
    exists n :: n in replicas && !n.IsHealthy()
  }

  /** Down without a healthy primary, Degraded with an unhealthy replica only, Ready otherwise. */
  ghost predicate HealthMatches(h: Health, primary: Node, replicas: seq<Node>) {
    && (h == Down <==> !primary.IsHealthy())
    && (h == Degraded <==> primary.IsHealthy() && SomeUnhealthy(replicas))
  }

  /** Shard k describes master k of the view and the replicas attached to it among `seen`. */
  ghost predicate Describes(s: Shard, masters: seq<Node>, seen: seq<Node>, k: nat)
    requires k < |masters|
  {
    var m := masters[k];
    var attached := Attached(seen, ById(masters), k);
    && s.index == k && s.primary == m.podName && s.primaryID == m.id && s.slotRanges == m.slots
          && s.slotCount == Total(m.slots)
    && s.replicas == Pods(attached) && HealthMatches(s.health, m, attached)
  }

  ghost predicate Fresh(s: Shard, m: Node, k: nat) {
    s == Shard(k, m.podName, m.id, m.slots, Total(m.slots), if m.IsHealthy() then Ready else Down, [])
  }

  lemma FreshDescribes(s: Shard, masters: seq<Node>, k: nat)
    requires k < |masters| && Fresh(s, masters[k], k)
    ensures Describes(s, masters, [], k)
  {
    assert Attached([], ById(masters), k) == [] && Pods([]) == [];
  }

  /** First pass: one shard per master, with no replica yet. */
  method MasterPass(nodes: seq<Node>) returns (shards: seq<Shard>, byId: map<string, nat>)
    ensures byId == ById(Masters(nodes)) && |shards| == |Masters(nodes)|
    ensures forall k :: 0 <= k < |shards| ==> Describes(shards[k], Masters(nodes), [], k)
  {
    shards, byId := [], map[];
    for i := 0 to |nodes|
      invariant |shards| == |Masters(nodes[..i])| && byId == ById(Masters(nodes[..i]))
      invariant forall k :: 0 <= k < |shards| ==> Fresh(shards[k], Masters(nodes[..i])[k], k)
    {
      assert nodes[..i + 1][..i] == nodes[..i];
      if !nodes[i].IsMaster() { continue; }
      ghost var before := Masters(nodes[..i]);
      assert (before + [nodes[i]])[..|before|] == before;
      var count := SlotsCount(nodes[i].slots);
      byId := byId[nodes[i].id := |shards|];
      shards := shards + [Shard(|shards|, nodes[i].podName, nodes[i].id, nodes[i].slots, count,
                                if nodes[i].IsHealthy() then Ready else Down, [])];
    }
    assert nodes[..|nodes|] == nodes;
    forall k | 0 <= k < |shards| ensures Describes(shards[k], Masters(nodes), [], k) {
      FreshDescribes(shards[k], Masters(nodes), k);
    }
  }

  function Attach(s: Shard, n: Node): Shard {
    s.(replicas := s.replicas + [n.podName],
       health := if !n.IsHealthy() && s.health == Ready then Degraded else s.health)
  }

  function NextShard(s: Shard, n: Node, byId: map<string, nat>, k: nat): Shard {
    if AttachesTo(n, byId, k) then Attach(s, n) else s
  }

  lemma OneMoreReplica(replicas: seq<Node>, n: Node)
    ensures SomeUnhealthy(replicas + [n]) <==> SomeUnhealthy(replicas) || !n.IsHealthy()
    ensures Pods(replicas + [n]) == Pods(replicas) + [n.podName]
  {
    assert n in replicas + [n];
    assert forall m :: m in replicas ==> m in replicas + [n];
  }

  lemma AttachOne(s: Shard, masters: seq<Node>, nodes: seq<Node>, i: nat, k: nat)
    requires k < |masters| && i < |nodes| && Describes(s, masters, nodes[..i], k)
    ensures Describes(NextShard(s, nodes[i], ById(masters), k), masters, nodes[..i + 1], k)
  {
    assert nodes[..i + 1][..i] == nodes[..i];
    OneMoreReplica(Attached(nodes[..i], ById(masters), k), nodes[i]);
  }

  lemma {:induction false} ByIdInRange(masters: seq<Node>)
    ensures forall id :: id in ById(masters) ==> ById(masters)[id] < |masters| && masters[ById(masters)[id]].id == id
  {
    if masters != [] { ByIdInRange(masters[..|masters| - 1]); }
  }

  method SurveyShards(nodes: seq<Node>) returns (shards: seq<Shard>)
    ensures |shards| == |Masters(nodes)|
    ensures forall k :: 0 <= k < |shards| ==> Describes(shards[k], Masters(nodes), nodes, k)
  {
    var byId: map<string, nat>;
    shards, byId := MasterPass(nodes);
    ghost var masters := Masters(nodes);
    ByIdInRange(masters);
    for i := 0 to |nodes|
      invariant |shards| == |masters|
      invariant forall k :: 0 <= k < |shards| ==> Describes(shards[k], masters, nodes[..i], k)
    {
      forall k | 0 <= k < |shards|
        ensures Describes(NextShard(shards[k], nodes[i], byId, k), masters, nodes[..i + 1], k)
      {
        AttachOne(shards[k], masters, nodes, i, k);
      }
      var n := nodes[i];
      if n.IsMaster() || n.masterID == "" || n.masterID !in byId { continue; }
      var k := byId[n.masterID];
      shards := shards[k := Attach(shards[k], n)];
    }
    assert nodes[..|nodes|] == nodes;
  }

  lemma {:induction false} ByIdAt(masters: seq<Node>, k: nat)
    requires k < |masters| && forall i, j :: 0 <= i < j < |masters| ==> masters[i].id != masters[j].id
    ensures masters[k].id in ById(masters) && ById(masters)[masters[k].id] == k
  {
    if k < |masters| - 1 { ByIdAt(masters[..|masters| - 1], k); }
  }

  lemma {:induction false} AttachedIff(nodes: seq<Node>, byId: map<string, nat>, k: nat, n: Node)
    ensures n in Attached(nodes, byId, k) <==> n in nodes && AttachesTo(n, byId, k)
  {
    if nodes != [] {
      AttachedIff(nodes[..|nodes| - 1], byId, k, n);
      assert nodes == nodes[..|nodes| - 1] + [nodes[|nodes| - 1]];
    }
  }

  /**
   With node IDs distinct, a replica whose master is listed belongs to exactly one shard,
   its master's; one whose master is not listed belongs to none.
   */
  lemma ReplicaInOneShard(nodes: seq<Node>, n: Node, k: nat)
    requires n in nodes && !n.IsMaster() && n.masterID != "" && k < |Masters(nodes)|
    requires forall i, j :: 0 <= i < j < |Masters(nodes)| ==> Masters(nodes)[i].id != Masters(nodes)[j].id
    ensures n in Attached(nodes, ById(Masters(nodes)), k) <==> Masters(nodes)[k].id == n.masterID
  {
    var masters := Masters(nodes);
    AttachedIff(nodes, ById(masters), k, n);
    ByIdAt(masters, k);
    ByIdInRange(masters);
  }

  /** Replicas whose master is listed. */
  function Listed(nodes: seq<Node>, byId: map<string, nat>): nat {
    if nodes == [] then 0
    else
      var n := nodes[|nodes| - 1];
      Listed(nodes[..|nodes| - 1], byId) + (if !n.IsMaster() && n.masterID != "" && n.masterID in byId then 1 else 0)
  }

  function SumAttached(nodes: seq<Node>, byId: map<string, nat>, shards: nat): nat {
    if shards == 0 then 0 else SumAttached(nodes, byId, shards - 1) + |Attached(nodes, byId, shards - 1)|
  }

  lemma {:induction false} SumNone(byId: map<string, nat>, shards: nat)
    ensures SumAttached([], byId, shards) == 0
  {
    if shards > 0 { SumNone(byId, shards - 1); }
  }

  lemma {:induction false} SumStep(nodes: seq<Node>, byId: map<string, nat>, shards: nat)
    requires nodes != []
    ensures var n := nodes[|nodes| - 1];
            SumAttached(nodes, byId, shards) == SumAttached(nodes[..|nodes| - 1], byId, shards)
              + (if !n.IsMaster() && n.masterID != "" && n.masterID in byId && byId[n.masterID] < shards then 1 else 0)
  {
    if shards > 0 { SumStep(nodes, byId, shards - 1); }
  }

  lemma {:induction false} CountBalance(nodes: seq<Node>, byId: map<string, nat>, shards: nat)
    requires forall id :: id in byId ==> byId[id] < shards
    ensures SumAttached(nodes, byId, shards) == Listed(nodes, byId)
  {
    if nodes == [] {
      SumNone(byId, shards);
    } else {
      CountBalance(nodes[..|nodes| - 1], byId, shards);
      SumStep(nodes, byId, shards);
    }
  }

  /** No replica is lost or listed twice: the shards together list as many as have a listed master. */
  lemma ReplicasConserved(nodes: seq<Node>)
    ensures SumAttached(nodes, ById(Masters(nodes)), |Masters(nodes)|) == Listed(nodes, ById(Masters(nodes)))
  {
    ByIdInRange(Masters(nodes));
    CountBalance(nodes, ById(Masters(nodes)), |Masters(nodes)|);
  }
}
