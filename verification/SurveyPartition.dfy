/**
 Why the rollout may take its shards from the survey: a complete CLUSTER NODES view
 yields shards that partition the pods.
 */
module SurveyPartition {
  import opened ClusterNodes
  import opened ShardSurvey
  import ClusterRollout

  /** The shards as driveClusterRollout hands them to the decision. */
  function RolloutShards(shards: seq<Shard>): seq<ClusterRollout.Shard> {
    seq(|shards|, k requires 0 <= k < |shards| => ClusterRollout.Shard(shards[k].primary, shards[k].replicas))
  }

  /** Every pod of `names` is listed once, under one id, and every replica's master is listed. */
  ghost predicate Complete(nodes: seq<Node>, names: set<string>) {
    && (forall i, j :: 0 <= i < j < |nodes| ==> nodes[i].id != nodes[j].id && nodes[i].podName != nodes[j].podName)
    && (forall name :: name in names <==> exists n :: n in nodes && n.podName == name)
    && (forall n :: n in nodes && !n.IsMaster() ==>
          n.masterID != "" && exists m :: m in Masters(nodes) && m.id == n.masterID)
  }

  lemma {:induction false} MastersIff(nodes: seq<Node>, n: Node)
    ensures n in Masters(nodes) <==> n in nodes && n.IsMaster()
  {
    if nodes != [] {
      MastersIff(nodes[..|nodes| - 1], n);
      assert nodes == nodes[..|nodes| - 1] + [nodes[|nodes| - 1]];
    }
  }

  lemma {:induction false} MastersDistinct(nodes: seq<Node>)
    requires forall i, j :: 0 <= i < j < |nodes| ==> nodes[i].id != nodes[j].id
    ensures forall i, j :: 0 <= i < j < |Masters(nodes)| ==> Masters(nodes)[i].id != Masters(nodes)[j].id
  {
    if nodes != [] {
      var front := nodes[..|nodes| - 1];
      MastersDistinct(front);
      forall m | m in Masters(front) ensures m.id != nodes[|nodes| - 1].id { MastersIff(front, m); }
    }
  }

  /** Node n belongs to shard k: it is its master or attached to it. */
  ghost predicate In(nodes: seq<Node>, n: Node, k: nat) {
    k < |Masters(nodes)| && n in nodes && (n == Masters(nodes)[k] || AttachesTo(n, ById(Masters(nodes)), k))
  }

  lemma OneHome(nodes: seq<Node>, names: set<string>, n: Node, k: nat, l: nat)
    requires Complete(nodes, names) && In(nodes, n, k) && In(nodes, n, l)
    ensures k == l
  {
    MastersDistinct(nodes);
    MastersIff(nodes, n);
    MastersIff(nodes, Masters(nodes)[k]);
    MastersIff(nodes, Masters(nodes)[l]);
  }

  lemma SomeHome(nodes: seq<Node>, names: set<string>, n: Node) returns (k: nat)
    requires Complete(nodes, names) && n in nodes
    ensures In(nodes, n, k)
  {
    var masters := Masters(nodes);
    MastersIff(nodes, n);
    if n.IsMaster() {
      k :| 0 <= k < |masters| && masters[k] == n;
    } else {
      var m :| m in masters && m.id == n.masterID;
      k :| 0 <= k < |masters| && masters[k] == m;
      MastersDistinct(nodes);
      ByIdAt(masters, k);
    }
  }

  lemma MemberIff(nodes: seq<Node>, s: Shard, k: nat, name: string)
    requires k < |Masters(nodes)| && Describes(s, Masters(nodes), nodes, k)
    ensures name in ClusterRollout.Members(ClusterRollout.Shard(s.primary, s.replicas)) <==>
          exists n :: In(nodes, n, k) && n.podName == name
  {
    var masters := Masters(nodes);
    var attached := Attached(nodes, ById(masters), k);
    MastersIff(nodes, masters[k]);
    if name in s.replicas {
      var i :| 0 <= i < |s.replicas| && s.replicas[i] == name;
      AttachedIff(nodes, ById(masters), k, attached[i]);
      assert In(nodes, attached[i], k);
    }
    if name == s.primary { assert In(nodes, masters[k], k); }
    if n :| In(nodes, n, k) && n.podName == name && n != masters[k] {
      AttachedIff(nodes, ById(masters), k, n);
      var i :| 0 <= i < |attached| && attached[i] == n;
      assert s.replicas[i] == name;
    }
  }

  lemma SamePod(nodes: seq<Node>, names: set<string>, m: Node, n: Node)
    requires Complete(nodes, names) && m in nodes && n in nodes && m.podName == n.podName
    ensures m == n
  {
  }

  /** The primary of a shard is not among its replicas. */
  lemma PrimaryApart(nodes: seq<Node>, names: set<string>, s: Shard, k: nat)
    requires Complete(nodes, names) && k < |Masters(nodes)| && Describes(s, Masters(nodes), nodes, k)
    ensures s.primary !in s.replicas
  {
    var masters := Masters(nodes);
    if s.primary in s.replicas {
      var i :| 0 <= i < |s.replicas| && s.replicas[i] == s.primary;
      var n := Attached(nodes, ById(masters), k)[i];
      AttachedIff(nodes, ById(masters), k, n);
      MastersIff(nodes, masters[k]);
      SamePod(nodes, names, n, masters[k]);
    }
  }

  lemma Apart(nodes: seq<Node>, names: set<string>, shards: seq<Shard>, i: int, j: int)
    requires Complete(nodes, names) && |shards| == |Masters(nodes)| && 0 <= i < j < |shards|
    requires forall k :: 0 <= k < |shards| ==> Describes(shards[k], Masters(nodes), nodes, k)
    ensures ClusterRollout.Members(RolloutShards(shards)[i]) !! ClusterRollout.Members(RolloutShards(shards)[j])
  {
    forall name | name in ClusterRollout.Members(RolloutShards(shards)[i])
      ensures name !in ClusterRollout.Members(RolloutShards(shards)[j])
    {
      MemberIff(nodes, shards[i], i, name);
      MemberIff(nodes, shards[j], j, name);
      var m :| In(nodes, m, i) && m.podName == name;
      if name in ClusterRollout.Members(RolloutShards(shards)[j]) {
        var n :| In(nodes, n, j) && n.podName == name;
        SamePod(nodes, names, m, n);
        OneHome(nodes, names, m, i, j);
      }
    }
  }

  /** The shards surveyed from a complete view partition the pods: the survey is accurate in the rollout's sense. */
  lemma SurveyIsAccurate(nodes: seq<Node>, names: set<string>, shards: seq<Shard>)
    requires Complete(nodes, names) && |shards| == |Masters(nodes)|
    requires forall k :: 0 <= k < |shards| ==> Describes(shards[k], Masters(nodes), nodes, k)
    ensures ClusterRollout.Partition(RolloutShards(shards), names)
  {
    var r := RolloutShards(shards);
    forall i | 0 <= i < |r| ensures r[i].primary !in r[i].replicas { PrimaryApart(nodes, names, shards[i], i); }
    forall i, j | 0 <= i < j < |r| ensures ClusterRollout.Members(r[i]) !! ClusterRollout.Members(r[j]) {
      Apart(nodes, names, shards, i, j);
    }
    forall name ensures name in ClusterRollout.Covered(r) <==> name in names {
      ClusterRollout.CoveredIff(r, name);
      if name in ClusterRollout.Covered(r) {
        var k :| 0 <= k < |r| && name in ClusterRollout.Members(r[k]);
        MemberIff(nodes, shards[k], k, name);
      }
      if name in names {
        var n :| n in nodes && n.podName == name;
        var k := SomeHome(nodes, names, n);
        MemberIff(nodes, shards[k], k, name);
        assert name in ClusterRollout.Members(r[k]);
      }
    }
  }
}
