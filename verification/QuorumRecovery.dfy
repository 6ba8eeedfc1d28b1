/**
 Recovery of a Cluster that has lost the majority of its primaries: the majority
 gate, the choice of fenced primaries and the replicas to promote in their place,
 the debounce, and the takeovers.
 */
module QuorumRecovery {
  import opened Common
  import opened ClusterNodes
  import Debounce

  const DOWN_AFTER: nat := 45  // seconds

  datatype Fence = ApiError | Fenced | Alive

  /** What the operator learns about pods at one moment: the k8s fence, the data path, the replica offset. */
  datatype Probe = Probe(fence: string -> Fence, serving: string -> bool, offset: string -> Option<int>)

  datatype Target = Target(primaryPod: string, primaryID: string, replicaPod: string)

  // ------------------------------------------------------------ majority gate

  ghost function MastersBelow(nodes: seq<Node>, n: nat): set<int>
    requires n <= |nodes|
  {
    set i | 0 <= i < n && nodes[i].IsMaster()
  }

  ghost function HealthyBelow(nodes: seq<Node>, n: nat): set<int>
    requires n <= |nodes|
  {
    set i | 0 <= i < n && nodes[i].IsMaster() && nodes[i].IsHealthy()
  }

  ghost function MastersOf(nodes: seq<Node>): set<int> { MastersBelow(nodes, |nodes|) }

  ghost function HealthyMasters(nodes: seq<Node>): set<int> { HealthyBelow(nodes, |nodes|) }

  lemma OneMoreMaster(nodes: seq<Node>, n: nat)
    requires n < |nodes|
    ensures |MastersBelow(nodes, n + 1)| == |MastersBelow(nodes, n)| + (if nodes[n].IsMaster() then 1 else 0)
  {
    if nodes[n].IsMaster() {
      assert MastersBelow(nodes, n + 1) == MastersBelow(nodes, n) + {n as int};
    } else {
      assert MastersBelow(nodes, n + 1) == MastersBelow(nodes, n);
    }
  }

  lemma OneMoreHealthy(nodes: seq<Node>, n: nat)
    requires n < |nodes|
    ensures |HealthyBelow(nodes, n + 1)| == |HealthyBelow(nodes, n)| + (if nodes[n].IsMaster()
          && nodes[n].IsHealthy() then 1 else 0)
  {
    if nodes[n].IsMaster() && nodes[n].IsHealthy() {
      assert HealthyBelow(nodes, n + 1) == HealthyBelow(nodes, n) + {n as int};
    } else {
      assert HealthyBelow(nodes, n + 1) == HealthyBelow(nodes, n);
    }
  }

  method CountMasters(nodes: seq<Node>) returns (healthy: nat, total: nat)
    ensures healthy == |HealthyMasters(nodes)| && total == |MastersOf(nodes)|
  {
    healthy, total := 0, 0;
    for i := 0 to |nodes|
      invariant healthy == |HealthyBelow(nodes, i)| && total == |MastersBelow(nodes, i)|
    {
      OneMoreMaster(nodes, i);
      OneMoreHealthy(nodes, i);
      if !nodes[i].IsMaster() { continue; }
      total := total + 1;
      if nodes[i].IsHealthy() { healthy := healthy + 1; }
    }
  }

  /** There are primaries, and those that could vote are no majority of them. */
  ghost predicate NoMajority(nodes: seq<Node>) {
    MastersOf(nodes) != {} && |HealthyMasters(nodes)| < |MastersOf(nodes)| / 2 + 1
  }

  // ------------------------------------------------------------- the targets

  /** Replica n of the master with this ID is one of the cluster's own pods. */
  predicate Candidate(n: Node, known: set<string>, masterID: string) {
    !n.IsMaster() && n.masterID != "" && n.podName in known && n.masterID == masterID
  }

  predicate DownPrimary(n: Node, known: set<string>, probe: Probe) {
    && n.IsMaster() && !n.IsHealthy() && n.podName != "" && n.podName in known
    && probe.fence(n.podName) == Fenced && !probe.serving(n.podName)
  }

  /** The candidate answers with an offset the operator will take. */
  predicate Answers(n: Node, probe: Probe) {
    n.podName != "" && probe.offset(n.podName).Some? && probe.offset(n.podName).value > -1
  }

  /** `pod` is a candidate that answers, and none that answers is further ahead. */
  ghost predicate MostAdvanced(replicas: seq<Node>, probe: Probe, pod: string) {
    && (exists n :: n in replicas && n.podName == pod && Answers(n, probe))
    && (forall n :: n in replicas && Answers(n, probe)
          ==> probe.offset(pod).Some? && probe.offset(n.podName).value <= probe.offset(pod).value)
  }

  method PickTakeoverReplica(replicas: seq<Node>, probe: Probe) returns (best: string)
    ensures best == "" <==> forall n :: n in replicas ==> !Answers(n, probe)
    ensures best != "" ==> MostAdvanced(replicas, probe, best)
  {
    best := "";
    var bestOff := -1;
    for i := 0 to |replicas|
      invariant best == "" <==> forall n :: n in replicas[..i] ==> !Answers(n, probe)
      invariant best == "" ==> bestOff == -1
      invariant best != "" ==> MostAdvanced(replicas[..i], probe, best) && bestOff == probe.offset(best).value
    {
      assert replicas[..i + 1] == replicas[..i] + [replicas[i]];
      assert forall n :: n in replicas[..i + 1] <==> n in replicas[..i] || n == replicas[i];
      var pod := replicas[i].podName;
      if pod == "" { continue; }
      var off := probe.offset(pod);
      if off.None? { continue; }
      if off.value > bestOff {
        bestOff := off.value;
        best := pod;
        assert replicas[i] in replicas[..i + 1] && Answers(replicas[i], probe);
      }
    }
    assert replicas[..|replicas|] == replicas;
  }

  /** The candidates of one master, in the view's order. */
  function CandidatesOf(nodes: seq<Node>, known: set<string>, masterID: string): seq<Node> {
    if nodes == [] then []
    else
      var front := CandidatesOf(nodes[..|nodes| - 1], known, masterID);
      var n := nodes[|nodes| - 1];
      if Candidate(n, known, masterID) then front + [n] else front
  }

  lemma {:induction false} CandidatesIff(nodes: seq<Node>, known: set<string>, masterID: string, n: Node)
    ensures n in CandidatesOf(nodes, known, masterID) <==> n in nodes && Candidate(n, known, masterID)
  {
    if nodes != [] {
      CandidatesIff(nodes[..|nodes| - 1], known, masterID, n);
      assert nodes == nodes[..|nodes| - 1] + [nodes[|nodes| - 1]];
    }
  }

  /** Target t recovers down primary n with the most advanced of n's own replicas. */
  ghost predicate Recovers(t: Target, n: Node, nodes: seq<Node>, known: set<string>, probe: Probe) {
    && t.primaryPod == n.podName && t.primaryID == n.id && t.replicaPod != ""
    && DownPrimary(n, known, probe) && MostAdvanced(CandidatesOf(nodes, known, n.id), probe, t.replicaPod)
  }

  /** A down primary with a replica that answers. */
  ghost predicate Recoverable(n: Node, nodes: seq<Node>, known: set<string>, probe: Probe) {
    DownPrimary(n, known, probe) && exists r :: r in CandidatesOf(nodes, known, n.id) && Answers(r, probe)
  }

  /** The targets found among the first n nodes, and where they come from. */
  ghost predicate ChosenBelow(targets: seq<Target>, from: seq<nat>, nodes: seq<Node>, known: set<string>,
                              probe: Probe, n: nat) {
    && |from| == |targets| && n <= |nodes|
    && (forall k, l :: 0 <= k < l < |from| ==> from[k] < from[l])
    && (forall k :: 0 <= k < |from| ==> from[k] < n && Recovers(targets[k], nodes[from[k]], nodes, known, probe))
    && (forall j :: 0 <= j < n && Recoverable(nodes[j], nodes, known, probe) ==> j in from)
  }

  lemma OneMoreTarget(targets: seq<Target>, from: seq<nat>, nodes: seq<Node>, known: set<string>, probe: Probe,
                      i: nat, replica: string)
    requires i < |nodes| && ChosenBelow(targets, from, nodes, known, probe, i)
    requires Recovers(Target(nodes[i].podName, nodes[i].id, replica), nodes[i], nodes, known, probe)
    ensures ChosenBelow(targets + [Target(nodes[i].podName, nodes[i].id, replica)], from + [i], nodes, known, probe,
          i + 1)
  {
    var t := Target(nodes[i].podName, nodes[i].id, replica);
    forall k | 0 <= k <= |from|
      ensures (from + [i])[k] <= i && Recovers((targets + [t])[k], nodes[(from + [i])[k]], nodes, known, probe)
    {
      if k < |from| { assert (targets + [t])[k] == targets[k] && (from + [i])[k] == from[k]; }
    }
  }

  /** The body of the loop over the nodes: the replica to promote for n, or none. */
  method TakeoverFor(n: Node, nodes: seq<Node>, known: set<string>, probe: Probe, byMaster: map<string, seq<Node>>)
    returns (replica: string)
    requires CandidatesOf(nodes, known, n.id) == if n.id in byMaster then byMaster[n.id] else []
    ensures replica != "" ==> Recovers(Target(n.podName, n.id, replica), n, nodes, known, probe)
    ensures replica == "" ==> !Recoverable(n, nodes, known, probe)
  {
    if !n.IsMaster() || n.IsHealthy() { return ""; }
    if n.podName == "" || n.podName !in known { return ""; }
    if probe.fence(n.podName) != Fenced { return ""; }
    if probe.serving(n.podName) { return ""; }
    var replicas := if n.id in byMaster then byMaster[n.id] else [];
    replica := PickTakeoverReplica(replicas, probe);
    assert replicas == CandidatesOf(nodes, known, n.id);
  }

  method GroupCandidates(nodes: seq<Node>, known: set<string>) returns (byMaster: map<string, seq<Node>>)
    ensures forall id :: CandidatesOf(nodes, known, id) == if id in byMaster then byMaster[id] else []
  {
    byMaster := map[];
    for i := 0 to |nodes|
      invariant forall id :: CandidatesOf(nodes[..i], known, id) == if id in byMaster then byMaster[id] else []
    {
      assert nodes[..i + 1][..i] == nodes[..i];
      var n := nodes[i];
      if !n.IsMaster() && n.masterID != "" && n.podName in known {
        var group := if n.masterID in byMaster then byMaster[n.masterID] else [];
        byMaster := byMaster[n.masterID := group + [n]];
      }
    }
    assert nodes[..|nodes|] == nodes;
  }

  /** The targets of a view: one per recoverable primary, in the view's order. */
  ghost predicate Chosen(targets: seq<Target>, from: seq<nat>, nodes: seq<Node>, known: set<string>, probe: Probe) {
    ChosenBelow(targets, from, nodes, known, probe, |nodes|)
  }

  lemma NoTarget(targets: seq<Target>, from: seq<nat>, nodes: seq<Node>, known: set<string>, probe: Probe, i: nat)
    requires i < |nodes| && ChosenBelow(targets, from, nodes, known, probe, i)
    requires !Recoverable(nodes[i], nodes, known, probe)
    ensures ChosenBelow(targets, from, nodes, known, probe, i + 1)
  {
  }

  lemma TargetsListed(targets: seq<Target>, from: seq<nat>, nodes: seq<Node>, known: set<string>, probe: Probe)
    requires Chosen(targets, from, nodes, known, probe)
    ensures forall t :: t in targets ==> exists n :: n in nodes && Recovers(t, n, nodes, known, probe)
  {
    forall t | t in targets ensures exists n :: n in nodes && Recovers(t, n, nodes, known, probe) {
      var k :| 0 <= k < |targets| && targets[k] == t;
      assert nodes[from[k]] in nodes;
    }
  }

  method RecoverableShards(nodes: seq<Node>, known: set<string>, probe: Probe)
    returns (targets: seq<Target>, ghost from: seq<nat>)
    ensures Chosen(targets, from, nodes, known, probe)
    ensures forall t :: t in targets ==> exists n :: n in nodes && Recovers(t, n, nodes, known, probe)
  {
    var byMaster := GroupCandidates(nodes, known);
    targets, from := [], [];
    for i := 0 to |nodes|
      invariant ChosenBelow(targets, from, nodes, known, probe, i)
    {
      var replica := TakeoverFor(nodes[i], nodes, known, probe, byMaster);
      if replica == "" {
        NoTarget(targets, from, nodes, known, probe, i);
        continue;
      }
      OneMoreTarget(targets, from, nodes, known, probe, i, replica);
      targets, from := targets + [Target(nodes[i].podName, nodes[i].id, replica)], from + [i];
    }
    TargetsListed(targets, from, nodes, known, probe);
  }

  // --------------------------------------------------------------- the pass

  /** Whether the commands of this pass work: deleting a pod, and dialing a replica and taking over there. */
  datatype Commands = Commands(deletes: string -> bool, takes: string -> bool)

  datatype Action = DeletePod(pod: string) | TakeOver(pod: string)

  /** The fence and the data path are checked again right before acting. */
  predicate StillDown(t: Target, probe: Probe) {
    probe.fence(t.primaryPod) == Fenced && !probe.serving(t.primaryPod)
  }

  predicate Acted(t: Target, probe: Probe, c: Commands) {
    StillDown(t, probe) && c.deletes(t.primaryPod) && c.takes(t.replicaPod)
  }

  /** TAKEOVER on a replica: it claims every slot of its primary. */
  function Given(owner: map<nat, string>, t: Target): map<nat, string> {
    map k | k in owner :: if owner[k] == t.primaryPod then t.replicaPod else owner[k]
  }

  function AfterTakeovers(owner: map<nat, string>, targets: seq<Target>, probe: Probe, c: Commands): map<nat, string> {
    if targets == [] then owner
    else
      var before := AfterTakeovers(owner, targets[..|targets| - 1], probe, c);
      if Acted(targets[|targets| - 1], probe, c) then Given(before, targets[|targets| - 1]) else before
  }

  /** Each takeover directly follows the deletion of the primary it replaces. */
  ghost predicate FencedFirst(trace: seq<Action>, targets: seq<Target>) {
    forall i :: 0 <= i < |trace| && trace[i].TakeOver? ==>
      && i > 0 && trace[i - 1].DeletePod?
      && exists t :: t in targets && t.replicaPod == trace[i].pod && t.primaryPod == trace[i - 1].pod
  }

  lemma StillFencedFirst(before: seq<Action>, after: seq<Action>, targets: seq<Target>, t: Target)
    requires FencedFirst(before, targets) && t in targets
    requires || after == before + [] || after == before + ([DeletePod(t.primaryPod)] + [])
             || after == before + ([DeletePod(t.primaryPod)] + [TakeOver(t.replicaPod)])
    ensures FencedFirst(after, targets)
  {
    forall i | 0 <= i < |after| && after[i].TakeOver?
      ensures i > 0 && after[i - 1].DeletePod?
      ensures exists u :: u in targets && u.replicaPod == after[i].pod && u.primaryPod == after[i - 1].pod
    {
      if i < |before| { assert before[i] == after[i] && before[i].TakeOver?; }
    }
  }

  datatype Contact = NoPodAnswers | InfoFails | StateOk | NodesFail | View(nodes: seq<Node>)

  /** What one pass finds. */
  datatype Round = Round(now: nat, initialized: bool, enabled: bool, contact: Contact, known: set<string>, probe: Probe)

  /** How a pass bears on the debounce: only cluster_state:ok or recovery being disabled clears the marker. */
  ghost function Seen(r: Round): Debounce.Observation {
    if !r.initialized then Debounce.Blind
    else if !r.enabled || r.contact == StateOk then Debounce.Healthy
    else if r.contact.View? && NoMajority(r.contact.nodes)
            && exists i ::
                  0 <= i < |r.contact.nodes| && Recoverable(r.contact.nodes[i], r.contact.nodes, r.known, r.probe)
    then Debounce.Stuck
    else Debounce.Blind
  }

  lemma StuckIff(r: Round, targets: seq<Target>, from: seq<nat>)
    requires r.initialized && r.enabled && r.contact.View? && NoMajority(r.contact.nodes)
    requires Chosen(targets, from, r.contact.nodes, r.known, r.probe)
    ensures Seen(r) == if targets == [] then Debounce.Blind else Debounce.Stuck
  {
    var nodes := r.contact.nodes;
    if targets != [] {
      var n := nodes[from[0]];
      assert MostAdvanced(CandidatesOf(nodes, r.known, n.id), r.probe, targets[0].replicaPod);
      assert Recoverable(n, nodes, r.known, r.probe);
    }
  }

  /** The guards of a pass, up to the debounce. */
  method Look(r: Round) returns (cleared: bool, targets: seq<Target>, ghost from: seq<nat>)
    ensures cleared <==> Seen(r) == Debounce.Healthy
    ensures targets != [] <==> Seen(r) == Debounce.Stuck
    ensures targets != [] ==> r.contact.View? && Chosen(targets, from, r.contact.nodes, r.known, r.probe)
  {
    if !r.initialized { return false, [], []; }
    if !r.enabled { return true, [], []; }
    if !r.contact.View? { return r.contact == StateOk, [], []; }
    var healthy, total := CountMasters(r.contact.nodes);
    if total == 0 || healthy * 2 > total { return false, [], []; }
    targets, from := RecoverableShards(r.contact.nodes, r.known, r.probe);
    StuckIff(r, targets, from);
    cleared := false;
  }

  /** The slot table and status as the operator changes them, and what it did. */
  class Recovery {
    var owner: map<nat, string>
    var since: Option<nat>
    var trace: seq<Action>

    constructor (owner: map<nat, string>)
      ensures this.owner == owner && since == None && trace == []
    {
      this.owner, since, trace := owner, None, [];
    }

    method RecoverShard(t: Target, probe: Probe, c: Commands)
      modifies this`owner, this`trace
      ensures owner == if Acted(t, probe, c) then Given(old(owner), t) else old(owner)
      ensures trace == old(trace) + (if !StillDown(t, probe) || !c.deletes(t.primaryPod) then []
                                     else [DeletePod(t.primaryPod)] + if c.takes(t.replicaPod)
                                           then [TakeOver(t.replicaPod)] else [])
    {
      if probe.fence(t.primaryPod) != Fenced { return; }
      if probe.serving(t.primaryPod) { return; }
      if !c.deletes(t.primaryPod) { return; }
      trace := trace + [DeletePod(t.primaryPod)];
      if !c.takes(t.replicaPod) { return; }
      trace := trace + [TakeOver(t.replicaPod)];
      owner := Given(owner, t);
    }

    /** maybeRecoverClusterQuorum; `later` is what the re-checks right before each takeover find. */
    method MaybeRecoverClusterQuorum(r: Round, later: Probe, c: Commands)
      returns (handled: bool, ghost targets: seq<Target>, ghost from: seq<nat>)
      requires trace == []
      modifies this
      ensures since == Debounce.After(old(since), Debounce.Pass(r.now, Seen(r)), DOWN_AFTER, false)
      ensures handled <==> Seen(r) == Debounce.Stuck
      ensures FencedFirst(trace, targets)
      ensures owner == AfterTakeovers(old(owner), targets, later, c)
      ensures targets != [] ==> Debounce.Acts(old(since), Debounce.Pass(r.now, Seen(r)), DOWN_AFTER)
                                && r.contact.View? && Chosen(targets, from, r.contact.nodes, r.known, r.probe)
    {
      var cleared, found, origin := Look(r);
      targets, from := [], [];
      handled := |found| > 0;
      if cleared { since := None; }
      if !handled { return; }
      if since.None? {
        since := Some(r.now);
        return;
      }
      if r.now < since.value + DOWN_AFTER { return; }
      targets, from := found, origin;
      TakeOverAll(found, later, c);
    }

    method TakeOverAll(targets: seq<Target>, probe: Probe, c: Commands)
      requires trace == []
      modifies this`owner, this`trace
      ensures FencedFirst(trace, targets)
      ensures owner == AfterTakeovers(old(owner), targets, probe, c)
    {
      for k := 0 to |targets|
        invariant owner == AfterTakeovers(old(owner), targets[..k], probe, c)
        invariant FencedFirst(trace, targets)
      {
        assert targets[..k + 1][..k] == targets[..k];
        ghost var before := trace;
        RecoverShard(targets[k], probe, c);
        StillFencedFirst(before, trace, targets, targets[k]);
      }
      assert targets[..|targets|] == targets;
    }
  }

  // ----------------------------------------------------------------- theorems

  /** IDs identify the nodes of a view, and no two nodes claim the same data pod of the cluster. */
  ghost predicate DistinctNodes(nodes: seq<Node>, known: set<string>) {
    && (forall i, j :: 0 <= i < j < |nodes| ==> nodes[i].id != nodes[j].id)
    && (forall i, j :: 0 <= i < j < |nodes| && nodes[i].podName in known ==> nodes[i].podName != nodes[j].podName)
  }

  /** The replica of a target is a node of the view, a replica of the target's primary. */
  lemma TargetReplica(t: Target, n: Node, nodes: seq<Node>, known: set<string>, probe: Probe) returns (j: int)
    requires Recovers(t, n, nodes, known, probe)
    ensures 0 <= j < |nodes| && nodes[j].podName == t.replicaPod && Candidate(nodes[j], known, n.id)
    ensures probe.offset(t.replicaPod).Some?
  {
    var r :| r in CandidatesOf(nodes, known, n.id) && r.podName == t.replicaPod && Answers(r, probe);
    CandidatesIff(nodes, known, n.id, r);
    j :| 0 <= j < |nodes| && nodes[j] == r;
  }

  /** No pod appears in two targets, nor on both sides of one. */
  lemma TargetsDisjoint(targets: seq<Target>, from: seq<nat>, nodes: seq<Node>, known: set<string>, probe: Probe,
                        k: nat, l: nat)
    requires DistinctNodes(nodes, known) && Chosen(targets, from, nodes, known, probe) && k < |targets| && l < |targets|
    ensures targets[k].primaryPod != targets[l].replicaPod
    ensures k != l ==> targets[k].primaryPod != targets[l].primaryPod && targets[k].replicaPod != targets[l].replicaPod
  {
    var p, q := nodes[from[k]], nodes[from[l]];
    var i := TargetReplica(targets[k], p, nodes, known, probe);
    var j := TargetReplica(targets[l], q, nodes, known, probe);
    assert k != l ==> from[k] != from[l];
    assert from[k] != j;
  }

  ghost predicate Disjoint(targets: seq<Target>) {
    && (forall k, l :: 0 <= k < |targets| && 0 <= l < |targets| ==> targets[k].primaryPod != targets[l].replicaPod)
    && (forall k, l :: 0 <= k < l < |targets| ==> targets[k].primaryPod != targets[l].primaryPod)
  }

  /** Where the takeovers leave a slot of this pod. */
  function PodAfter(pod: string, targets: seq<Target>, probe: Probe, c: Commands): string {
    if targets == [] then pod
    else
      var last := targets[|targets| - 1];
      var before := PodAfter(pod, targets[..|targets| - 1], probe, c);
      if before == last.primaryPod && Acted(last, probe, c) then last.replicaPod else before
  }

  lemma {:induction false} SlotAfter(owner: map<nat, string>, targets: seq<Target>, probe: Probe, c: Commands,
                                     slot: nat)
    requires slot in owner
    ensures AfterTakeovers(owner, targets, probe, c).Keys == owner.Keys
    ensures AfterTakeovers(owner, targets, probe, c)[slot] == PodAfter(owner[slot], targets, probe, c)
  {
    if targets != [] { SlotAfter(owner, targets[..|targets| - 1], probe, c, slot); }
  }

  lemma {:induction false} PodStays(pod: string, targets: seq<Target>, probe: Probe, c: Commands)
    requires forall t :: t in targets && t.primaryPod == pod ==> !Acted(t, probe, c)
    ensures PodAfter(pod, targets, probe, c) == pod
  {
    if targets != [] {
      assert targets[|targets| - 1] in targets;
      PodStays(pod, targets[..|targets| - 1], probe, c);
    }
  }

  lemma {:induction false} PodMoves(targets: seq<Target>, probe: Probe, c: Commands, k: nat)
    requires Disjoint(targets) && k < |targets| && Acted(targets[k], probe, c)
    ensures PodAfter(targets[k].primaryPod, targets, probe, c) == targets[k].replicaPod
  {
    var n := |targets| - 1;
    var front := targets[..n];
    if k < n {
      PodMoves(front, probe, c, k);
    } else {
      forall t | t in front ensures t.primaryPod != targets[n].primaryPod {
        var j :| 0 <= j < n && targets[j] == t;
      }
      PodStays(targets[n].primaryPod, front, probe, c);
    }
  }

  lemma AllDisjoint(targets: seq<Target>, from: seq<nat>, nodes: seq<Node>, known: set<string>, probe: Probe)
    requires DistinctNodes(nodes, known) && Chosen(targets, from, nodes, known, probe)
    ensures Disjoint(targets)
  {
    forall k, l | 0 <= k < |targets| && 0 <= l < |targets|
      ensures targets[k].primaryPod != targets[l].replicaPod
      ensures k != l ==> targets[k].primaryPod != targets[l].primaryPod
    {
      TargetsDisjoint(targets, from, nodes, known, probe, k, l);
    }
  }

  /** No healthy primary is the primary of a target. */
  lemma HealthyIsNoTarget(targets: seq<Target>, from: seq<nat>, nodes: seq<Node>, known: set<string>, probe: Probe,
                          i: nat, k: nat)
    requires DistinctNodes(nodes, known) && Chosen(targets, from, nodes, known, probe)
    requires i < |nodes| && nodes[i].IsMaster() && nodes[i].IsHealthy() && k < |targets|
    ensures nodes[i].podName != targets[k].primaryPod
  {
    assert Recovers(targets[k], nodes[from[k]], nodes, known, probe);
    assert nodes[from[k]].podName == targets[k].primaryPod && from[k] != i;
  }

  /** Node i of the view is a healthy primary on this pod. */
  ghost predicate OnHealthy(nodes: seq<Node>, i: nat, pod: string) {
    i < |nodes| && nodes[i].IsMaster() && nodes[i].IsHealthy() && nodes[i].podName == pod
  }

  /** A slot that moved was taken over from its own down primary. */
  ghost predicate TakenOver(targets: seq<Target>, from: seq<nat>, nodes: seq<Node>, known: set<string>, probe: Probe,
                            later: Probe, c: Commands, was: string, now: string) {
    exists k :: 0 <= k < |targets| && k < |from| && targets[k].primaryPod == was && targets[k].replicaPod == now
      && Acted(targets[k], later, c) && from[k] < |nodes| && Recovers(targets[k], nodes[from[k]], nodes, known, probe)
  }

  /**
   A recovery pass conserves slots: no slot disappears, slots of pods that are no down
   primary stay, and a slot moves only from a down primary to the most advanced
   reachable replica of that same primary.
   */
  lemma SlotsConserved(owner: map<nat, string>, targets: seq<Target>, from: seq<nat>, nodes: seq<Node>,
                       known: set<string>, probe: Probe, later: Probe, c: Commands, slot: nat)
    requires DistinctNodes(nodes, known) && Chosen(targets, from, nodes, known, probe) && slot in owner
    ensures var after := AfterTakeovers(owner, targets, later, c);
            && after.Keys == owner.Keys
            && (after[slot] != owner[slot] ==>
                  TakenOver(targets, from, nodes, known, probe, later, c, owner[slot], after[slot]))
            && (forall i: nat :: OnHealthy(nodes, i, owner[slot]) ==> after[slot] == owner[slot])
  {
    AllDisjoint(targets, from, nodes, known, probe);
    SlotAfter(owner, targets, later, c, slot);
    if k :| 0 <= k < |targets| && targets[k].primaryPod == owner[slot] && Acted(targets[k], later, c) {
      PodMoves(targets, later, c, k);
      assert Recovers(targets[k], nodes[from[k]], nodes, known, probe);
      forall i: nat ensures !OnHealthy(nodes, i, owner[slot]) {
        if OnHealthy(nodes, i, owner[slot]) { HealthyIsNoTarget(targets, from, nodes, known, probe, i, k); }
      }
    } else {
      PodStays(owner[slot], targets, later, c);
    }
  }

  /** A pod that can serve: a healthy primary of the view, or a replica the operator reached. */
  ghost predicate Serves(pod: string, nodes: seq<Node>, probe: Probe) {
    || (exists i :: 0 <= i < |nodes| && nodes[i].IsMaster() && nodes[i].IsHealthy() && nodes[i].podName == pod)
    || probe.offset(pod).Some?
  }

  /**
   Full recovery: if every down primary is recoverable, still down at the re-check, and
   the commands work, every slot owned by a primary of the view ends on a pod that serves.
   */
  lemma EverySlotServed(owner: map<nat, string>, targets: seq<Target>, from: seq<nat>, nodes: seq<Node>,
                        known: set<string>, probe: Probe, later: Probe, c: Commands, slot: nat, i: nat)
    requires DistinctNodes(nodes, known) && Chosen(targets, from, nodes, known, probe)
    requires slot in owner && i < |nodes| && nodes[i].IsMaster() && owner[slot] == nodes[i].podName
    requires nodes[i].IsHealthy() || Recoverable(nodes[i], nodes, known, probe)
    requires forall t :: t in targets ==> Acted(t, later, c)
    ensures slot in AfterTakeovers(owner, targets, later, c)
    ensures Serves(AfterTakeovers(owner, targets, later, c)[slot], nodes, probe)
  {
    if nodes[i].IsHealthy() {
      assert OnHealthy(nodes, i, owner[slot]);
      SlotsConserved(owner, targets, from, nodes, known, probe, later, c, slot);
    } else {
      var k :| 0 <= k < |from| && from[k] == i;
      assert targets[k] in targets && Recovers(targets[k], nodes[i], nodes, known, probe);
      AllDisjoint(targets, from, nodes, known, probe);
      SlotAfter(owner, targets, later, c, slot);
      PodMoves(targets, later, c, k);
      var j := TargetReplica(targets[k], nodes[i], nodes, known, probe);
    }
  }

  ghost function Passes(history: seq<Round>): seq<Debounce.Pass> {
    seq(|history|, i requires 0 <= i < |history| => Debounce.Pass(history[i].now, Seen(history[i])))
  }

  /**
   In every sequence of passes a takeover is attempted only when the view has no voting
   majority, some pass at least 45 seconds earlier was already stuck, and no pass since
   saw cluster_state:ok or found recovery disabled.
   */
  lemma TakeoverWaits(history: seq<Round>, i: nat) returns (j: int)
    requires i < |history|
    requires Debounce.Acts(Debounce.Marker(Passes(history)[..i], DOWN_AFTER, false), Passes(history)[i], DOWN_AFTER)
    ensures history[i].contact.View? && NoMajority(history[i].contact.nodes)
    ensures |HealthyMasters(history[i].contact.nodes)| * 2 <= |MastersOf(history[i].contact.nodes)|
    ensures 0 <= j < i && history[i].now >= history[j].now + DOWN_AFTER && Seen(history[j]) == Debounce.Stuck
    ensures forall k :: j <= k <= i ==> !history[k].initialized || (history[k].enabled && history[k].contact != StateOk)
  {
    var passes := Passes(history);
    j := Debounce.ActsOnlyAfterWait(passes, i, DOWN_AFTER, false);
    assert passes[j].seen == Seen(history[j]) && passes[i].seen == Seen(history[i]);
    forall k | j <= k <= i ensures !history[k].initialized || (history[k].enabled && history[k].contact != StateOk) {
      assert passes[k].seen == Seen(history[k]);
    }
  }
}
