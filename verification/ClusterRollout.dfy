/**
 Proactive rolling restart of a Cluster: the decision taken on every reconcile
 from the live pods and shards, and the protocol it drives while pods are
 recreated and CLUSTER FAILOVERs complete on their own.
 */
module ClusterRollout {
  import opened Common

  datatype Pod = Pod(name: string, revision: string, ready: bool)

  datatype Shard = Shard(primary: string, replicas: seq<string>)

  datatype Action =
    | Done
    | Wait
    | RollReplica(pod: string)
    | FailOver(pod: string)
    | RollMaster(pod: string)

  // ---------------------------------------------------------------- decision

  /** The revision each pod name carries; a name listed twice keeps the last one. */
  function Revisions(pods: seq<Pod>): map<string, string> {
    if pods == [] then map[]
    else
      var last := pods[|pods| - 1];
      Revisions(pods[..|pods| - 1])[last.name := last.revision]
  }

  function Readiness(pods: seq<Pod>): map<string, bool> {
    if pods == [] then map[]
    else
      var last := pods[|pods| - 1];
      Readiness(pods[..|pods| - 1])[last.name := last.ready]
  }

  /** A name is fresh when a listed pod carries it at the desired revision. */
  predicate Fresh(pods: seq<Pod>, desired: string, name: string) {
    var revision := Revisions(pods);
    name in revision && revision[name] == desired
  }

  ghost predicate AnyStale(pods: seq<Pod>, desired: string) {
    exists i :: 0 <= i < |pods| && pods[i].revision != desired
  }

  ghost predicate AllReady(pods: seq<Pod>) {
    forall i :: 0 <= i < |pods| ==> pods[i].ready
  }

  ghost predicate StaleReplica(pods: seq<Pod>, shards: seq<Shard>, desired: string, name: string) {
    !Fresh(pods, desired, name) && exists i :: 0 <= i < |shards| && name in shards[i].replicas
  }

  /** Shard i has a stale primary and no stale primary has a smaller name. */
  ghost predicate FirstStaleShard(pods: seq<Pod>, shards: seq<Shard>, desired: string, i: int) {
    && 0 <= i < |shards|
    && !Fresh(pods, desired, shards[i].primary)
    && forall j :: 0 <= j < |shards| && !Fresh(pods, desired, shards[j].primary)
         ==> !Below(shards[j].primary, shards[i].primary)
  }

  /** A stale primary is failed over to its first replica, or restarted when it has none. */
  function HandOver(shard: Shard): Action {
    if shard.replicas == [] then RollMaster(shard.primary) else FailOver(shard.replicas[0])
  }

  /** What the operator may do next, stated without reference to how it searches. */
  ghost predicate Decides(pods: seq<Pod>, shards: seq<Shard>, desired: string, action: Action) {
    if pods == [] || desired == "" || shards == [] || !AnyStale(pods, desired) then action == Done
    else if !AllReady(pods) then action == Wait
    else if exists name :: StaleReplica(pods, shards, desired, name) then
      && action.RollReplica?
      && StaleReplica(pods, shards, desired, action.pod)
      && forall name :: StaleReplica(pods, shards, desired, name) ==> !Below(name, action.pod)
    else if exists i :: FirstStaleShard(pods, shards, desired, i) then
      exists i :: FirstStaleShard(pods, shards, desired, i)
        && action == HandOver(shards[i])
    else action == Done
  }

  /** When every listed pod is ready, a fresh name is a ready pod. */
  lemma {:induction false} FreshIsReady(pods: seq<Pod>, name: string)
    requires AllReady(pods)
    ensures Revisions(pods).Keys == Readiness(pods).Keys
    ensures name in Readiness(pods) ==> Readiness(pods)[name]
  {
    if pods != [] { FreshIsReady(pods[..|pods| - 1], name); }
  }

  /** The loop over the pods. */
  method Tally(pods: seq<Pod>, desired: string)
    returns (revision: map<string, string>, ready: map<string, bool>, anyStale: bool, allReady: bool)
    ensures revision == Revisions(pods) && ready == Readiness(pods)
    ensures anyStale == AnyStale(pods, desired) && allReady == AllReady(pods)
  {
    revision, ready, anyStale, allReady := map[], map[], false, true;
    for i := 0 to |pods|
      invariant revision == Revisions(pods[..i]) && ready == Readiness(pods[..i])
      invariant anyStale <==> AnyStale(pods[..i], desired)
      invariant allReady <==> AllReady(pods[..i])
    {
      assert pods[..i + 1][..i] == pods[..i];
      if pods[i].revision != desired {
        assert pods[..i + 1][i].revision != desired;
        anyStale := true;
      } else if AnyStale(pods[..i], desired) {
        var k :| 0 <= k < i && pods[..i][k].revision != desired;
        assert pods[..i + 1][k].revision != desired;
      }
      revision := revision[pods[i].name := pods[i].revision];
      ready := ready[pods[i].name := pods[i].ready];
      allReady := allReady && pods[i].ready;
    }
    assert pods[..|pods|] == pods;
  }

  /** The stale replicas of the first i shards and of the first k replicas of shard i. */
  ghost predicate StaleBefore(pods: seq<Pod>, shards: seq<Shard>, desired: string, i: nat, k: nat, name: string)
    requires i <= |shards| && (k > 0 ==> i < |shards| && k <= |shards[i].replicas|)
  {
    && !Fresh(pods, desired, name)
    && (|| (exists j :: 0 <= j < i && name in shards[j].replicas)
        || (k > 0 && name in shards[i].replicas[..k]))
  }

  /** The replicas of all shards that are stale. */
  method StaleReplicas(pods: seq<Pod>, shards: seq<Shard>, desired: string, revision: map<string, string>)
    returns (stale: seq<string>)
    requires revision == Revisions(pods)
    ensures forall name :: name in stale <==> StaleReplica(pods, shards, desired, name)
  {
    stale := [];
    for i := 0 to |shards|
      invariant forall name :: name in stale <==> StaleBefore(pods, shards, desired, i, 0, name)
    {
      var replicas := shards[i].replicas;
      for k := 0 to |replicas|
        invariant forall name :: name in stale <==> StaleBefore(pods, shards, desired, i, k, name)
      {
        if !(replicas[k] in revision && revision[replicas[k]] == desired) {
          stale := stale + [replicas[k]];
        }
      }
    }
  }

  lemma LeastSoFar(pods: seq<Pod>, shards: seq<Shard>, desired: string, i: int, candidate: int)
    requires 0 <= i < |shards| && !Fresh(pods, desired, shards[i].primary)
    requires candidate == -1 ==> forall j :: 0 <= j < i ==> Fresh(pods, desired, shards[j].primary)
    requires candidate != -1 ==> FirstStaleShard(pods, shards[..i], desired, candidate)
                                 && Below(shards[i].primary, shards[candidate].primary)
    ensures FirstStaleShard(pods, shards[..i + 1], desired, i)
  {
    assert shards[..i + 1][i] == shards[i];
    forall j | 0 <= j <= i && !Fresh(pods, desired, shards[j].primary)
      ensures !Below(shards[j].primary, shards[i].primary)
    {
      if j == i {
        BelowIrreflexive(shards[i].primary);
      } else if Below(shards[j].primary, shards[i].primary) {
        assert shards[..i][j] == shards[j];
        BelowTransitive(shards[j].primary, shards[i].primary, shards[candidate].primary);
        assert false;
      }
    }
  }

  /** The shard whose stale primary has the smallest name. */
  method FirstStale(pods: seq<Pod>, shards: seq<Shard>, desired: string, revision: map<string, string>)
    returns (candidate: int)
    requires revision == Revisions(pods)
    ensures candidate == -1 || FirstStaleShard(pods, shards, desired, candidate)
    ensures candidate == -1 ==> forall j :: 0 <= j < |shards| ==> Fresh(pods, desired, shards[j].primary)
  {
    candidate := -1;
    for i := 0 to |shards|
      invariant candidate == -1 || FirstStaleShard(pods, shards[..i], desired, candidate)
      invariant candidate == -1 ==> forall j :: 0 <= j < i ==> Fresh(pods, desired, shards[j].primary)
    {
      if !(shards[i].primary in revision && revision[shards[i].primary] == desired) {
        if candidate == -1 || Below(shards[i].primary, shards[candidate].primary) {
          LeastSoFar(pods, shards, desired, i, candidate);
          candidate := i;
        }
      }
    }
    assert shards[..|shards|] == shards;
  }

  /** The smallest name of a list: sort.Strings followed by taking the first element. */
  method Least(names: seq<string>) returns (least: string)
    requires names != []
    ensures least in names
    ensures forall name :: name in names ==> !Below(name, least)
  {
    least := names[0];
    BelowIrreflexive(least);
    for i := 1 to |names|
      invariant least in names
      invariant forall j :: 0 <= j < i ==> !Below(names[j], least)
    {
      if Below(names[i], least) {
        forall j | 0 <= j <= i ensures !Below(names[j], names[i]) {
          BelowIrreflexive(names[i]);
          if j < i && Below(names[j], names[i]) { BelowTransitive(names[j], names[i], least); }
        }
        least := names[i];
      }
    }
  }

  /** nextClusterRolloutStep; sorting and taking the first element is a minimum scan. */
  method NextClusterRolloutStep(pods: seq<Pod>, shards: seq<Shard>, desired: string)
    returns (action: Action)
    ensures Decides(pods, shards, desired, action)
  {
    if |pods| == 0 || desired == "" || |shards| == 0 { return Done; }
    var revision, ready, anyStale, allReady := Tally(pods, desired);
    if !anyStale { return Done; }
    if !allReady { return Wait; }
    var stale := StaleReplicas(pods, shards, desired, revision);
    if |stale| > 0 {
      var least := Least(stale);
      assert StaleReplica(pods, shards, desired, least);
      return RollReplica(least);
    }
    var candidate := FirstStale(pods, shards, desired, revision);
    if candidate == -1 { return Done; }
    var s := shards[candidate];
    for k := 0 to |s.replicas|
      invariant k == 0
    {
      FreshIsReady(pods, s.replicas[k]);
      assert !StaleReplica(pods, shards, desired, s.replicas[k]);
      if s.replicas[k] in revision && revision[s.replicas[k]] == desired && ready[s.replicas[k]] {
        return FailOver(s.replicas[k]);
      }
    }
    return RollMaster(s.primary);
  }

  // ---------------------------------------------------------------- protocol

  /**
   The live set during a rollout to one revision. `absent` holds deleted pods not
   yet recreated, `pending` a replica whose CLUSTER FAILOVER has been accepted and
   not completed. `deletes` and `failovers` count what has happened so far.
   */
  datatype State = State(pods: seq<Pod>, absent: set<string>, shards: seq<Shard>,
                         pending: Option<string>, deletes: nat, failovers: nat)

  datatype Event =
    | Reconcile(action: Action, delivered: bool)  // one operator pass; its command may fail
    | Recreated(pod: string)                      // the StatefulSet recreates a deleted pod
    | BecameReady(pod: string)
    | FailoverDone(order: seq<string>)            // the pending failover completes; new listing order
    | FailoverLost                                // the pending failover times out

  function WithPod(pods: seq<Pod>, name: string, revision: string, ready: bool): seq<Pod> {
    seq(|pods|, i requires 0 <= i < |pods| =>
      if pods[i].name == name then Pod(name, revision, ready) else pods[i])
  }

  function Members(shard: Shard): set<string> {
    {shard.primary} + set r | r in shard.replicas
  }

  /** Replica p of shard i swaps roles with the shard's primary. */
  ghost predicate Swaps(shard: Shard, p: string, order: seq<string>) {
    && p in shard.replicas
    && (set r | r in order) == Members(shard) - {p}
  }

  ghost function Step(s: State, desired: string, e: Event): State {
    match e
    case Reconcile(action, delivered) =>
      // A missing pod makes the listing shorter than the spec asks for: the driver waits.
      if s.absent != {} || !delivered || !Decides(s.pods, s.shards, desired, action) then s
      else (match action
            case RollReplica(p) => s.(absent := {p}, deletes := s.deletes + 1)
            case RollMaster(p) => s.(absent := {p}, deletes := s.deletes + 1)
            case FailOver(p) => s.(pending := Some(p))
            case _ => s)
    case Recreated(p) =>
      if p !in s.absent then s
      else s.(absent := s.absent - {p}, pods := WithPod(s.pods, p, desired, false))
    case BecameReady(p) =>
      if p in s.absent || !exists i :: 0 <= i < |s.pods| && s.pods[i].name == p then s
      else
        var i :| 0 <= i < |s.pods| && s.pods[i].name == p;
        s.(pods := WithPod(s.pods, p, s.pods[i].revision, true))
    case FailoverDone(order) =>
      if s.pending.None? || !exists i :: 0 <= i < |s.shards| && Swaps(s.shards[i], s.pending.value, order) then s
      else
        var p := s.pending.value;
        var i :| 0 <= i < |s.shards| && Swaps(s.shards[i], p, order);
        s.(pending := None, failovers := s.failovers + 1, shards := s.shards[i := Shard(p, order)])
    case FailoverLost => s.(pending := None)
  }

  ghost function Exec(s: State, desired: string, events: seq<Event>): State {
    if events == [] then s
    else Step(Exec(s, desired, events[..|events| - 1]), desired, events[|events| - 1])
  }

  ghost function Unready(pods: seq<Pod>): set<string> {
    set i | 0 <= i < |pods| && !pods[i].ready :: pods[i].name
  }

  /** Pods that are not serving: deleted, or present and not Ready. */
  ghost function Disrupted(s: State): set<string> {
    s.absent + Unready(s.pods)
  }

  ghost function Names(pods: seq<Pod>): set<string> {
    set i | 0 <= i < |pods| :: pods[i].name
  }

  /** Pods still to be replaced. */
  ghost function StalePods(s: State, desired: string): set<string> {
    (set i | 0 <= i < |s.pods| && s.pods[i].revision != desired :: s.pods[i].name) - s.absent
  }

  /** Primaries still to be handed over: stale, with a replica to take the slots. */
  ghost function StalePrimaries(s: State, desired: string): set<string> {
    set i | 0 <= i < |s.shards| && s.shards[i].replicas != [] && !Fresh(s.pods, desired, s.shards[i].primary)
      :: s.shards[i].primary
  }

  ghost function Covered(shards: seq<Shard>): set<string> {
    if shards == [] then {} else Covered(shards[1..]) + Members(shards[0])
  }

  ghost predicate Distinct(pods: seq<Pod>) {
    forall i, j :: 0 <= i < j < |pods| ==> pods[i].name != pods[j].name
  }

  /** The shards' members are pairwise disjoint and together are exactly `names`. */
  ghost predicate Partition(shards: seq<Shard>, names: set<string>) {
    && (forall i :: 0 <= i < |shards| ==> shards[i].primary !in shards[i].replicas)
    && (forall i, j :: 0 <= i < j < |shards| ==> Members(shards[i]) !! Members(shards[j]))
    && Covered(shards) == names
  }

  /** Pod names are distinct and the shards of the survey partition them. */
  ghost predicate Accurate(s: State) {
    Distinct(s.pods) && Partition(s.shards, Names(s.pods))
  }

  /** A rollout starts with every pod present and Ready. */
  ghost predicate Init(s: State, desired: string) {
    && desired != "" && Accurate(s)
    && AllReady(s.pods) && s.absent == {} && s.pending == None
    && s.deletes == 0 && s.failovers == 0
  }

  ghost predicate Inv(s: State, desired: string) {
    && desired != "" && Accurate(s)
    && s.absent <= Names(s.pods)
    && |Disrupted(s)| <= 1
    && (forall i :: 0 <= i < |s.shards| && s.shards[i].replicas != [] ==> s.shards[i].primary !in Disrupted(s))
    && (s.pending.Some? ==> Disrupted(s) == {} && Decides(s.pods, s.shards, desired, FailOver(s.pending.value)))
  }

  // ------------------------------------------------------------------ proofs

  lemma {:induction false} CoveredIff(shards: seq<Shard>, name: string)
    ensures name in Covered(shards) <==> exists i :: 0 <= i < |shards| && name in Members(shards[i])
  {
    if shards == [] {
    } else {
      CoveredIff(shards[1..], name);
      if name in Covered(shards[1..]) {
        var i :| 0 <= i < |shards[1..]| && name in Members(shards[1..][i]);
        assert shards[i + 1] == shards[1..][i];
      }
      if i :| 0 <= i < |shards| && name in Members(shards[i]) && i > 0 {
        assert shards[1..][i - 1] == shards[i];
      }
    }
  }

  lemma {:induction false} RevisionAt(pods: seq<Pod>, i: int)
    requires Distinct(pods) && 0 <= i < |pods|
    ensures pods[i].name in Revisions(pods) && Revisions(pods)[pods[i].name] == pods[i].revision
  {
    if i < |pods| - 1 {
      RevisionAt(pods[..|pods| - 1], i);
      assert pods[..|pods| - 1][i] == pods[i];
    }
  }

  lemma {:induction false} RevisionKeys(pods: seq<Pod>)
    ensures Revisions(pods).Keys == Names(pods)
  {
    if pods == [] {
    } else {
      var front := pods[..|pods| - 1];
      RevisionKeys(front);
      forall name ensures name in Names(pods) <==> name in Names(front) || name == pods[|pods| - 1].name {
        if name in Names(front) {
          var i :| 0 <= i < |front| && front[i].name == name;
          assert pods[i].name == name;
        }
      }
    }
  }

  /** With distinct names, being fresh is a property of the one pod of that name. */
  lemma FreshAt(pods: seq<Pod>, desired: string, name: string)
    requires Distinct(pods)
    ensures Fresh(pods, desired, name)
        <==> exists i :: 0 <= i < |pods| && pods[i].name == name && pods[i].revision == desired
  {
    RevisionKeys(pods);
    if name in Revisions(pods) {
      var i :| 0 <= i < |pods| && pods[i].name == name;
      RevisionAt(pods, i);
    }
  }

  lemma FirstStaleShardUnique(s: State, desired: string, i: int, j: int)
    requires Accurate(s)
    requires FirstStaleShard(s.pods, s.shards, desired, i) && FirstStaleShard(s.pods, s.shards, desired, j)
    ensures i == j
  {
    NotBelowEitherWay(s.shards[i].primary, s.shards[j].primary);
    assert s.shards[i].primary in Members(s.shards[i]) && s.shards[i].primary in Members(s.shards[j]);
  }

  /** The decision is unique on an accurate survey. */
  lemma DecisionUnique(s: State, desired: string, a: Action, b: Action)
    requires Accurate(s)
    requires Decides(s.pods, s.shards, desired, a) && Decides(s.pods, s.shards, desired, b)
    ensures a == b
  {
    if a.RollReplica? && b.RollReplica? {
      NotBelowEitherWay(a.pod, b.pod);
    } else if (a.FailOver? || a.RollMaster?) && (b.FailOver? || b.RollMaster?) {
      var i :| FirstStaleShard(s.pods, s.shards, desired, i) && a == HandOver(s.shards[i]);
      var j :| FirstStaleShard(s.pods, s.shards, desired, j) && b == HandOver(s.shards[j]);
      FirstStaleShardUnique(s, desired, i, j);
    }
  }

  /** Work done and work left stay balanced across one step. */
  ghost predicate Balanced(s: State, t: State, desired: string) {
    && t.deletes + |StalePods(t, desired)| == s.deletes + |StalePods(s, desired)|
    && t.failovers + |StalePrimaries(t, desired)| == s.failovers + |StalePrimaries(s, desired)|
  }

  /** Deleting one stale pod that is not a primary with replicas. */
  lemma DeleteKeeps(s: State, t: State, desired: string, p: string)
    requires Inv(s, desired) && AllReady(s.pods) && s.absent == {} && s.pending == None
    requires p in Names(s.pods) && !Fresh(s.pods, desired, p)
    requires forall i :: 0 <= i < |s.shards| && s.shards[i].replicas != [] ==> s.shards[i].primary != p
    requires t == s.(absent := {p}, deletes := s.deletes + 1)
    ensures Inv(t, desired) && Balanced(s, t, desired)
  {
    FreshAt(s.pods, desired, p);
    assert StalePods(t, desired) == StalePods(s, desired) - {p};
    assert p in StalePods(s, desired);
    assert StalePrimaries(t, desired) == StalePrimaries(s, desired);
    assert Disrupted(t) == {p};
  }

  /** A stale replica is a listed pod and no shard with replicas has it as primary. */
  lemma ReplicaIsNoPrimary(s: State, desired: string, p: string)
    requires Accurate(s) && StaleReplica(s.pods, s.shards, desired, p)
    ensures p in Names(s.pods)
    ensures forall i :: 0 <= i < |s.shards| ==> s.shards[i].primary != p
  {
    var j :| 0 <= j < |s.shards| && p in s.shards[j].replicas;
    assert p in Members(s.shards[j]);
    CoveredIff(s.shards, p);
    forall i | 0 <= i < |s.shards| ensures s.shards[i].primary != p {
      if i != j { assert s.shards[i].primary in Members(s.shards[i]); }
    }
  }

  /** A primary belongs to one shard. */
  lemma OnePrimary(shards: seq<Shard>, names: set<string>, i: int, k: int)
    requires Partition(shards, names) && 0 <= i < |shards| && 0 <= k < |shards|
          && shards[i].primary == shards[k].primary
    ensures i == k && shards[i].primary in names
  {
    assert shards[i].primary in Members(shards[i]) && shards[k].primary in Members(shards[k]);
    CoveredIff(shards, shards[i].primary);
  }

  /** A master restarted directly is a listed pod whose shard has no replica. */
  lemma MasterHasNoReplica(s: State, desired: string, p: string)
    requires Accurate(s) && Decides(s.pods, s.shards, desired, RollMaster(p))
    ensures p in Names(s.pods) && !Fresh(s.pods, desired, p)
    ensures forall i :: 0 <= i < |s.shards| && s.shards[i].replicas != [] ==> s.shards[i].primary != p
  {
    var i :| FirstStaleShard(s.pods, s.shards, desired, i) && RollMaster(p) == HandOver(s.shards[i]);
    OnePrimary(s.shards, Names(s.pods), i, i);
    forall k | 0 <= k < |s.shards| && s.shards[k].primary == p ensures k == i {
      OnePrimary(s.shards, Names(s.pods), i, k);
    }
  }

  lemma SamePodsAndShards(s: State, t: State, desired: string)
    requires t.pods == s.pods && t.shards == s.shards && t.absent == s.absent
    ensures Disrupted(t) == Disrupted(s)
    ensures StalePods(t, desired) == StalePods(s, desired)
    ensures StalePrimaries(t, desired) == StalePrimaries(s, desired)
  {
  }

  lemma ReconcileKeeps(s: State, desired: string, action: Action, delivered: bool)
    requires Inv(s, desired)
    ensures Inv(Step(s, desired, Reconcile(action, delivered)), desired)
    ensures Balanced(s, Step(s, desired, Reconcile(action, delivered)), desired)
  {
    var t := Step(s, desired, Reconcile(action, delivered));
    if t != s {
      if s.pending.Some? { DecisionUnique(s, desired, action, FailOver(s.pending.value)); }
      match action
      case RollReplica(p) =>
        ReplicaIsNoPrimary(s, desired, p);
        DeleteKeeps(s, t, desired, p);
      case RollMaster(p) =>
        MasterHasNoReplica(s, desired, p);
        DeleteKeeps(s, t, desired, p);
      case FailOver(p) =>
        SamePodsAndShards(s, t, desired);
        assert Disrupted(t) == {};
      case _ =>
    }
  }

  /** Rewriting one pod keeps names; every other pod is untouched. */
  lemma WithPodAt(pods: seq<Pod>, name: string, revision: string, ready: bool)
    ensures Names(WithPod(pods, name, revision, ready)) == Names(pods)
    ensures Distinct(pods) ==> Distinct(WithPod(pods, name, revision, ready))
  {
    var after := WithPod(pods, name, revision, ready);
    forall i | 0 <= i < |pods| ensures after[i].name == pods[i].name {}
    forall n | n in Names(pods) ensures n in Names(after) {
      var i :| 0 <= i < |pods| && pods[i].name == n;
      assert after[i].name == n;
    }
  }

  /** A rewritten pod changes freshness only for its own name. */
  lemma FreshAfter(pods: seq<Pod>, name: string, revision: string, ready: bool, desired: string, other: string)
    requires Distinct(pods)
    ensures other != name ==> (Fresh(WithPod(pods, name, revision, ready), desired, other) <==>
          Fresh(pods, desired, other))
    ensures name in Names(pods) ==> (Fresh(WithPod(pods, name, revision, ready), desired, name) <==>
          revision == desired)
  {
    var after := WithPod(pods, name, revision, ready);
    WithPodAt(pods, name, revision, ready);
    FreshAt(pods, desired, other);
    FreshAt(after, desired, other);
    FreshAt(after, desired, name);
    if i :| 0 <= i < |pods| && pods[i].name == other && other != name { assert after[i] == pods[i]; }
    if name in Names(pods) {
      var i :| 0 <= i < |pods| && pods[i].name == name;
      assert after[i] == Pod(name, revision, ready);
    }
  }

  /** Replacing a pod that is no primary with replicas leaves the primaries to hand over alone. */
  lemma PrimariesAfter(s: State, t: State, desired: string, name: string, revision: string, ready: bool)
    requires Distinct(s.pods) && t.shards == s.shards && t.pods == WithPod(s.pods, name, revision, ready)
    requires forall i :: 0 <= i < |s.shards| && s.shards[i].replicas != [] ==> s.shards[i].primary != name
    ensures StalePrimaries(t, desired) == StalePrimaries(s, desired)
  {
    forall i | 0 <= i < |s.shards| && s.shards[i].replicas != []
      ensures Fresh(t.pods, desired, s.shards[i].primary) == Fresh(s.pods, desired, s.shards[i].primary)
    {
      FreshAfter(s.pods, name, revision, ready, desired, s.shards[i].primary);
    }
  }

  /** A deleted pod is no longer counted as stale; coming back fresh it still is not. */
  lemma RecreatedWork(s: State, t: State, desired: string, p: string)
    requires p in s.absent
    requires t == s.(absent := s.absent - {p}, pods := WithPod(s.pods, p, desired, false))
    ensures StalePods(t, desired) == StalePods(s, desired)
  {
    forall n ensures n in StalePods(t, desired) <==> n in StalePods(s, desired) {
      if n in StalePods(s, desired) {
        var i :| 0 <= i < |s.pods| && s.pods[i].revision != desired && s.pods[i].name == n;
        assert t.pods[i] == s.pods[i];
      }
      if n in StalePods(t, desired) {
        var i :| 0 <= i < |t.pods| && t.pods[i].revision != desired && t.pods[i].name == n;
        assert t.pods[i] == s.pods[i];
      }
    }
  }

  lemma RecreatedKeeps(s: State, desired: string, p: string)
    requires Inv(s, desired)
    ensures Inv(Step(s, desired, Recreated(p)), desired)
    ensures Balanced(s, Step(s, desired, Recreated(p)), desired)
  {
    var t := Step(s, desired, Recreated(p));
    if p in s.absent {
      WithPodAt(s.pods, p, desired, false);
      assert p in Disrupted(s);
      forall n | n in Disrupted(t) ensures n in Disrupted(s) {
        if n !in t.absent {
          var i :| 0 <= i < |t.pods| && !t.pods[i].ready && t.pods[i].name == n;
          if n != p { assert t.pods[i] == s.pods[i]; }
        }
      }
      SmallerSet(Disrupted(t), Disrupted(s));
      PrimariesAfter(s, t, desired, p, desired, false);
      RecreatedWork(s, t, desired, p);
    }
  }

  /** Marking a Ready pod Ready changes nothing. */
  lemma ReadyAlready(pods: seq<Pod>, k: int)
    requires Distinct(pods) && 0 <= k < |pods| && pods[k].ready
    ensures WithPod(pods, pods[k].name, pods[k].revision, true) == pods
  {
  }

  lemma {:induction false} RevisionsSame(before: seq<Pod>, after: seq<Pod>)
    requires |before| == |after|
    requires forall i :: 0 <= i < |before| ==>
          after[i].name == before[i].name && after[i].revision == before[i].revision
    ensures Revisions(after) == Revisions(before)
  {
    if before != [] { RevisionsSame(before[..|before| - 1], after[..|after| - 1]); }
  }

  /** Readiness has no part in what is left to do. */
  lemma WorkIgnoresReadiness(s: State, t: State, desired: string)
    requires |s.pods| == |t.pods| && t.absent == s.absent && t.shards == s.shards
    requires forall i :: 0 <= i < |s.pods| ==>
          t.pods[i].name == s.pods[i].name && t.pods[i].revision == s.pods[i].revision
    ensures StalePods(t, desired) == StalePods(s, desired)
    ensures StalePrimaries(t, desired) == StalePrimaries(s, desired)
  {
    RevisionsSame(s.pods, t.pods);
  }

  /** Making a pod Ready disrupts nothing. */
  lemma ReadyDisrupts(s: State, t: State, p: string, revision: string)
    requires t == s.(pods := WithPod(s.pods, p, revision, true))
    ensures Disrupted(t) <= Disrupted(s) && |Disrupted(t)| <= |Disrupted(s)|
  {
    forall n | n in Disrupted(t) ensures n in Disrupted(s) {
      if n !in t.absent {
        var i :| 0 <= i < |t.pods| && !t.pods[i].ready && t.pods[i].name == n;
        assert t.pods[i] == s.pods[i];
      }
    }
    SmallerSet(Disrupted(t), Disrupted(s));
  }

  lemma SameRevisions(s: State, t: State, p: string, k: int)
    requires Distinct(s.pods) && 0 <= k < |s.pods| && s.pods[k].name == p
    requires t == s.(pods := WithPod(s.pods, p, s.pods[k].revision, true))
    ensures |t.pods| == |s.pods|
    ensures forall i :: 0 <= i < |s.pods| ==>
          t.pods[i].name == s.pods[i].name && t.pods[i].revision == s.pods[i].revision
  {
  }

  lemma MadeReady(s: State, t: State, desired: string, p: string, k: int)
    requires Inv(s, desired) && s.pending.None?
    requires 0 <= k < |s.pods| && s.pods[k].name == p
    requires t == s.(pods := WithPod(s.pods, p, s.pods[k].revision, true))
    ensures Inv(t, desired) && Balanced(s, t, desired)
  {
    WithPodAt(s.pods, p, s.pods[k].revision, true);
    ReadyDisrupts(s, t, p, s.pods[k].revision);
    assert Balanced(s, t, desired) by {
      SameRevisions(s, t, p, k);
      WorkIgnoresReadiness(s, t, desired);
    }
  }

  lemma BecameReadyKeeps(s: State, desired: string, p: string)
    requires Inv(s, desired)
    ensures Inv(Step(s, desired, BecameReady(p)), desired)
    ensures Balanced(s, Step(s, desired, BecameReady(p)), desired)
  {
    var t := Step(s, desired, BecameReady(p));
    if t != s {
      var k :| 0 <= k < |s.pods| && s.pods[k].name == p
            && t == s.(pods := WithPod(s.pods, p, s.pods[k].revision, true));
      assert s.pending.None? by {
        if s.pending.Some? { assert p !in Disrupted(s); ReadyAlready(s.pods, k); assert false; }
      }
      MadeReady(s, t, desired, p, k);
    }
  }

  lemma {:induction false} CoveredSwap(shards: seq<Shard>, i: int, shard: Shard)
    requires 0 <= i < |shards| && Members(shard) == Members(shards[i])
    ensures Covered(shards[i := shard]) == Covered(shards)
  {
    var after := shards[i := shard];
    if i == 0 {
      assert after[1..] == shards[1..];
    } else {
      assert after[1..] == shards[1..][i - 1 := shard];
      CoveredSwap(shards[1..], i - 1, shard);
    }
  }

  /** A decided failover names a fresh replica of the one shard that holds it, whose primary is stale. */
  lemma DecidedFailover(s: State, desired: string, p: string, i: int)
    requires Accurate(s) && Decides(s.pods, s.shards, desired, FailOver(p))
    requires 0 <= i < |s.shards| && p in s.shards[i].replicas
    ensures !Fresh(s.pods, desired, s.shards[i].primary) && Fresh(s.pods, desired, p)
  {
    var j :| FirstStaleShard(s.pods, s.shards, desired, j) && FailOver(p) == HandOver(s.shards[j]);
    assert p in Members(s.shards[i]) && p in Members(s.shards[j]);
    assert i == j;
    assert !StaleReplica(s.pods, s.shards, desired, p);
  }

  lemma PartitionSwapped(shards: seq<Shard>, names: set<string>, i: int, p: string, order: seq<string>)
    requires Partition(shards, names) && 0 <= i < |shards| && Swaps(shards[i], p, order)
    ensures Partition(shards[i := Shard(p, order)], names)
  {
    var after := shards[i := Shard(p, order)];
    assert Members(Shard(p, order)) == Members(shards[i]);
    CoveredSwap(shards, i, Shard(p, order));
    assert p !in (set r | r in order);
    forall k | 0 <= k < |shards| ensures Members(after[k]) == Members(shards[k]) {}
  }

  lemma PrimariesSwapped(s: State, t: State, desired: string, i: int, p: string, order: seq<string>)
    requires Accurate(s) && 0 <= i < |s.shards| && t.pods == s.pods
    requires s.shards[i].replicas != [] && t.shards == s.shards[i := Shard(p, order)]
    requires !Fresh(s.pods, desired, s.shards[i].primary) && Fresh(s.pods, desired, p)
    ensures |StalePrimaries(t, desired)| == |StalePrimaries(s, desired)| - 1
  {
    var was := s.shards[i].primary;
    forall n ensures n in StalePrimaries(t, desired) <==> n in StalePrimaries(s, desired) && n != was {
      if n in StalePrimaries(t, desired) {
        var k :| 0 <= k < |t.shards| && t.shards[k].replicas != [] && !Fresh(t.pods, desired, t.shards[k].primary)
              && t.shards[k].primary == n;
        assert k != i;
        assert n in Members(s.shards[k]) && was in Members(s.shards[i]);
      }
      if n in StalePrimaries(s, desired) && n != was {
        var k :| 0 <= k < |s.shards| && s.shards[k].replicas != [] && !Fresh(s.pods, desired, s.shards[k].primary)
              && s.shards[k].primary == n;
        assert t.shards[k] == s.shards[k];
      }
    }
    assert StalePrimaries(t, desired) == StalePrimaries(s, desired) - {was};
    assert was in StalePrimaries(s, desired);
  }

  /** The pending failover completes: a fresh replica takes the slots of the stale primary. */
  lemma SwappedKeeps(s: State, t: State, desired: string, i: int, p: string, order: seq<string>)
    requires Inv(s, desired) && s.pending == Some(p)
    requires 0 <= i < |s.shards| && Swaps(s.shards[i], p, order)
    requires t == s.(pending := None, failovers := s.failovers + 1, shards := s.shards[i := Shard(p, order)])
    ensures Inv(t, desired) && Balanced(s, t, desired)
  {
    DecidedFailover(s, desired, p, i);
    PartitionSwapped(s.shards, Names(s.pods), i, p, order);
    PrimariesSwapped(s, t, desired, i, p, order);
    assert Disrupted(t) == Disrupted(s) == {};
    assert StalePods(t, desired) == StalePods(s, desired);
  }

  lemma FailoverDoneKeeps(s: State, desired: string, order: seq<string>)
    requires Inv(s, desired)
    ensures Inv(Step(s, desired, FailoverDone(order)), desired)
    ensures Balanced(s, Step(s, desired, FailoverDone(order)), desired)
  {
    var t := Step(s, desired, FailoverDone(order));
    if t != s {
      var p := s.pending.value;
      var i :| 0 <= i < |s.shards| && Swaps(s.shards[i], p, order) && t.shards == s.shards[i := Shard(p, order)];
      SwappedKeeps(s, t, desired, i, p, order);
    }
  }

  lemma StepKeeps(s: State, desired: string, e: Event)
    requires Inv(s, desired)
    ensures Inv(Step(s, desired, e), desired) && Balanced(s, Step(s, desired, e), desired)
  {
    match e
    case Reconcile(action, delivered) => ReconcileKeeps(s, desired, action, delivered);
    case Recreated(p) => RecreatedKeeps(s, desired, p);
    case BecameReady(p) => BecameReadyKeeps(s, desired, p);
    case FailoverDone(order) => FailoverDoneKeeps(s, desired, order);
    case FailoverLost => SamePodsAndShards(s, Step(s, desired, e), desired);
  }

  /**
   Every run, every interleaving: at most one pod is down at a time, the primary of
   every shard that has replicas is up, and work done plus work left never changes.
   */
  lemma {:induction false} RolloutSafety(s: State, desired: string, events: seq<Event>)
    requires Init(s, desired)
    ensures Inv(Exec(s, desired, events), desired)
    ensures |Disrupted(Exec(s, desired, events))| <= 1
    ensures var t := Exec(s, desired, events);
            forall i :: 0 <= i < |t.shards| && t.shards[i].primary in Disrupted(t) ==> t.shards[i].replicas == []
    ensures Balanced(s, Exec(s, desired, events), desired)
  {
    if events == [] {
      assert Disrupted(s) == {};
    } else {
      RolloutSafety(s, desired, events[..|events| - 1]);
      StepKeeps(Exec(s, desired, events[..|events| - 1]), desired, events[|events| - 1]);
    }
  }

  /** A stale pod is a member of a surveyed shard. */
  lemma StaleMember(s: State, desired: string) returns (j: int, name: string)
    requires Accurate(s) && AnyStale(s.pods, desired)
    ensures 0 <= j < |s.shards| && name in Members(s.shards[j]) && !Fresh(s.pods, desired, name)
  {
    var i :| 0 <= i < |s.pods| && s.pods[i].revision != desired;
    name := s.pods[i].name;
    RevisionAt(s.pods, i);
    assert name in Names(s.pods);
    CoveredIff(s.shards, name);
    j :| 0 <= j < |s.shards| && name in Members(s.shards[j]);
  }

  lemma {:induction false} FirstStaleShardExists(pods: seq<Pod>, shards: seq<Shard>, desired: string, j: int)
    returns (k: int)
    requires 0 <= j < |shards| && !Fresh(pods, desired, shards[j].primary)
    ensures FirstStaleShard(pods, shards, desired, k)
  {
    k := j;
    BelowIrreflexive(shards[k].primary);
    for i := 0 to |shards|
      invariant 0 <= k < |shards| && !Fresh(pods, desired, shards[k].primary)
      invariant forall m :: 0 <= m < i && !Fresh(pods, desired, shards[m].primary) ==>
            !Below(shards[m].primary, shards[k].primary)
    {
      if !Fresh(pods, desired, shards[i].primary) && Below(shards[i].primary, shards[k].primary) {
        forall m | 0 <= m <= i && !Fresh(pods, desired, shards[m].primary)
          ensures !Below(shards[m].primary, shards[i].primary)
        {
          BelowIrreflexive(shards[i].primary);
          if m < i && Below(shards[m].primary, shards[i].primary) {
            BelowTransitive(shards[m].primary, shards[i].primary, shards[k].primary);
          }
        }
        k := i;
      }
    }
  }

  /**
   Without an accurate survey progress can fail: a pass over Ready pods gives up on
   stale pods exactly when none of them belongs to a surveyed shard.
   */
  lemma GivesUpIff(pods: seq<Pod>, shards: seq<Shard>, desired: string, action: Action)
    requires AllReady(pods) && AnyStale(pods, desired) && desired != "" && shards != []
    requires Decides(pods, shards, desired, action)
    ensures action.Done? <==>
          forall i, name :: 0 <= i < |shards| && name in Members(shards[i]) ==> Fresh(pods, desired, name)
  {
    if i, name :| 0 <= i < |shards| && name in Members(shards[i]) && !Fresh(pods, desired, name) {
      if name in shards[i].replicas {
        assert StaleReplica(pods, shards, desired, name);
      } else {
        var k := FirstStaleShardExists(pods, shards, desired, i);
      }
    } else {
      forall name ensures !StaleReplica(pods, shards, desired, name) {
        if i :| 0 <= i < |shards| && name in shards[i].replicas { assert name in Members(shards[i]); }
      }
      forall i ensures !FirstStaleShard(pods, shards, desired, i) {
        if 0 <= i < |shards| { assert shards[i].primary in Members(shards[i]); }
      }
    }
  }

  /**
   Progress: with every pod listed and Ready, some pod still stale and the survey
   accurate, the decision is neither Done nor Wait.
   */
  lemma StaleYieldsAction(s: State, desired: string, action: Action)
    requires Accurate(s) && desired != "" && AllReady(s.pods) && AnyStale(s.pods, desired)
    requires Decides(s.pods, s.shards, desired, action)
    ensures !action.Done? && !action.Wait?
  {
    var j, name := StaleMember(s, desired);
    GivesUpIff(s.pods, s.shards, desired, action);
  }

  lemma NoneStale(s: State, desired: string)
    requires Accurate(s) && !AnyStale(s.pods, desired)
    ensures StalePods(s, desired) == {} && StalePrimaries(s, desired) == {}
  {
    forall i | 0 <= i < |s.shards| ensures Fresh(s.pods, desired, s.shards[i].primary) {
      assert s.shards[i].primary in Members(s.shards[i]);
      CoveredIff(s.shards, s.shards[i].primary);
      var k :| 0 <= k < |s.pods| && s.pods[k].name == s.shards[i].primary;
      RevisionAt(s.pods, k);
    }
  }

  /**
   Exact work: a run that has replaced every stale pod and has no deleted pod
   outstanding made one delete per initially stale pod and one failover per
   initially stale primary that had replicas.
   */
  lemma ExactWork(s: State, desired: string, events: seq<Event>)
    requires Init(s, desired)
    requires !AnyStale(Exec(s, desired, events).pods, desired)
    ensures Exec(s, desired, events).deletes == |StalePods(s, desired)|
    ensures Exec(s, desired, events).failovers == |StalePrimaries(s, desired)|
  {
    var t := Exec(s, desired, events);
    assert Accurate(t) && Balanced(s, t, desired) by { RolloutSafety(s, desired, events); }
    NoneStale(t, desired);
  }

  // ------------------------------------------------------------- termination

  /** Recreated pods on their way to Ready. */
  ghost function Starting(s: State): set<string> {
    Unready(s.pods) - s.absent
  }

  /** Events still needed: delete, recreate, ready per stale pod; issue and completion per stale primary. */
  ghost function Rank(s: State, desired: string): int {
    3 * |StalePods(s, desired)| + 2 * |StalePrimaries(s, desired)| - (if s.pending.Some? then 1 else 0)
    + 2 * |s.absent| + |Starting(s)|
  }

  lemma UnreadyAfter(pods: seq<Pod>, p: string, revision: string, ready: bool)
    requires Distinct(pods) && p in Names(pods)
    ensures Unready(WithPod(pods, p, revision, ready)) == if ready then Unready(pods) - {p} else Unready(pods) + {p}
  {
    var after := WithPod(pods, p, revision, ready);
    var k :| 0 <= k < |pods| && pods[k].name == p;
    assert after[k] == Pod(p, revision, ready);
    forall n | n != p ensures n in Unready(after) <==> n in Unready(pods) {
      if n in Unready(pods) {
        var i :| 0 <= i < |pods| && !pods[i].ready && pods[i].name == n;
        assert after[i] == pods[i];
      }
      if n in Unready(after) {
        var i :| 0 <= i < |after| && !after[i].ready && after[i].name == n;
        assert after[i] == pods[i];
      }
    }
  }

  lemma OneMoreStarting(unready: set<string>, absent: set<string>, p: string)
    requires p in absent
    ensures |(unready + {p}) - (absent - {p})| == |unready - absent| + 1
  {
    assert (unready + {p}) - (absent - {p}) == (unready - absent) + {p};
  }

  lemma RecreatedRank(s: State, t: State, desired: string, p: string)
    requires Distinct(s.pods) && p in s.absent && p in Names(s.pods)
    requires forall i :: 0 <= i < |s.shards| && s.shards[i].replicas != [] ==> s.shards[i].primary != p
    requires t == s.(absent := s.absent - {p}, pods := WithPod(s.pods, p, desired, false))
    ensures Rank(t, desired) == Rank(s, desired) - 1
  {
    RecreatedWork(s, t, desired, p);
    PrimariesAfter(s, t, desired, p, desired, false);
    UnreadyAfter(s.pods, p, desired, false);
    OneMoreStarting(Unready(s.pods), s.absent, p);
    assert |t.absent| == |s.absent| - 1;
  }

  lemma OneLessStarting(unready: set<string>, absent: set<string>, p: string)
    requires p in unready && p !in absent
    ensures |(unready - {p}) - absent| == |unready - absent| - 1
  {
    assert (unready - {p}) - absent == (unready - absent) - {p};
  }

  lemma BecameReadyRank(s: State, t: State, desired: string, p: string, k: int)
    requires Distinct(s.pods) && p !in s.absent && 0 <= k < |s.pods| && s.pods[k].name == p
    requires t == s.(pods := WithPod(s.pods, p, s.pods[k].revision, true)) && t != s
    ensures Rank(t, desired) == Rank(s, desired) - 1
  {
    if s.pods[k].ready { ReadyAlready(s.pods, k); }
    WorkIgnoresReadiness(s, t, desired);
    UnreadyAfter(s.pods, p, s.pods[k].revision, true);
    assert p in Unready(s.pods);
    OneLessStarting(Unready(s.pods), s.absent, p);
  }

  lemma ReconcileRank(s: State, desired: string, action: Action, delivered: bool)
    requires Inv(s, desired) && Step(s, desired, Reconcile(action, delivered)) != s
    ensures Rank(Step(s, desired, Reconcile(action, delivered)), desired) == Rank(s, desired) - 1
  {
    var t := Step(s, desired, Reconcile(action, delivered));
    ReconcileKeeps(s, desired, action, delivered);
    if s.pending.Some? { DecisionUnique(s, desired, action, FailOver(s.pending.value)); }
    assert AllReady(s.pods);
    assert Starting(s) == {} && Starting(t) == {};
  }

  lemma RecreatedFalls(s: State, desired: string, p: string)
    requires Inv(s, desired) && p in s.absent
    ensures Rank(Step(s, desired, Recreated(p)), desired) == Rank(s, desired) - 1
  {
    assert p in Disrupted(s);
    RecreatedRank(s, Step(s, desired, Recreated(p)), desired, p);
  }

  lemma BecameReadyFalls(s: State, desired: string, p: string)
    requires Inv(s, desired) && Step(s, desired, BecameReady(p)) != s
    ensures Rank(Step(s, desired, BecameReady(p)), desired) == Rank(s, desired) - 1
  {
    var t := Step(s, desired, BecameReady(p));
    var k :| 0 <= k < |s.pods| && s.pods[k].name == p && t == s.(pods := WithPod(s.pods, p, s.pods[k].revision, true));
    BecameReadyRank(s, t, desired, p, k);
  }

  lemma FailoverEffect(s: State, desired: string, order: seq<string>)
    requires Step(s, desired, FailoverDone(order)) != s
    ensures var t := Step(s, desired, FailoverDone(order));
            && s.pending.Some? && t.pending.None? && t.pods == s.pods && t.absent == s.absent
            && t.deletes == s.deletes && t.failovers == s.failovers + 1
  {
  }

  lemma SwappedRank(s: State, t: State, desired: string)
    requires s.pending.Some? && t.pending.None? && t.pods == s.pods && t.absent == s.absent
    requires Balanced(s, t, desired) && t.deletes == s.deletes && t.failovers == s.failovers + 1
    ensures Rank(t, desired) == Rank(s, desired) - 1
  {
    assert Starting(t) == Starting(s);
  }

  lemma FailoverFalls(s: State, desired: string, order: seq<string>)
    requires Inv(s, desired) && Step(s, desired, FailoverDone(order)) != s
    ensures Rank(Step(s, desired, FailoverDone(order)), desired) == Rank(s, desired) - 1
  {
    var t := Step(s, desired, FailoverDone(order));
    assert Balanced(s, t, desired) by { FailoverDoneKeeps(s, desired, order); }
    FailoverEffect(s, desired, order);
    SwappedRank(s, t, desired);
  }

  /** Every event that changes anything, save a lost failover, brings the end exactly one event closer. */
  lemma RankFalls(s: State, desired: string, e: Event)
    requires Inv(s, desired) && Step(s, desired, e) != s && e != FailoverLost
    ensures Rank(Step(s, desired, e), desired) == Rank(s, desired) - 1
  {
    match e
    case Reconcile(action, delivered) => ReconcileRank(s, desired, action, delivered);
    case Recreated(p) => RecreatedFalls(s, desired, p);
    case BecameReady(p) => BecameReadyFalls(s, desired, p);
    case FailoverDone(order) => FailoverFalls(s, desired, order);
  }

  /** Events of a run that changed the state. */
  ghost function Changes(s: State, desired: string, events: seq<Event>): nat {
    if events == [] then 0
    else
      var front := events[..|events| - 1];
      Changes(s, desired, front)
      + (if Exec(s, desired, events) != Exec(s, desired, front) then 1 else 0)
  }

  /** Events of a run that lost a pending failover. */
  ghost function Losses(s: State, desired: string, events: seq<Event>): nat {
    if events == [] then 0
    else
      var front := events[..|events| - 1];
      Losses(s, desired, front)
      + (if events[|events| - 1] == FailoverLost && Exec(s, desired, front).pending.Some? then 1 else 0)
  }

  /** A lost failover puts the run back by one event, the one that issued it. */
  lemma LossRaises(s: State, desired: string)
    requires s.pending.Some?
    ensures Rank(Step(s, desired, FailoverLost), desired) == Rank(s, desired) + 1
  {
    SamePodsAndShards(s, Step(s, desired, FailoverLost), desired);
  }

  lemma PendingIsCounted(s: State, desired: string)
    requires Inv(s, desired) && s.pending.Some?
    ensures |StalePrimaries(s, desired)| > 0
  {
    var i :| FirstStaleShard(s.pods, s.shards, desired, i) && FailOver(s.pending.value) == HandOver(s.shards[i]);
    assert s.shards[i].primary in StalePrimaries(s, desired);
  }

  lemma RankBounded(s: State, desired: string)
    requires Inv(s, desired)
    ensures Rank(s, desired) >= 0
  {
    if s.pending.Some? { PendingIsCounted(s, desired); }
  }

  /** What one event does to the rank. */
  lemma RankMoves(s: State, desired: string, e: Event)
    requires Inv(s, desired)
    ensures Rank(Step(s, desired, e), desired) == Rank(s, desired) +
            if Step(s, desired, e) == s then 0 else if e == FailoverLost then 1 else -1
    ensures e == FailoverLost ==> (Step(s, desired, e) != s <==> s.pending.Some?)
  {
    if e == FailoverLost {
      if s.pending.Some? { LossRaises(s, desired); }
    } else if Step(s, desired, e) != s {
      RankFalls(s, desired, e);
    }
  }

  lemma {:induction false} EventsCounted(s: State, desired: string, events: seq<Event>)
    requires Init(s, desired)
    ensures Changes(s, desired, events)
         == Rank(s, desired) - Rank(Exec(s, desired, events), desired) + 2 * Losses(s, desired, events)
  {
    if events != [] {
      var front, e := events[..|events| - 1], events[|events| - 1];
      EventsCounted(s, desired, front);
      var before := Exec(s, desired, front);
      assert Inv(before, desired) by { RolloutSafety(s, desired, front); }
      RankMoves(before, desired, e);
    }
  }

  /**
   Termination: a run takes exactly as many effective events as its rank falls, and two
   more for every failover lost; so three per stale pod and two per stale primary bound
   the run, apart from the losses.
   */
  lemma RolloutTerminates(s: State, desired: string, events: seq<Event>)
    requires Init(s, desired)
    ensures Changes(s, desired, events)
         == Rank(s, desired) - Rank(Exec(s, desired, events), desired) + 2 * Losses(s, desired, events)
    ensures Changes(s, desired, events)
         <= 3 * |StalePods(s, desired)| + 2 * |StalePrimaries(s, desired)| + 2 * Losses(s, desired, events)
  {
    EventsCounted(s, desired, events);
    assert Starting(s) == {};
    assert Inv(Exec(s, desired, events), desired) by { RolloutSafety(s, desired, events); }
    RankBounded(Exec(s, desired, events), desired);
  }

  lemma {:induction false} NamesInOrder(names: set<string>) returns (order: seq<string>)
    ensures forall n :: n in order <==> n in names
  {
    if names == {} {
      order := [];
    } else {
      var n :| n in names;
      var rest := NamesInOrder(names - {n});
      order := [n] + rest;
    }
  }

  lemma PendingCanComplete(s: State, desired: string) returns (order: seq<string>)
    requires s.pending.Some? && Decides(s.pods, s.shards, desired, FailOver(s.pending.value))
    ensures Step(s, desired, FailoverDone(order)) != s
  {
    var p := s.pending.value;
    var i :| FirstStaleShard(s.pods, s.shards, desired, i) && FailOver(p) == HandOver(s.shards[i]);
    order := NamesInOrder(Members(s.shards[i]) - {p});
    assert (set r | r in order) == Members(s.shards[i]) - {p};
    assert Swaps(s.shards[i], p, order);
  }

  lemma CanBecomeReady(s: State, desired: string, i: int)
    requires s.absent == {} && 0 <= i < |s.pods| && !s.pods[i].ready
    ensures Step(s, desired, BecameReady(s.pods[i].name)) != s
  {
    assert Step(s, desired, BecameReady(s.pods[i].name)).pods[i].ready;
  }

  lemma {:induction false} LeastOf(names: set<string>) returns (least: string)
    requires names != {}
    ensures least in names && forall n :: n in names ==> !Below(n, least)
  {
    var n :| n in names;
    least := n;
    BelowIrreflexive(n);
    if names != {n} {
      var rest := LeastOf(names - {n});
      BelowIrreflexive(rest);
      if Below(rest, n) {
        least := rest;
        if Below(n, rest) { BelowTransitive(n, rest, n); }
      } else {
        forall m | m in names ensures !Below(m, n) {
          if m != n && Below(m, n) {
            BelowTotal(rest, n);
            if rest != n { BelowTransitive(m, n, rest); }
          }
        }
      }
    }
  }

  lemma DecisionExists(s: State, desired: string)
    requires AllReady(s.pods)
    ensures exists action :: Decides(s.pods, s.shards, desired, action)
  {
    if n :| StaleReplica(s.pods, s.shards, desired, n) {
      var stale := set i, m | 0 <= i < |s.shards| && m in s.shards[i].replicas && !Fresh(s.pods, desired, m) :: m;
      assert forall m :: m in stale <==> StaleReplica(s.pods, s.shards, desired, m);
      var least := LeastOf(stale);
      assert AnyStale(s.pods, desired) && desired != "" && s.pods != [] && s.shards != []
        ==> Decides(s.pods, s.shards, desired, RollReplica(least));
      assert Decides(s.pods, s.shards, desired, RollReplica(least)) || Decides(s.pods, s.shards, desired, Done);
    } else if i :| FirstStaleShard(s.pods, s.shards, desired, i) {
      assert Decides(s.pods, s.shards, desired, HandOver(s.shards[i])) || Decides(s.pods, s.shards, desired, Done);
    } else {
      assert Decides(s.pods, s.shards, desired, Done);
    }
  }

  lemma ReadyNotStuck(s: State, desired: string) returns (e: Event)
    requires Accurate(s) && desired != "" && AllReady(s.pods) && AnyStale(s.pods, desired)
    requires s.absent == {} && s.pending == None
    ensures e.Reconcile? && Step(s, desired, e) != s
  {
    var action :| Decides(s.pods, s.shards, desired, action) by { DecisionExists(s, desired); }
    StaleYieldsAction(s, desired, action);
    e := Reconcile(action, true);
  }

  /** No dead end: while a pod is stale or down, some event is enabled. */
  lemma NotStuck(s: State, desired: string) returns (e: Event)
    requires Inv(s, desired) && (AnyStale(s.pods, desired) || Disrupted(s) != {})
    ensures e != FailoverLost && Step(s, desired, e) != s
  {
    if s.absent != {} {
      var p :| p in s.absent;
      e := Recreated(p);
    } else if !AllReady(s.pods) {
      var i :| 0 <= i < |s.pods| && !s.pods[i].ready;
      e := BecameReady(s.pods[i].name);
      CanBecomeReady(s, desired, i);
    } else if s.pending.Some? {
      var order := PendingCanComplete(s, desired);
      e := FailoverDone(order);
    } else {
      assert Disrupted(s) == {};
      e := ReadyNotStuck(s, desired);
    }
  }
}
