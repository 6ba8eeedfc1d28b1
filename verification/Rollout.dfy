/**
 Proactive rolling restart of a Replication set, and of the data pods and Sentinels of a
 Sentinel topology: replicas first, the primary last and only after handing over.
 */
module Rollout {
  import opened Common
  import opened Failover

  /** A pod as listed, known by its ordinal. */
  datatype Pod = Pod(ordinal: nat, revision: string, ready: bool)

  datatype Action = Done | Wait | RollReplica(pod: nat) | HandOver(pod: nat)

  // ---------------------------------------------------------------- decision

  /** A stale pod that is not the primary. */
  predicate StaleReplica(p: Pod, desired: string, primary: Option<nat>) {
    p.revision != desired && Some(p.ordinal) != primary
  }

  /** What the operator does next, stated without reference to how it searches. */
  ghost predicate Decides(pods: seq<Pod>, desired: string, primary: Option<nat>, a: Action) {
    if desired == "" || forall p :: p in pods ==> p.revision == desired then a == Done
    else if exists p :: p in pods && !p.ready then a == Wait
    else if exists p :: p in pods && StaleReplica(p, desired, primary) then
      && a.RollReplica?
      && (exists p :: p in pods && StaleReplica(p, desired, primary) && p.ordinal == a.pod)
      && (forall p :: p in pods && StaleReplica(p, desired, primary) ==> a.pod <= p.ordinal)
    else primary.Some? && a == HandOver(primary.value)
  }

  /** nextRolloutStep; sorting by ordinal and taking the first non-primary is a minimum scan. */
  method NextRolloutStep(pods: seq<Pod>, desired: string, primary: Option<nat>) returns (a: Action)
    ensures Decides(pods, desired, primary, a)
  {
    if |pods| == 0 || desired == "" { return Done; }
    var stale: seq<Pod>, allReady := [], true;
    for i := 0 to |pods|
      invariant forall p :: p in stale <==> p in pods[..i] && p.revision != desired
      invariant allReady <==> forall p :: p in pods[..i] ==> p.ready
    {
      assert pods[..i + 1] == pods[..i] + [pods[i]];
      if !pods[i].ready { allReady := false; }
      if pods[i].revision != desired { stale := stale + [pods[i]]; }
    }
    assert pods[..|pods|] == pods;
    if |stale| == 0 { return Done; }
    assert stale[0] in pods && stale[0].revision != desired;
    if !allReady { return Wait; }
    var least: Option<nat> := None;
    for i := 0 to |stale|
      invariant least.Some? ==> exists p :: p in stale && StaleReplica(p, desired, primary) && p.ordinal == least.value
      invariant forall j :: 0 <= j < i && StaleReplica(stale[j], desired, primary) ==>
            least.Some? && least.value <= stale[j].ordinal
    {
      if Some(stale[i].ordinal) != primary && (least.None? || stale[i].ordinal < least.value) {
        assert StaleReplica(stale[i], desired, primary);
        least := Some(stale[i].ordinal);
      }
    }
    if least.Some? { return RollReplica(least.value); }
    assert !StaleReplica(stale[0], desired, primary);
    a := HandOver(primary.value);
  }

  /** The decision depends on which pods are listed, not on their order. */
  lemma OrderFree(pods: seq<Pod>, others: seq<Pod>, desired: string, primary: Option<nat>, a: Action, b: Action)
    requires forall p :: p in pods <==> p in others
    requires Decides(pods, desired, primary, a) && Decides(others, desired, primary, b)
    ensures a == b
  {
  }

  // -------------------------------------------------------- whom to promote

  ghost predicate FreshReady(pods: seq<Pod>, desired: string, primary: Option<nat>, i: nat) {
    exists p :: p in pods && p.ordinal == i && p.revision == desired && p.ready && Some(p.ordinal) != primary
  }

  /** A reachable replica whose pod is Ready on the new revision. */
  ghost predicate Candidate(survey: Survey, pods: seq<Pod>, desired: string, primary: Option<nat>, i: nat) {
    IsA(survey, i, Slave) && FreshReady(pods, desired, primary, i)
  }

  /** The first candidate of greatest offset. */
  ghost predicate BestTarget(survey: Survey, pods: seq<Pod>, desired: string, primary: Option<nat>, t: nat) {
    && Candidate(survey, pods, desired, primary, t)
    && forall j: nat :: Candidate(survey, pods, desired, primary, j) && j != t ==>
         survey[j].offset <= survey[t].offset && (j < t ==> survey[j].offset < survey[t].offset)
  }

  /** The target found, if there is one. */
  ghost predicate Picks(survey: Survey, pods: seq<Pod>, desired: string, primary: Option<nat>, target: Option<nat>) {
    if target.Some? then BestTarget(survey, pods, desired, primary, target.value)
    else forall j: nat :: !Candidate(survey, pods, desired, primary, j)
  }

  method BestRolloutTarget(survey: Survey, pods: seq<Pod>, desired: string, primary: Option<nat>)
    returns (best: Option<nat>)
    ensures Picks(survey, pods, desired, primary, best)
  {
    var freshReady: set<nat> := {};
    for i := 0 to |pods|
      invariant forall k: nat :: k in freshReady <==> FreshReady(pods[..i], desired, primary, k)
    {
      assert pods[..i + 1] == pods[..i] + [pods[i]];
      if pods[i].revision == desired && pods[i].ready && Some(pods[i].ordinal) != primary {
        freshReady := freshReady + {pods[i].ordinal};
      }
    }
    assert pods[..|pods|] == pods;
    best := None;
    for i := 0 to |survey|
      invariant best.Some? ==> best.value < i && Candidate(survey, pods, desired, primary, best.value)
      invariant best.Some? ==>
            forall j: nat :: j < i && Candidate(survey, pods, desired, primary, j) && j != best.value ==>
                  survey[j].offset <= survey[best.value].offset && (j < best.value ==>
                        survey[j].offset < survey[best.value].offset)
      invariant best.None? ==> forall j: nat :: j < i ==> !Candidate(survey, pods, desired, primary, j)
    {
      var s := survey[i];
      if !s.reachable || s.role != Slave || i !in freshReady { continue; }
      if best.None? || s.offset > survey[best.value].offset { best := Some(i); }
    }
  }

  /** The one reachable data pod that reports itself master; none when no pod or more than one does. */
  ghost predicate TheMaster(survey: Survey, master: Option<nat>) {
    if master.Some? then forall j: nat :: IsA(survey, j, Master) <==> j == master.value
    else forall m: nat :: IsA(survey, m, Master) ==> exists j: nat :: j != m && IsA(survey, j, Master)
  }

  method SentinelDataMaster(survey: Survey) returns (master: Option<nat>)
    ensures TheMaster(survey, master)
  {
    master := None;
    for i := 0 to |survey|
      invariant master.Some? ==> master.value < i && forall j: nat :: j < i ==> (IsA(survey, j, Master) <==>
            j == master.value)
      invariant master.None? ==> forall j: nat :: j < i ==> !IsA(survey, j, Master)
    {
      if survey[i].reachable && survey[i].role == Master {
        if master.Some? {
          assert IsA(survey, i, Master) && IsA(survey, master.value, Master);
          return None;
        }
        master := Some(i);
      }
    }
  }

  // ---------------------------------------------------------------- protocol

  /** `primary` is the master the clients write to; the Sentinels themselves have none. */
  datatype State = State(pods: seq<Pod>, absent: set<nat>, primary: Option<nat>, deletes: nat, handovers: nat)

  datatype Event =
    // Replication: the operator promotes
    | Pass(survey: Survey, action: Action, target: Option<nat>, promoted: bool, deleted: bool)
    // the Sentinels promote
    | SentinelPass(survey: Survey, master: Option<nat>, action: Action, elected: Option<nat>, deleted: bool)
    | Recreated(pod: nat)
    | BecameReady(pod: nat)

  /** Pods that answer report their real role. */
  ghost predicate Accurate(s: State, survey: Survey) {
    && |survey| == |s.pods|
    && forall i: nat :: i < |survey| && survey[i].reachable ==>
          survey[i].role == if s.primary == Some(i) then Master else Slave
  }

  function Delete(s: State, p: nat, deleted: bool): State {
    if deleted then s.(absent := {p}, deletes := s.deletes + 1) else s
  }

  /**
   driveReplicationRollout: promote the best fresh replica, then delete the old primary whether
   that worked or not.
   */
  function Act(s: State, action: Action, target: Option<nat>, promoted: bool, deleted: bool): State {
    match action
    case RollReplica(p) => Delete(s, p, deleted)
    case HandOver(p) =>
      if target.None? then s
      else Delete(if promoted then s.(primary := target, handovers := s.handovers + 1) else s, p, deleted)
    case _ => s
  }

  /** A pass on a full, accurately surveyed set: `action` and `target` are what the code picks. */
  ghost predicate Enabled(s: State, desired: string, survey: Survey, action: Action, target: Option<nat>) {
    && s.absent == {} && Accurate(s, survey)
    && Decides(s.pods, desired, s.primary, action) && Picks(survey, s.pods, desired, s.primary, target)
  }

  /** driveSentinelRollout on the data pods: never deletes the master; the Sentinels elect one of its replicas. */
  function ActSentinel(s: State, action: Action, elected: Option<nat>, deleted: bool): State {
    match action
    case RollReplica(p) => Delete(s, p, deleted)
    case HandOver(p) =>
      if elected.None? || elected.value >= |s.pods| || elected == s.primary then s
      else s.(primary := elected, handovers := s.handovers + 1)
    case _ => s
  }

  /** The driver knows the master only from the survey, and waits while it sees none. */
  ghost predicate EnabledSentinel(s: State, desired: string, survey: Survey, master: Option<nat>, action: Action) {
    && s.absent == {} && Accurate(s, survey) && TheMaster(survey, master) && master.Some?
    && Decides(s.pods, desired, master, action)
  }

  /** The StatefulSet puts a deleted pod back, on the new revision and not yet Ready. */
  function Recreate(s: State, desired: string, p: nat): State {
    if p in s.absent && p < |s.pods| then s.(absent := s.absent - {p}, pods := s.pods[p := Pod(p, desired, false)])
          else s
  }

  function MakeReady(s: State, p: nat): State {
    if p < |s.pods| && p !in s.absent then s.(pods := s.pods[p := s.pods[p].(ready := true)]) else s
  }

  ghost function Step(s: State, desired: string, e: Event): State {
    match e
    case Pass(survey, action, target, promoted, deleted) =>
      if Enabled(s, desired, survey, action, target) then Act(s, action, target, promoted, deleted) else s
    case SentinelPass(survey, master, action, elected, deleted) =>
      if EnabledSentinel(s, desired, survey, master, action) then ActSentinel(s, action, elected, deleted) else s
    case Recreated(p) => Recreate(s, desired, p)
    case BecameReady(p) => MakeReady(s, p)
  }

  ghost function Exec(s: State, desired: string, events: seq<Event>): State {
    if events == [] then s else Step(Exec(s, desired, events[..|events| - 1]), desired, events[|events| - 1])
  }

  /** Pods that are not serving. */
  ghost function Disrupted(s: State): set<nat> {
    s.absent + set i | 0 <= i < |s.pods| && !s.pods[i].ready
  }

  /** Pods still to be replaced. */
  ghost function Stale(s: State, desired: string): set<nat> {
    (set i | 0 <= i < |s.pods| && s.pods[i].revision != desired) - s.absent
  }

  ghost predicate StalePrimary(s: State, desired: string) { s.primary.Some? && s.primary.value in Stale(s, desired) }

  ghost predicate Numbered(s: State) {
    (forall i :: 0 <= i < |s.pods| ==> s.pods[i].ordinal == i) && (s.primary.Some? ==> s.primary.value < |s.pods|)
  }

  ghost predicate Inv(s: State) {
    && Numbered(s) && |Disrupted(s)| <= 1 && (forall i :: i in s.absent ==> i < |s.pods|)
    && (s.primary.Some? ==> s.primary.value !in Disrupted(s))
  }

  /** Every promotion the operator attempts succeeds. */
  ghost predicate PromotionsWork(events: seq<Event>) { forall e :: e in events && e.Pass? ==> e.promoted }

  /** A deletable pod is a stale one; all pods are present and Ready when it is chosen. */
  lemma Chosen(s: State, desired: string, action: Action)
    requires Numbered(s) && s.absent == {} && Decides(s.pods, desired, s.primary, action)
    ensures action.RollReplica? || action.HandOver? ==> Disrupted(s) == {} && action.pod in Stale(s, desired)
    ensures action.RollReplica? ==> s.primary != Some(action.pod)
    ensures action.HandOver? ==> s.primary == Some(action.pod) && Stale(s, desired) == {action.pod}
  {
    if action.RollReplica? || action.HandOver? {
      forall i | 0 <= i < |s.pods| ensures s.pods[i].ready { assert s.pods[i] in s.pods; }
    }
    if action.HandOver? {
      forall i | i in Stale(s, desired) ensures i == action.pod {
        assert s.pods[i] in s.pods && !StaleReplica(s.pods[i], desired, s.primary);
      }
      var p :| p in s.pods && p.revision != desired;
      assert p.ordinal in Stale(s, desired);
    }
  }

  /** What a step does to the two measures of the work left. */
  ghost predicate Works(s: State, t: State, desired: string) {
    && Inv(t)
    && |Stale(t, desired)| + t.deletes == |Stale(s, desired)| + s.deletes
    && (if StalePrimary(t, desired) then 1 else 0) + t.handovers
          == (if StalePrimary(s, desired) then 1 else 0) + s.handovers
  }

  lemma SameWorks(s: State, desired: string)
    requires Inv(s)
    ensures Works(s, s, desired)
  {
  }

  lemma DeleteWorks(s: State, desired: string, p: nat, deleted: bool)
    requires Inv(s) && Disrupted(s) == {} && p in Stale(s, desired) && s.primary != Some(p)
    ensures Works(s, Delete(s, p, deleted), desired)
  {
    if deleted {
      var t := Delete(s, p, deleted);
      assert Stale(t, desired) == Stale(s, desired) - {p};
      assert Disrupted(t) == {p};
    }
  }

  lemma HandOverWorks(s: State, desired: string, t: nat)
    requires Inv(s) && Disrupted(s) == {} && StalePrimary(s, desired) && t < |s.pods| && t !in Stale(s, desired)
    ensures var u := s.(primary := Some(t), handovers := s.handovers + 1);
            Works(s, u, desired) && Disrupted(u) == {} && Stale(u, desired) == Stale(s, desired)
  {
  }

  /** What the decision guarantees of the pod it names. */
  ghost predicate Choice(s: State, desired: string, action: Action) {
    && (action.RollReplica? || action.HandOver? ==> Disrupted(s) == {} && action.pod in Stale(s, desired))
    && (action.RollReplica? ==> s.primary != Some(action.pod))
    && (action.HandOver? ==> s.primary == Some(action.pod) && Stale(s, desired) == {action.pod})
  }

  /** A pod that may take over. */
  ghost predicate Fit(s: State, desired: string, t: nat) { t < |s.pods| && t !in Stale(s, desired) }

  lemma DecidedChoice(s: State, desired: string, action: Action)
    requires Numbered(s) && s.absent == {} && Decides(s.pods, desired, s.primary, action)
    ensures Choice(s, desired, action)
  {
    Chosen(s, desired, action);
  }

  lemma TargetFresh(s: State, desired: string, survey: Survey, t: nat)
    requires Numbered(s) && s.absent == {} && Candidate(survey, s.pods, desired, s.primary, t)
    ensures Fit(s, desired, t)
  {
  }

  /** Promote, then delete the old primary. */
  lemma PromoteWorks(s: State, desired: string, p: nat, t: nat, deleted: bool)
    requires Inv(s) && Disrupted(s) == {} && s.primary == Some(p) && p in Stale(s, desired) && Fit(s, desired, t)
    ensures Works(s, Delete(s.(primary := Some(t), handovers := s.handovers + 1), p, deleted), desired)
  {
    HandOverWorks(s, desired, t);
    DeleteWorks(s.(primary := Some(t), handovers := s.handovers + 1), desired, p, deleted);
  }

  lemma ActWorks(s: State, desired: string, action: Action, target: Option<nat>, deleted: bool)
    requires Inv(s) && Choice(s, desired, action) && (target.Some? ==> Fit(s, desired, target.value))
    ensures Works(s, Act(s, action, target, true, deleted), desired)
  {
    if action.RollReplica? {
      DeleteWorks(s, desired, action.pod, deleted);
    } else if action.HandOver? && target.Some? {
      PromoteWorks(s, desired, action.pod, target.value, deleted);
    } else {
      SameWorks(s, desired);
    }
  }

  lemma DriveWorks(s: State, desired: string, survey: Survey, action: Action, target: Option<nat>, deleted: bool)
    requires Inv(s) && Enabled(s, desired, survey, action, target)
    ensures Works(s, Act(s, action, target, true, deleted), desired)
  {
    DecidedChoice(s, desired, action);
    if target.Some? { TargetFresh(s, desired, survey, target.value); }
    ActWorks(s, desired, action, target, deleted);
  }

  /** The master an accurate survey shows is the primary. */
  lemma SeenIsPrimary(s: State, survey: Survey, master: Option<nat>)
    requires Accurate(s, survey) && TheMaster(survey, master) && master.Some?
    ensures s.primary == master
  {
    assert IsA(survey, master.value, Master);
  }

  /** When only the primary is stale, every other pod may take over. */
  lemma OthersFit(s: State, desired: string, action: Action, t: nat)
    requires action.HandOver? && Choice(s, desired, action) && t < |s.pods| && s.primary != Some(t)
    ensures Fit(s, desired, t)
  {
  }

  lemma ActSentinelWorks(s: State, desired: string, action: Action, elected: Option<nat>, deleted: bool)
    requires Inv(s) && Choice(s, desired, action)
    ensures Works(s, ActSentinel(s, action, elected, deleted), desired)
  {
    if action.RollReplica? {
      DeleteWorks(s, desired, action.pod, deleted);
    } else if action.HandOver? && elected.Some? && elected.value < |s.pods| && elected != s.primary {
      OthersFit(s, desired, action, elected.value);
      HandOverWorks(s, desired, elected.value);
    } else {
      SameWorks(s, desired);
    }
  }

  lemma DriveSentinelWorks(s: State, desired: string, survey: Survey, master: Option<nat>, action: Action,
                           elected: Option<nat>, deleted: bool)
    requires Inv(s) && EnabledSentinel(s, desired, survey, master, action)
    ensures Works(s, ActSentinel(s, action, elected, deleted), desired)
  {
    SeenIsPrimary(s, survey, master);
    DecidedChoice(s, desired, action);
    ActSentinelWorks(s, desired, action, elected, deleted);
  }

  lemma RecreatedSets(s: State, desired: string, p: nat)
    requires p in s.absent && p < |s.pods|
    ensures Disrupted(Recreate(s, desired, p)) <= Disrupted(s)
    ensures Stale(Recreate(s, desired, p), desired) == Stale(s, desired)
  {
  }

  lemma RecreatedWorks(s: State, desired: string, p: nat)
    requires Inv(s) && p in s.absent
    ensures Works(s, Recreate(s, desired, p), desired)
  {
    RecreatedSets(s, desired, p);
    SmallerSet(Disrupted(Recreate(s, desired, p)), Disrupted(s));
  }

  lemma ReadyWorks(s: State, desired: string, p: nat)
    requires Inv(s) && p < |s.pods| && p !in s.absent
    ensures Works(s, MakeReady(s, p), desired)
  {
    var t := MakeReady(s, p);
    assert Disrupted(t) <= Disrupted(s);
    SmallerSet(Disrupted(t), Disrupted(s));
    assert Stale(t, desired) == Stale(s, desired);
  }

  lemma PassWorks(s: State, desired: string, e: Event)
    requires Inv(s) && e.Pass? && e.promoted
    ensures Works(s, Step(s, desired, e), desired)
  {
    SameWorks(s, desired);
    if Enabled(s, desired, e.survey, e.action, e.target) {
      DriveWorks(s, desired, e.survey, e.action, e.target, e.deleted);
    }
  }

  lemma SentinelPassWorks(s: State, desired: string, e: Event)
    requires Inv(s) && e.SentinelPass?
    ensures Works(s, Step(s, desired, e), desired)
  {
    SameWorks(s, desired);
    if EnabledSentinel(s, desired, e.survey, e.master, e.action) {
      DriveSentinelWorks(s, desired, e.survey, e.master, e.action, e.elected, e.deleted);
    }
  }

  lemma PodWorks(s: State, desired: string, e: Event)
    requires Inv(s) && (e.Recreated? || e.BecameReady?)
    ensures Works(s, Step(s, desired, e), desired)
  {
    SameWorks(s, desired);
    if e.Recreated? && e.pod in s.absent { RecreatedWorks(s, desired, e.pod); }
    if e.BecameReady? && e.pod < |s.pods| && e.pod !in s.absent { ReadyWorks(s, desired, e.pod); }
  }

  lemma StepWorks(s: State, desired: string, e: Event)
    requires Inv(s) && (e.Pass? ==> e.promoted)
    ensures Works(s, Step(s, desired, e), desired)
  {
    if e.Pass? { PassWorks(s, desired, e); }
    else if e.SentinelPass? { SentinelPassWorks(s, desired, e); }
    else { PodWorks(s, desired, e); }
  }

  // ----------------------------------------------------------------- theorems

  /**
   In every run where only the operator disrupts pods, at most one pod is not serving,
   it is never the primary, every delete replaced a stale pod, and the handovers done
   plus the one still due never change.
   */
  lemma {:induction false} RolloutSafety(s: State, desired: string, events: seq<Event>)
    requires Inv(s) && PromotionsWork(events)
    ensures var t := Exec(s, desired, events);
            && |Disrupted(t)| <= 1 && (t.primary.Some? ==> t.primary.value !in Disrupted(t))
            && |Stale(t, desired)| + t.deletes == |Stale(s, desired)| + s.deletes
            && (if StalePrimary(t, desired) then 1 else 0) + t.handovers
                  == (if StalePrimary(s, desired) then 1 else 0) + s.handovers
    ensures Works(s, Exec(s, desired, events), desired)
  {
    if events != [] {
      var before, e := events[..|events| - 1], events[|events| - 1];
      assert e in events;
      RolloutSafety(s, desired, before);
      var t := Exec(s, desired, before);
      StepWorks(t, desired, e);
    }
  }

  /**
   A rollout that has nothing left to decide did exactly one delete per stale pod and one handover
   for a stale primary.
   */
  lemma ExactWork(s: State, desired: string, events: seq<Event>)
    requires Inv(s) && PromotionsWork(events) && desired != "" && s.deletes == 0 && s.handovers == 0
    requires var t := Exec(s, desired, events); t.absent == {} && Decides(t.pods, desired, t.primary, Done)
    ensures var t := Exec(s, desired, events);
            t.deletes == |Stale(s, desired)| && t.handovers == if StalePrimary(s, desired) then 1 else 0
  {
    RolloutSafety(s, desired, events);
    var t := Exec(s, desired, events);
    forall i | 0 <= i < |t.pods| ensures t.pods[i].revision == desired { assert t.pods[i] in t.pods; }
    assert Stale(t, desired) == {};
  }

  /** A stale pod among Ready ones calls for a roll or a handover. */
  lemma RealAction(s: State, desired: string, action: Action)
    requires Numbered(s) && Disrupted(s) == {} && Stale(s, desired) != {} && desired != ""
    requires Decides(s.pods, desired, s.primary, action)
    ensures action.RollReplica? || action.HandOver?
    ensures action.RollReplica? && s.primary.Some? ==> |s.pods| > 1
  {
    var i :| i in Stale(s, desired);
    assert s.pods[i] in s.pods;
    forall p | p in s.pods ensures p.ready {
      var k :| 0 <= k < |s.pods| && s.pods[k] == p;
      assert k !in Disrupted(s);
    }
  }

  /** When only the primary is stale, every other pod can take over. */
  lemma TargetIff(s: State, desired: string, survey: Survey, action: Action, target: Option<nat>)
    requires Numbered(s) && Disrupted(s) == {} && action.HandOver?
    requires Enabled(s, desired, survey, action, target) && forall i :: 0 <= i < |survey| ==> survey[i].reachable
    ensures target.Some? <==> |s.pods| > 1
  {
    Chosen(s, desired, action);
    if |s.pods| > 1 {
      var r := if action.pod == 0 then 1 else 0;
      assert r !in Stale(s, desired) && s.pods[r] in s.pods && s.pods[r].ready;
      assert FreshReady(s.pods, desired, s.primary, r);
      assert Candidate(survey, s.pods, desired, s.primary, r);
    }
  }

  /**
   Progress: with every pod serving and answering and a pod stale, a pass whose commands
   succeed deletes a pod, except when the set is a lone primary: that one is never restarted.
   */
  lemma ProgressIff(s: State, desired: string, survey: Survey, action: Action, target: Option<nat>)
    requires Inv(s) && Disrupted(s) == {} && Stale(s, desired) != {} && desired != ""
    requires Enabled(s, desired, survey, action, target) && forall i :: 0 <= i < |survey| ==> survey[i].reachable
    ensures var t := Step(s, desired, Pass(survey, action, target, true, true));
            if |s.pods| > 1 || s.primary.None? then t.deletes == s.deletes + 1 else t == s
  {
    RealAction(s, desired, action);
    Chosen(s, desired, action);
    if action.HandOver? { TargetIff(s, desired, survey, action, target); }
  }

  /**
   Promotion must work: the old primary is deleted even when it does not, and then, and
   only then, a pass leaves the primary not serving.
   */
  lemma FailedPromotionDisrupts(s: State, desired: string, survey: Survey, action: Action, target: Option<nat>,
                                promoted: bool)
    requires Inv(s) && Enabled(s, desired, survey, action, target) && action.HandOver? && target.Some?
    ensures var after := Step(s, desired, Pass(survey, action, target, promoted, true));
            after.primary.Some? && (after.primary.value in Disrupted(after) <==> !promoted)
  {
    Chosen(s, desired, action);
    if promoted { DriveWorks(s, desired, survey, action, target, true); }
  }
}
