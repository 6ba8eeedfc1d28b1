/**
 Replication failover: each pass surveys the pods, settles on one primary (the
 authoritative master, or a promoted replica) and points every other reachable pod at it.
 */
module Failover {
  import opened Common
  import Debounce

  const DOWN_AFTER: nat := 20  // seconds

  datatype Role = Master | Slave | Unknown

  /** The operator's view of pod number i, at index i of the survey. */
  datatype PodRole = PodRole(host: string, role: Role, masterHost: string, linkUp: bool, offset: int,
                             keys: nat, reachable: bool)

  type Survey = seq<PodRole>

  datatype Verdict = Hold | Adopt(pod: nat) | Promote(pod: nat)

  // ---------------------------------------------------------------- decision

  function Reachable(survey: Survey): set<nat> { set i | 0 <= i < |survey| && survey[i].reachable }

  predicate IsA(survey: Survey, i: int, role: Role) {
    0 <= i < |survey| && survey[i].reachable && survey[i].role == role
  }

  /** betterMaster: most keys, then the pod that already is the primary, then the lowest ordinal. */
  predicate BetterMaster(survey: Survey, primary: Option<nat>, a: nat, b: nat)
    requires a < |survey| && b < |survey|
  {
    if survey[a].keys != survey[b].keys then survey[a].keys > survey[b].keys
    else if (primary == Some(a)) != (primary == Some(b)) then primary == Some(a)
    else a < b
  }

  /** More keys, or as many and a higher offset. */
  predicate BetterReplica(survey: Survey, a: nat, b: nat)
    requires a < |survey| && b < |survey|
  {
    survey[a].keys > survey[b].keys || (survey[a].keys == survey[b].keys && survey[a].offset > survey[b].offset)
  }

  ghost predicate Authoritative(survey: Survey, primary: Option<nat>, m: nat) {
    IsA(survey, m, Master) && forall j: nat :: IsA(survey, j, Master) && j != m ==> BetterMaster(survey, primary, m, j)
  }

  ghost predicate BestReplica(survey: Survey, r: nat) {
    && IsA(survey, r, Slave)
    && (forall j: nat :: IsA(survey, j, Slave) ==> !BetterReplica(survey, j, r))
    && (forall j: nat :: IsA(survey, j, Slave) && j < r ==> BetterReplica(survey, r, j))
  }

  /** What a pass does; `elapsed` is the answer of the debounce, asked only when no master is reachable. */
  ghost predicate Decides(survey: Survey, primary: Option<nat>, elapsed: bool, v: Verdict) {
    if |Reachable(survey)| < 2 then v == Hold
    else if exists m: nat :: IsA(survey, m, Master) then
      exists m: nat :: Authoritative(survey, primary, m) &&
        (if survey[m].keys == 0 && (exists r: nat :: IsA(survey, r, Slave) && survey[r].keys > 0)
         then v.Promote? && BestReplica(survey, v.pod)
         else v == Adopt(m))
    else if elapsed && (exists r: nat :: IsA(survey, r, Slave)) then v.Promote? && BestReplica(survey, v.pod)
    else v == Hold
  }

  /** betterMaster is a strict total order, so the adopted master is the one maximum. */
  lemma MasterOrder(survey: Survey, primary: Option<nat>, a: nat, b: nat, c: nat)
    requires a < |survey| && b < |survey| && c < |survey|
    ensures !BetterMaster(survey, primary, a, a)
    ensures a != b ==> BetterMaster(survey, primary, a, b) != BetterMaster(survey, primary, b, a)
    ensures BetterMaster(survey, primary, a, b) && BetterMaster(survey, primary, b, c) ==>
          BetterMaster(survey, primary, a, c)
    ensures Authoritative(survey, primary, a) && Authoritative(survey, primary, b) ==> a == b
  {
  }

  method PickAuthoritativeMaster(survey: Survey, primary: Option<nat>, masters: seq<nat>) returns (best: nat)
    requires masters != [] && forall k :: 0 <= k < |masters| ==> IsA(survey, masters[k], Master)
    requires forall m: nat :: IsA(survey, m, Master) ==> m in masters
    ensures Authoritative(survey, primary, best)
  {
    best := masters[0];
    for k := 1 to |masters|
      invariant IsA(survey, best, Master)
      invariant forall j :: 0 <= j < k && masters[j] != best ==> BetterMaster(survey, primary, best, masters[j])
    {
      ghost var was := best;
      if BetterMaster(survey, primary, masters[k], best) { best := masters[k]; }
      forall j | 0 <= j <= k && masters[j] != best ensures BetterMaster(survey, primary, best, masters[j]) {
        MasterOrder(survey, primary, best, was, masters[j]);
        MasterOrder(survey, primary, was, masters[k], masters[j]);
      }
    }
  }

  // -------------------------------------------------------------- the pass

  datatype Live = Live(role: Role, masterHost: string)

  datatype Answer = NoDial | Fails | Works

  datatype Command = MakePrimary(pod: nat) | PointAt(pod: nat, primary: nat)

  /** Pod i replicates from the primary over a link that is up. */
  predicate Follows(survey: Survey, primary: nat, i: nat)
    requires primary < |survey| && i < |survey|
  {
    survey[i].role == Slave && survey[i].masterHost == survey[primary].host && survey[i].linkUp
  }

  /** enforceReplication leaves alone unreachable pods, the primary, and pods already following it. */
  predicate Touched(survey: Survey, primary: nat, i: nat)
    requires primary < |survey|
  {
    i < |survey| && survey[i].reachable && i != primary && !Follows(survey, primary, i)
  }

  function Enforced(live: seq<Live>, survey: Survey, primary: nat, answers: seq<Answer>): seq<Live>
    requires |live| == |survey| == |answers| && primary < |survey|
  {
    seq(|live|, i requires 0 <= i < |live| =>
      if Touched(survey, primary, i) && answers[i] == Works then Live(Slave, survey[primary].host) else live[i])
  }

  /** The pods after a pass: promotion first, and the rest only if it worked. */
  function LiveAfter(live: seq<Live>, survey: Survey, v: Verdict, answers: seq<Answer>): seq<Live>
    requires |live| == |survey| == |answers| && (v.Hold? || v.pod < |survey|)
  {
    match v
    case Hold => live
    case Adopt(p) => Enforced(live, survey, p, answers)
    case Promote(p) =>
      if answers[p] != Works then live else Enforced(live[p := Live(Master, "")], survey, p, answers)
  }

  /**
   A pass sends pod i a REPLICAOF to its primary: a failed promotion points no one, nor is an
   unreachable pod pointed.
   */
  predicate Pointed(survey: Survey, v: Verdict, answers: seq<Answer>, i: nat)
    requires |answers| == |survey| && !v.Hold? && v.pod < |survey|
  {
    Touched(survey, v.pod, i) && answers[i] != NoDial && (v.Promote? ==> answers[v.pod] == Works)
  }

  /** How a pass bears on the debounce of a missing master. */
  ghost function Seen(survey: Survey): Debounce.Observation {
    if |Reachable(survey)| < 2 then Debounce.Blind
    else if exists m: nat :: IsA(survey, m, Master) then Debounce.Healthy
    else if exists r: nat :: IsA(survey, r, Slave) then Debounce.Stuck
    else Debounce.Blind
  }

  /** The survey loop: how many answer, which are masters, and the replica with most data. */
  method Assess(survey: Survey) returns (reachable: nat, masters: seq<nat>, best: Option<nat>)
    ensures reachable == |Reachable(survey)|
    ensures forall m: nat :: m in masters <==> IsA(survey, m, Master)
    ensures best.Some? ==> BestReplica(survey, best.value)
    ensures best.None? ==> forall r: nat :: !IsA(survey, r, Slave)
  {
    reachable, masters, best := 0, [], None;
    ghost var seen: set<nat> := {};
    for i := 0 to |survey|
      invariant seen == set k | 0 <= k < i && survey[k].reachable
      invariant reachable == |seen|
      invariant forall m: nat :: m in masters <==> m < i && IsA(survey, m, Master)
      invariant best.Some? ==> best.value < i && IsA(survey, best.value, Slave)
      invariant best.Some? ==> forall j: nat :: j < i && IsA(survey, j, Slave) ==> !BetterReplica(survey, j, best.value)
      invariant best.Some? ==> forall j: nat :: j < best.value && IsA(survey, j, Slave) ==>
            BetterReplica(survey, best.value, j)
      invariant best.None? ==> forall r: nat :: r < i ==> !IsA(survey, r, Slave)
    {
      if survey[i].reachable {
        reachable := reachable + 1;
        seen := seen + {i};
        match survey[i].role
        case Master => masters := masters + [i];
        case Slave => if best.None? || BetterReplica(survey, i, best.value) { best := Some(i); }
        case Unknown =>
      }
    }
    assert seen == Reachable(survey);
  }

  /** Pods and status as the operator changes them; `sent` is every REPLICAOF that reached a pod. */
  class Operator {
    var live: seq<Live>
    var primary: Option<nat>
    var downSince: Option<nat>
    var sent: seq<Command>

    constructor (live: seq<Live>, primary: Option<nat>)
      ensures this.live == live && this.primary == primary && downSince == None && sent == []
    {
      this.live, this.primary, downSince, sent := live, primary, None, [];
    }

    method EnforceReplication(survey: Survey, primary: nat, answers: seq<Answer>)
      requires |live| == |survey| == |answers| && primary < |survey|
      modifies this`live, this`sent
      ensures live == Enforced(old(live), survey, primary, answers)
      ensures old(sent) <= sent
      ensures forall c :: c in sent[|old(sent)|..] <==>
                c.PointAt? && c.primary == primary && Touched(survey, primary, c.pod) && answers[c.pod] != NoDial
    {
      for i := 0 to |survey|
        invariant |live| == |survey| && old(sent) <= sent
        invariant forall k :: 0 <= k < i ==> live[k] == Enforced(old(live), survey, primary, answers)[k]
        invariant forall k :: i <= k < |live| ==> live[k] == old(live)[k]
        invariant forall c :: c in sent[|old(sent)|..] <==>
                    c.PointAt? && c.primary == primary && c.pod < i && Touched(survey, primary, c.pod)
                          && answers[c.pod] != NoDial
      {
        if Touched(survey, primary, i) && answers[i] != NoDial {
          ghost var before := sent;
          sent := sent + [PointAt(i, primary)];
          assert sent[|old(sent)|..] == before[|old(sent)|..] + [PointAt(i, primary)];
          if answers[i] == Works { live := live[i := Live(Slave, survey[primary].host)]; }
        }
      }
    }

    /** REPLICAOF NO ONE on the target, then everyone else; a failed promotion points no one anywhere. */
    method PromoteReplica(survey: Survey, target: nat, answers: seq<Answer>) returns (result: Option<nat>)
      requires |live| == |survey| == |answers| && target < |survey|
      modifies this`live, this`sent
      ensures live == LiveAfter(old(live), survey, Promote(target), answers)
      ensures result == if answers[target] == Works then Some(target) else primary
      ensures old(sent) <= sent
      ensures forall c :: c in sent[|old(sent)|..] && c.PointAt? <==>
                c.PointAt? && c.primary == target && Pointed(survey, Promote(target), answers, c.pod)
    {
      if answers[target] == NoDial { return primary; }
      sent := sent + [MakePrimary(target)];
      if answers[target] != Works { return primary; }
      live := live[target := Live(Master, "")];
      ghost var mid := sent;
      EnforceReplication(survey, target, answers);
      assert sent[|old(sent)|..] == [MakePrimary(target)] + sent[|mid|..];
      result := Some(target);
    }

    method ReconcileFailover(survey: Survey, answers: seq<Answer>, now: nat)
      returns (result: Option<nat>, ghost v: Verdict)
      requires |live| == |survey| == |answers|
      modifies this
      ensures Decides(survey, old(primary), Debounce.Elapsed(old(downSince), now, DOWN_AFTER), v)
            && (v.Hold? || v.pod < |survey|)
      ensures live == LiveAfter(old(live), survey, v, answers)
      ensures downSince == Debounce.After(old(downSince), Debounce.Pass(now, Seen(survey)), DOWN_AFTER, true)
      ensures result == if v.Adopt? || (v.Promote? && answers[v.pod] == Works) then Some(v.pod) else old(primary)
      ensures primary == old(primary) && old(sent) <= sent
      ensures forall c :: c in sent[|old(sent)|..] && c.PointAt? <==>
                c.PointAt? && !v.Hold? && c.primary == v.pod && Pointed(survey, v, answers, c.pod)
    {
      var reachable, masters, best := Assess(survey);
      v := Hold;
      if reachable < 2 { return primary, Hold; }
      if |masters| > 0 {
        downSince := None;
        var chosen := PickAuthoritativeMaster(survey, primary, masters);
        if survey[chosen].keys == 0 && best.Some? && survey[best.value].keys > 0 {
          v := Promote(best.value);
          result := PromoteReplica(survey, best.value, answers);
          return result, v;
        }
        v := Adopt(chosen);
        EnforceReplication(survey, chosen, answers);
        return Some(chosen), v;
      }
      if best.None? { return primary, Hold; }
      if downSince.None? {
        downSince := Some(now);
        return primary, Hold;
      }
      if now < downSince.value + DOWN_AFTER { return primary, Hold; }
      downSince := None;
      v := Promote(best.value);
      result := PromoteReplica(survey, best.value, answers);
    }
  }

  // ----------------------------------------------------------------- theorems

  /** `held` is what the pods really hold: DBSIZE reads it, and a DBSIZE that fails leaves zero. */
  ghost predicate Reads(survey: Survey, held: seq<nat>) {
    |held| == |survey| && forall i :: 0 <= i < |survey| ==> survey[i].keys == held[i] || survey[i].keys == 0
  }

  /**
   Empty-master guard: whatever the survey and whichever commands fail, pods are
   pointed at a primary without keys only if no reachable pod of known role shows any;
   so none holds any, unless its DBSIZE failed.
   */
  lemma EmptyMasterGuard(survey: Survey, held: seq<nat>, primary: Option<nat>, elapsed: bool, v: Verdict, i: nat)
    requires Decides(survey, primary, elapsed, v) && !v.Hold? && Reads(survey, held)
    requires i < |survey| && survey[i].reachable && survey[i].role != Unknown
    ensures v.pod < |survey| && (survey[v.pod].keys > 0 || survey[i].keys == 0)
    ensures survey[i].keys == held[i] ==> held[v.pod] > 0 || held[i] == 0
  {
    if m: nat :| IsA(survey, m, Master) {
      var a: nat :| Authoritative(survey, primary, a);
      if survey[i].role == Master && i != a { assert BetterMaster(survey, primary, a, i); }
      if v.Promote? {
        if survey[i].role == Slave { assert IsA(survey, i, Slave); assert !BetterReplica(survey, i, v.pod); }
        else { assert IsA(survey, i, Master); }
      } else if survey[i].role == Slave {
        assert IsA(survey, i, Slave);
        MasterOrder(survey, primary, a, v.pod, a);
      } else {
        MasterOrder(survey, primary, a, v.pod, a);
      }
    } else {
      assert !IsA(survey, i, Master) && IsA(survey, i, Slave);
      assert !BetterReplica(survey, i, v.pod);
    }
  }

  /** A pod that answers and holds keys, but whose role or key count could not be read. */
  ghost predicate Unread(survey: Survey, held: seq<nat>, i: nat)
    requires |held| == |survey|
  {
    i < |survey| && survey[i].reachable && held[i] > 0 && (survey[i].role == Unknown || survey[i].keys == 0)
  }

  /**
   What the guard does not see: a pass points a pod that holds keys at a primary that
   holds none exactly when it points a pod holding keys whose INFO or DBSIZE failed; that is,
   when such a pod does not follow that primary already, can be dialed, and the promotion,
   if there is one, worked.
   */
  lemma GuardMisses(survey: Survey, held: seq<nat>, primary: Option<nat>, elapsed: bool, v: Verdict,
                    answers: seq<Answer>)
    requires Decides(survey, primary, elapsed, v) && !v.Hold? && Reads(survey, held) && |answers| == |survey|
    requires v.pod < |survey| && held[v.pod] == 0
    ensures (exists i: nat :: Pointed(survey, v, answers, i) && held[i] > 0)
       <==> (v.Promote? ==> answers[v.pod] == Works)
            && exists i: nat :: Unread(survey, held, i) && !Follows(survey, v.pod, i) && answers[i] != NoDial
  {
    if i: nat :| Pointed(survey, v, answers, i) && held[i] > 0 {
      if survey[i].role != Unknown { EmptyMasterGuard(survey, held, primary, elapsed, v, i); }
      assert Unread(survey, held, i) && !Follows(survey, v.pod, i);
    }
    if i: nat :| Unread(survey, held, i) && !Follows(survey, v.pod, i) && answers[i] != NoDial {
      assert (v.Promote? ==> answers[v.pod] == Works) ==> Pointed(survey, v, answers, i);
    }
  }

  /** The survey reports what the reachable pods are; hosts are the pods' own, all different. */
  ghost predicate Reports(live: seq<Live>, survey: Survey) {
    && |live| == |survey|
    && (forall i, j :: 0 <= i < j < |survey| ==> survey[i].host != survey[j].host)
    && (forall i :: 0 <= i < |survey| && survey[i].reachable && survey[i].role != Unknown
          ==> live[i].role == survey[i].role && (survey[i].role == Slave ==>
                live[i].masterHost == survey[i].masterHost))
  }

  /** One master among the reachable pods, all others replicating from it directly. */
  ghost predicate Star(live: seq<Live>, survey: Survey, p: nat) {
    && |live| == |survey| && p < |survey| && survey[p].reachable && live[p].role == Master
    && forall i :: 0 <= i < |survey| && survey[i].reachable && i != p ==> live[i] == Live(Slave, survey[p].host)
  }

  /** Convergence in one pass, from any mix of masters, chains and role-less pods. */
  lemma ConvergesInOnePass(live: seq<Live>, survey: Survey, primary: Option<nat>, elapsed: bool, v: Verdict,
                           answers: seq<Answer>)
    requires Reports(live, survey) && |answers| == |survey|
    requires Decides(survey, primary, elapsed, v) && !v.Hold?
    requires forall i :: 0 <= i < |survey| && survey[i].reachable ==> answers[i] == Works
    ensures v.pod < |survey| && Star(LiveAfter(live, survey, v, answers), survey, v.pod)
  {
    if v.Adopt? {
      var m: nat :| Authoritative(survey, primary, m) && v == Adopt(m);
    }
    var after := LiveAfter(live, survey, v, answers);
    forall i | 0 <= i < |survey| && survey[i].reachable && i != v.pod
      ensures after[i] == Live(Slave, survey[v.pod].host)
    {
      if !Touched(survey, v.pod, i) { assert live[i].role == Slave && live[i].masterHost == survey[v.pod].host; }
    }
  }

  /** A later survey of a settled star: the same pods answer and links are up. */
  ghost predicate Settled(live: seq<Live>, survey: Survey, p: nat) {
    && Star(live, survey, p) && survey[p].role == Master && |Reachable(survey)| >= 2
    && forall i :: 0 <= i < |survey| && survey[i].reachable && i != p ==> Follows(survey, p, i)
  }

  /**
   Stability: once links are up another pass keeps the primary exactly when the primary
   shows keys or no reachable pod does. It then sends nothing and changes nothing;
   otherwise the empty-master guard fails over a healthy star, to a replica that shows keys.
   */
  lemma SettledStays(live: seq<Live>, survey: Survey, p: nat, primary: Option<nat>, elapsed: bool, v: Verdict,
                     answers: seq<Answer>)
    requires Settled(live, survey, p) && |answers| == |survey|
    requires Decides(survey, primary, elapsed, v)
    ensures v == Adopt(p) <==>
          survey[p].keys > 0 || forall i :: 0 <= i < |survey| && survey[i].reachable ==> survey[i].keys == 0
    ensures v == Adopt(p) || (v.Promote? && v.pod < |survey| && v.pod != p && survey[v.pod].keys > 0)
    ensures v == Adopt(p) ==> (forall i: nat :: !Touched(survey, p, i)) && LiveAfter(live, survey, v, answers) == live
  {
    assert IsA(survey, p, Master);
    var m: nat :| Authoritative(survey, primary, m);
    assert m == p;
    if i :| 0 <= i < |survey| && survey[i].reachable && survey[i].keys > 0 && i != p { assert IsA(survey, i, Slave); }
    if v.Promote? {
      var r: nat :| IsA(survey, r, Slave) && survey[r].keys > 0;
      assert !BetterReplica(survey, r, v.pod);
    }
  }

  /** The debounce passes of a history of timed surveys. */
  ghost function Passes(history: seq<(nat, Survey)>): seq<Debounce.Pass> {
    seq(|history|, i requires 0 <= i < |history| => Debounce.Pass(history[i].0, Seen(history[i].1)))
  }

  /**
   In every sequence of passes, a replica is promoted for want of a master only when an
   earlier pass, at least 20 seconds before, found none either, and no pass since saw a
   master among two or more reachable pods.
   */
  lemma NoMasterPromotionWaits(history: seq<(nat, Survey)>, i: nat, primary: Option<nat>, v: Verdict) returns (j: int)
    requires i < |history| && v.Promote? && forall m: nat :: !IsA(history[i].1, m, Master)
    requires var since := Debounce.Marker(Passes(history)[..i], DOWN_AFTER, true);
             Decides(history[i].1, primary, Debounce.Elapsed(since, history[i].0, DOWN_AFTER), v)
    ensures 0 <= j < i && history[i].0 >= history[j].0 + DOWN_AFTER && Seen(history[j].1) == Debounce.Stuck
    ensures forall k :: j <= k <= i ==> |Reachable(history[k].1)| < 2 || forall m: nat :: !IsA(history[k].1, m, Master)
  {
    var passes := Passes(history);
    assert Seen(history[i].1) == Debounce.Stuck;
    j := Debounce.ActsOnlyAfterWait(passes, i, DOWN_AFTER, true);
    assert passes[j].seen == Seen(history[j].1) && passes[j].now == history[j].0;
    forall k | j <= k <= i ensures |Reachable(history[k].1)| < 2 || forall m: nat :: !IsA(history[k].1, m, Master) {
      assert passes[k].seen == Seen(history[k].1);
    }
  }
}
