/**
 The persisted debounce both recoveries share: a marker set on the first stuck
 pass, cleared by a healthy one, and a wait measured from it.
 */
module Debounce {
  import opened Common

  datatype Observation =
    | Healthy  // clears the marker
    | Blind    // says nothing either way
    | Stuck    // starts or continues the wait

  datatype Pass = Pass(now: nat, seen: Observation)

  /** downElapsed on the persisted marker. */
  predicate Elapsed(since: Option<nat>, now: nat, threshold: nat) {
    since.Some? && now >= since.value + threshold
  }

  predicate Acts(since: Option<nat>, p: Pass, threshold: nat) {
    p.seen == Stuck && Elapsed(since, p.now, threshold)
  }

  /** The marker after one pass; some recoveries also clear it when they act. */
  function After(since: Option<nat>, p: Pass, threshold: nat, clearsOnAct: bool): Option<nat> {
    match p.seen
    case Healthy => None
    case Blind => since
    case Stuck => if since.None? then Some(p.now) else if clearsOnAct && Elapsed(since, p.now, threshold) then None
          else since
  }

  function Marker(passes: seq<Pass>, threshold: nat, clearsOnAct: bool): Option<nat> {
    if passes == [] then None
    else After(Marker(passes[..|passes| - 1], threshold, clearsOnAct), passes[|passes| - 1], threshold, clearsOnAct)
  }

  /** Pass j set the marker that is still standing after all of `passes`. */
  ghost predicate Set(passes: seq<Pass>, j: int, threshold: nat, clearsOnAct: bool) {
    && 0 <= j < |passes| && passes[j].seen == Stuck
    && (forall k :: j <= k < |passes| ==> passes[k].seen != Healthy)
    && (clearsOnAct ==> forall k :: j <= k < |passes| ==>
          !(passes[k].seen == Stuck && passes[k].now >= passes[j].now + threshold && k > j))
  }

  lemma {:induction false} MarkerWasSet(passes: seq<Pass>, threshold: nat, clearsOnAct: bool) returns (j: int)
    requires Marker(passes, threshold, clearsOnAct).Some?
    ensures Set(passes, j, threshold, clearsOnAct) && passes[j].now == Marker(passes, threshold, clearsOnAct).value
  {
    var n := |passes| - 1;
    var front := passes[..n];
    if Marker(front, threshold, clearsOnAct).None? {
      j := n;
    } else {
      j := MarkerWasSet(front, threshold, clearsOnAct);
      assert forall k :: 0 <= k < n ==> front[k] == passes[k];
    }
  }

  /**
   In every sequence of passes, an action at pass i waits out the whole window: some
   earlier stuck pass is at least `threshold` older, and no pass since saw the system
   healthy (nor, where acting clears the marker, already acted).
   */
  lemma ActsOnlyAfterWait(passes: seq<Pass>, i: nat, threshold: nat, clearsOnAct: bool) returns (j: int)
    requires i < |passes| && Acts(Marker(passes[..i], threshold, clearsOnAct), passes[i], threshold)
    ensures 0 <= j < i && passes[j].seen == Stuck && passes[i].now >= passes[j].now + threshold
    ensures forall k :: j <= k <= i ==> passes[k].seen != Healthy
    ensures clearsOnAct ==> forall k :: j < k < i && passes[k].seen == Stuck ==>
          passes[k].now < passes[j].now + threshold
  {
    j := MarkerWasSet(passes[..i], threshold, clearsOnAct);
    assert forall k :: 0 <= k < i ==> passes[..i][k] == passes[k];
  }

  /** A marker set by pass j stands until a healthy pass or, where acting clears it, until a pass acts. */
  lemma {:induction false} MarkerStands(passes: seq<Pass>, j: nat, i: nat, threshold: nat, clearsOnAct: bool)
    requires j < i <= |passes| && Marker(passes[..j], threshold, clearsOnAct).None? && passes[j].seen == Stuck
    requires forall k :: j <= k < i ==> passes[k].seen != Healthy
    requires clearsOnAct ==> forall k :: j < k < i && passes[k].seen == Stuck ==>
          passes[k].now < passes[j].now + threshold
    ensures Marker(passes[..i], threshold, clearsOnAct) == Some(passes[j].now)
  {
    assert passes[..i][..i - 1] == passes[..i - 1];
    if j < i - 1 { MarkerStands(passes, j, i - 1, threshold, clearsOnAct); }
  }

  lemma {:induction false} FirstElapsed(passes: seq<Pass>, j: nat, i: nat, threshold: nat) returns (k: nat)
    requires j < i < |passes| && passes[i].seen == Stuck && passes[i].now >= passes[j].now + threshold
    ensures j < k <= i && passes[k].seen == Stuck && passes[k].now >= passes[j].now + threshold
    ensures forall m :: j < m < k && passes[m].seen == Stuck ==> passes[m].now < passes[j].now + threshold
    decreases i
  {
    if m: nat :| j < m < i && passes[m].seen == Stuck && passes[m].now >= passes[j].now + threshold {
      k := FirstElapsed(passes, j, m, threshold);
    } else {
      k := i;
    }
  }

  /**
   Conversely, waiting out the window is enough: a problem first seen at pass j and still
   there, never healthy in between, at a pass i a full window later is acted on, by pass i
   or, where acting clears the marker, by the first stuck pass to find the window elapsed.
   */
  lemma WaitIsEnough(passes: seq<Pass>, j: nat, i: nat, threshold: nat, clearsOnAct: bool) returns (k: nat)
    requires j < i < |passes| && Marker(passes[..j], threshold, clearsOnAct).None?
    requires passes[j].seen == Stuck && passes[i].seen == Stuck && passes[i].now >= passes[j].now + threshold
    requires forall m :: j <= m < i ==> passes[m].seen != Healthy
    ensures j < k <= i && Acts(Marker(passes[..k], threshold, clearsOnAct), passes[k], threshold)
    ensures !clearsOnAct ==> k == i
    ensures forall m :: j < m < k && passes[m].seen == Stuck && clearsOnAct ==>
          passes[m].now < passes[j].now + threshold
  {
    k := i;
    if clearsOnAct { k := FirstElapsed(passes, j, i, threshold); }
    MarkerStands(passes, j, k, threshold, clearsOnAct);
  }
}
