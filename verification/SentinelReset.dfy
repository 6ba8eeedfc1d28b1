/**
 Clearing dead entries from the Sentinels: one SENTINEL RESET at a time, while the
 Sentinels rediscover their peers on their own and come and go between two reads.
 */
module SentinelReset {
  import opened Common

  /** What the operator reads from one Sentinel. */
  datatype View = View(ordinal: nat, master: string, flags: string, others: nat, stale: nat)

  predicate Dirty(v: View, replicas: nat) { v.others > replicas - 1 || v.stale > 0 }

  /** Every Sentinel is up, sees the same healthy master, and knows at least all its peers. */
  ghost predicate AllAgree(views: seq<View>, replicas: nat) {
    && |views| == replicas > 0
    && forall i :: 0 <= i < |views| ==>
          views[i].master == views[0].master && views[i].flags == "master" && views[i].others >= replicas - 1
  }

  ghost predicate FirstDirty(views: seq<View>, replicas: nat, i: int) {
    0 <= i < |views| && Dirty(views[i], replicas) && forall k :: 0 <= k < i ==> !Dirty(views[k], replicas)
  }

  /** pickSentinelToReset names the first dirty Sentinel, if all agree. */
  method PickSentinelToReset(views: seq<View>, replicas: nat) returns (pick: Option<nat>)
    ensures pick.Some? <==> AllAgree(views, replicas) && exists i :: 0 <= i < |views| && Dirty(views[i], replicas)
    ensures pick.Some? ==> exists i :: FirstDirty(views, replicas, i) && views[i].ordinal == pick.value
  {
    if |views| == 0 || |views| != replicas { return None; }
    for i := 0 to |views|
      invariant forall k :: 0 <= k < i ==>
                  views[k].master == views[0].master && views[k].flags == "master" && views[k].others >= replicas - 1
    {
      var v := views[i];
      if v.master != views[0].master || v.flags != "master" || v.others < replicas - 1 { return None; }
    }
    for i := 0 to |views|
      invariant forall k :: 0 <= k < i ==> !Dirty(views[k], replicas)
    {
      if Dirty(views[i], replicas) {
        assert FirstDirty(views, replicas, i);
        return Some(views[i].ordinal);
      }
    }
    return None;
  }

  // ---------------------------------------------------------------- protocol

  /** A Sentinel: live peers it knows, dead peer and replica entries it still counts, and how it answers. */
  datatype Sentinel = Sentinel(live: nat, dead: nat, stale: nat, up: bool, master: string, flags: string)

  /** A pass reads the Sentinels one after the other. */
  datatype Pass = Resting | Collecting(next: nat, views: seq<View>)

  datatype State = State(sentinels: seq<Sentinel>, pass: Pass, resets: nat)

  datatype Event =
    | Discover(i: nat)                                            // one peer is found again
    | Behave(i: nat, up: bool, master: string, flags: string)     // a Sentinel goes, comes back or changes its mind
    | StartPass
    | Collect                                                     // read the next Sentinel
    | Decide(delivered: bool)                                     // pick and send SENTINEL RESET

  function Read(s: Sentinel, i: nat): View { View(i, s.master, s.flags, s.live + s.dead, s.stale) }

  /** SENTINEL RESET forgets every peer and replica entry, dead or alive. */
  function Reset(s: Sentinel): Sentinel { s.(live := 0, dead := 0, stale := 0) }

  ghost function Step(s: State, e: Event): State {
    var n := |s.sentinels|;
    match e
    case Discover(i) =>
      if i < n && s.sentinels[i].live + 1 < n
      then s.(sentinels := s.sentinels[i := s.sentinels[i].(live := s.sentinels[i].live + 1)]) else s
    case Behave(i, up, master, flags) =>
      if i < n then s.(sentinels := s.sentinels[i := s.sentinels[i].(up := up, master := master, flags := flags)])
            else s
    case StartPass => if s.pass.Resting? then s.(pass := Collecting(0, [])) else s
    case Collect =>
      if s.pass.Resting? || s.pass.next >= n then s
      else
        var i := s.pass.next;
        s.(pass := Collecting(i + 1, s.pass.views + if s.sentinels[i].up then [Read(s.sentinels[i], i)] else []))
    case Decide(delivered) =>
      if s.pass.Resting? || s.pass.next < n then s
      else if delivered && AllAgree(s.pass.views, n) && exists i :: FirstDirty(s.pass.views, n, i) then
        var i :| FirstDirty(s.pass.views, n, i);
        var o := s.pass.views[i].ordinal;
        if o < n then State(s.sentinels[o := Reset(s.sentinels[o])], Resting, s.resets + 1) else s.(pass := Resting)
      else s.(pass := Resting)
  }

  ghost function Exec(s: State, events: seq<Event>): State {
    if events == [] then s else Step(Exec(s, events[..|events| - 1]), events[|events| - 1])
  }

  /** Sentinels with an incomplete view of their peers. */
  ghost function Incomplete(s: State): set<nat> {
    set i: nat | i < |s.sentinels| && s.sentinels[i].live + 1 < |s.sentinels|
  }

  /** Sentinels with dead entries. */
  ghost function DirtyOnes(s: State): set<nat> {
    set i: nat | i < |s.sentinels| && (s.sentinels[i].dead > 0 || s.sentinels[i].stale > 0)
  }

  ghost predicate Init(s: State) {
    && s.sentinels != [] && s.pass == Resting && s.resets == 0
    && forall i :: 0 <= i < |s.sentinels| ==> s.sentinels[i].live == |s.sentinels| - 1
  }

  /** A view collected in this pass is no newer than what its Sentinel knows now. */
  ghost predicate Recorded(v: View, s: State) {
    && v.ordinal < |s.sentinels|
    && v.others <= s.sentinels[v.ordinal].live + s.sentinels[v.ordinal].dead
    && v.stale == s.sentinels[v.ordinal].stale
  }

  ghost predicate PassInv(s: State) {
    s.pass.Resting? ||
    var views := s.pass.views;
    && s.pass.next <= |s.sentinels| && |views| <= s.pass.next
    && (forall k :: 0 <= k < |views| ==> Recorded(views[k], s) && views[k].ordinal < s.pass.next)
    && (|views| == s.pass.next ==> forall k :: 0 <= k < |views| ==> views[k].ordinal == k)
  }

  ghost predicate SentinelInv(s: State, i: nat)
    requires i < |s.sentinels|
  {
    var x := s.sentinels[i];
    x.live + 1 <= |s.sentinels| && (x.live + 1 < |s.sentinels| ==> x.dead == 0 && x.stale == 0)
  }

  ghost predicate Inv(s: State) {
    && s.sentinels != []
    && (forall i: nat :: i < |s.sentinels| ==> SentinelInv(s, i))
    && |Incomplete(s)| <= 1 && PassInv(s)
  }

  lemma DiscoverKeeps(s: State, i: nat)
    requires Inv(s)
    ensures Inv(Step(s, Discover(i))) && DirtyOnes(Step(s, Discover(i))) == DirtyOnes(s)
  {
    var t := Step(s, Discover(i));
    forall k: nat | k < |t.sentinels| ensures SentinelInv(t, k) { assert SentinelInv(s, k); }
    SmallerSet(Incomplete(t), Incomplete(s));
  }

  lemma BehaveKeeps(s: State, i: nat, up: bool, master: string, flags: string)
    requires Inv(s)
    ensures var t := Step(s, Behave(i, up, master, flags)); Inv(t) && DirtyOnes(t) == DirtyOnes(s)
  {
    var t := Step(s, Behave(i, up, master, flags));
    forall k: nat | k < |t.sentinels| ensures SentinelInv(t, k) { assert SentinelInv(s, k); }
    assert Incomplete(t) == Incomplete(s);
  }

  /** Full agreement at decision time means every Sentinel is complete at that time, the dirty one included. */
  lemma AgreementIsComplete(s: State)
    requires Inv(s) && s.pass.Collecting? && s.pass.next == |s.sentinels| && AllAgree(s.pass.views, |s.sentinels|)
    ensures Incomplete(s) == {}
  {
    forall i: nat | i < |s.sentinels| ensures i !in Incomplete(s) {
      assert SentinelInv(s, i) && Recorded(s.pass.views[i], s) && s.pass.views[i].ordinal == i;
    }
  }

  /** What a reset does to the state. */
  ghost function AfterReset(s: State, o: nat): State
    requires o < |s.sentinels|
  {
    State(s.sentinels[o := Reset(s.sentinels[o])], Resting, s.resets + 1)
  }

  /** A decision on views that agree resets the first dirty one. */
  lemma DecideIs(s: State, i: nat)
    requires s.pass.Collecting? && s.pass.next >= |s.sentinels| && AllAgree(s.pass.views, |s.sentinels|)
    requires FirstDirty(s.pass.views, |s.sentinels|, i) && s.pass.views[i].ordinal < |s.sentinels|
    ensures Step(s, Decide(true)) == AfterReset(s, s.pass.views[i].ordinal)
  {
    var n := |s.sentinels|;
    forall j | FirstDirty(s.pass.views, n, j) ensures j == i {}
  }

  lemma ResetKeeps(s: State, o: nat)
    requires Inv(s) && Incomplete(s) == {} && o in DirtyOnes(s)
    ensures Inv(AfterReset(s, o)) && DirtyOnes(AfterReset(s, o)) == DirtyOnes(s) - {o}
  {
    var t := AfterReset(s, o);
    forall k: nat | k < |t.sentinels| ensures SentinelInv(t, k) { assert SentinelInv(s, k); }
    assert DirtyOnes(t) == DirtyOnes(s) - {o};
    forall k | k in Incomplete(t) ensures k in {o} { assert k !in Incomplete(s); }
    SmallerSet(Incomplete(t), {o});
  }

  /** A dirty view is one of a dirty Sentinel, once every peer is known. */
  lemma DirtyViewIsDirty(s: State, i: nat)
    requires Inv(s) && s.pass.Collecting? && Incomplete(s) == {}
    requires i < |s.pass.views| && Dirty(s.pass.views[i], |s.sentinels|)
    ensures s.pass.views[i].ordinal in DirtyOnes(s)
  {
    var v := s.pass.views[i];
    assert Recorded(v, s) && SentinelInv(s, v.ordinal);
  }

  lemma SameSentinels(s: State, t: State)
    requires t.sentinels == s.sentinels
    ensures Incomplete(t) == Incomplete(s) && DirtyOnes(t) == DirtyOnes(s)
    ensures forall i: nat :: i < |s.sentinels| && SentinelInv(s, i) ==> SentinelInv(t, i)
  {
  }

  lemma DecideKeeps(s: State, delivered: bool)
    requires Inv(s)
    ensures var t := Step(s, Decide(delivered));
            Inv(t) && t.resets + |DirtyOnes(t)| == s.resets + |DirtyOnes(s)|
  {
    var t := Step(s, Decide(delivered));
    var n := |s.sentinels|;
    if delivered && s.pass.Collecting? && s.pass.next >= n && AllAgree(s.pass.views, n)
      && exists i: nat :: FirstDirty(s.pass.views, n, i)
    {
      var i: nat :| FirstDirty(s.pass.views, n, i);
      AgreementIsComplete(s);
      DirtyViewIsDirty(s, i);
      DecideIs(s, i);
      ResetKeeps(s, s.pass.views[i].ordinal);
    } else {
      SameSentinels(s, t);
    }
  }

  lemma CollectKeeps(s: State)
    requires Inv(s)
    ensures Inv(Step(s, Collect)) && DirtyOnes(Step(s, Collect)) == DirtyOnes(s)
  {
    SameSentinels(s, Step(s, Collect));
  }

  lemma StepKeeps(s: State, e: Event)
    requires Inv(s)
    ensures Inv(Step(s, e)) && Step(s, e).resets + |DirtyOnes(Step(s, e))| == s.resets + |DirtyOnes(s)|
  {
    match e
    case Discover(i) => DiscoverKeeps(s, i);
    case Behave(i, up, master, flags) => BehaveKeeps(s, i, up, master, flags);
    case StartPass => SameSentinels(s, Step(s, StartPass));
    case Collect => CollectKeeps(s);
    case Decide(delivered) => DecideKeeps(s, delivered);
  }

  /**
   In every interleaving of passes, rediscovery and Sentinels coming and going: at most
   one Sentinel has an incomplete view of its peers, and resets done plus Sentinels still
   dirty is the number dirty at the start.
   */
  lemma {:induction false} OneAtATime(s: State, events: seq<Event>)
    requires Init(s)
    ensures var t := Exec(s, events);
            Inv(t) && |Incomplete(t)| <= 1 && t.resets + |DirtyOnes(t)| == |DirtyOnes(s)|
  {
    if events == [] {
      assert Incomplete(s) == {};
    } else {
      OneAtATime(s, events[..|events| - 1]);
      StepKeeps(Exec(s, events[..|events| - 1]), events[|events| - 1]);
    }
  }

  /** A reset is sent only when every Sentinel answered, agreed on a healthy master, and none was incomplete. */
  lemma ResetOnlyInAgreement(s: State, events: seq<Event>, e: Event)
    requires Init(s) && Step(Exec(s, events), e).resets != Exec(s, events).resets
    ensures var t := Exec(s, events);
            e == Decide(true) && t.pass.Collecting? && AllAgree(t.pass.views, |t.sentinels|) && Incomplete(t) == {}
  {
    OneAtATime(s, events);
    AgreementIsComplete(Exec(s, events));
  }

  // ---------------------------------------------------------------- progress

  /** No pass under way, every Sentinel answering, all agreeing on a healthy master. */
  ghost predicate Calm(s: State) {
    && s.pass == Resting && s.sentinels != []
    && forall i :: 0 <= i < |s.sentinels| ==>
         s.sentinels[i].up && s.sentinels[i].flags == "master" && s.sentinels[i].master == s.sentinels[0].master
  }

  lemma ExecNext(s: State, events: seq<Event>, e: Event)
    ensures Exec(s, events + [e]) == Step(Exec(s, events), e)
  {
    assert (events + [e])[..|events|] == events;
  }

  lemma {:induction false} ExecConcat(s: State, a: seq<Event>, b: seq<Event>)
    ensures Exec(s, a + b) == Exec(Exec(s, a), b)
  {
    if b == [] {
      assert a + b == a;
    } else {
      ExecConcat(s, a, b[..|b| - 1]);
      ExecNext(s, a + b[..|b| - 1], b[|b| - 1]);
      AppendLast(a, b);
    }
  }

  /** A pass up to reading the first k Sentinels, with nothing else happening. */
  function Reads(k: nat): seq<Event> { if k == 0 then [StartPass] else Reads(k - 1) + [Collect] }

  function WholePass(n: nat): seq<Event> { Reads(n) + [Decide(true)] }

  /** The pass has reached t from a calm s, having read the first k Sentinels. */
  ghost predicate ReadUpTo(s: State, t: State, k: nat) {
    && t.sentinels == s.sentinels && t.resets == s.resets && t.pass.Collecting?
    && t.pass.next == k == |t.pass.views| <= |s.sentinels|
    && forall i :: 0 <= i < k ==> t.pass.views[i] == Read(s.sentinels[i], i)
  }

  lemma CollectOne(s: State, t: State, k: nat)
    requires Calm(s) && ReadUpTo(s, t, k) && k < |s.sentinels|
    ensures ReadUpTo(s, Step(t, Collect), k + 1)
  {
  }

  /** Reading the first k Sentinels of a calm state. */
  lemma {:induction false} CollectFirst(s: State, k: nat)
    requires Calm(s) && k <= |s.sentinels|
    ensures ReadUpTo(s, Exec(s, Reads(k)), k)
  {
    if k == 0 {
      ExecNext(s, [], StartPass);
      assert [] + [StartPass] == Reads(0);
    } else {
      CollectFirst(s, k - 1);
      ExecNext(s, Reads(k - 1), Collect);
      CollectOne(s, Exec(s, Reads(k - 1)), k - 1);
    }
  }

  lemma CalmViews(s: State, views: seq<View>)
    requires Inv(s) && Calm(s) && Incomplete(s) == {} && |views| == |s.sentinels|
    requires forall i :: 0 <= i < |views| ==> views[i] == Read(s.sentinels[i], i)
    ensures AllAgree(views, |s.sentinels|)
    ensures forall i: nat :: i < |views| ==> (Dirty(views[i], |s.sentinels|) <==> i in DirtyOnes(s))
  {
    var n := |s.sentinels|;
    forall i: nat | i < n ensures views[i].others >= n - 1 && (Dirty(views[i], n) <==> i in DirtyOnes(s)) {
      assert SentinelInv(s, i) && i !in Incomplete(s);
    }
  }

  lemma {:induction false} FindFirstDirty(views: seq<View>, replicas: nat, d: nat) returns (i: nat)
    requires d < |views| && Dirty(views[d], replicas)
    ensures FirstDirty(views, replicas, i)
    decreases d
  {
    if k: nat :| k < d && Dirty(views[k], replicas) { i := FindFirstDirty(views, replicas, k); } else { i := d; }
  }

  /** Any calm pass with every peer known resets a dirty Sentinel. */
  lemma PassResets(s: State) returns (o: nat)
    requires Inv(s) && Calm(s) && Incomplete(s) == {} && DirtyOnes(s) != {}
    ensures o in DirtyOnes(s) && Exec(s, WholePass(|s.sentinels|)) == AfterReset(s, o)
  {
    var n := |s.sentinels|;
    CollectFirst(s, n);
    var t := Exec(s, Reads(n));
    CalmViews(s, t.pass.views);
    var d: nat :| d in DirtyOnes(s);
    o := FindFirstDirty(t.pass.views, n, d);
    ExecNext(s, Reads(n), Decide(true));
    DecideIs(t, o);
  }

  /** The reset Sentinel o knows k of its peers again. */
  ghost function Knowing(s: State, o: nat, k: nat): State
    requires o < |s.sentinels|
  {
    s.(sentinels := s.sentinels[o := s.sentinels[o].(live := k)])
  }

  lemma FoundOne(s: State, o: nat, k: nat)
    requires o < |s.sentinels| && 0 < k < |s.sentinels|
    ensures Step(Knowing(s, o, k - 1), Discover(o)) == Knowing(s, o, k)
  {
    assert Step(Knowing(s, o, k - 1), Discover(o)).sentinels == Knowing(s, o, k).sentinels;
  }

  /** The reset Sentinel finds its peers again, one after the other. */
  lemma {:induction false} Rediscovers(s: State, o: nat, k: nat) returns (events: seq<Event>)
    requires o < |s.sentinels| && s.sentinels[o].live == 0 && k < |s.sentinels|
    ensures Exec(s, events) == Knowing(s, o, k)
  {
    if k == 0 {
      events := [];
      assert Knowing(s, o, 0).sentinels == s.sentinels;
    } else {
      var before := Rediscovers(s, o, k - 1);
      ExecNext(s, before, Discover(o));
      FoundOne(s, o, k);
      events := before + [Discover(o)];
    }
  }

  lemma OneCleaned(s: State, u: State, o: nat)
    requires Inv(s) && Calm(s) && Incomplete(s) == {} && o in DirtyOnes(s)
    requires u == State(s.sentinels[o := Reset(s.sentinels[o]).(live := |s.sentinels| - 1)], Resting, s.resets + 1)
    ensures Inv(u) && Calm(u) && Incomplete(u) == {} && DirtyOnes(u) == DirtyOnes(s) - {o}
  {
    forall k: nat | k < |u.sentinels| ensures SentinelInv(u, k) && k !in Incomplete(u) {
      assert SentinelInv(s, k) && k !in Incomplete(s);
    }
    assert Incomplete(u) == {};
    assert DirtyOnes(u) == DirtyOnes(s) - {o};
  }

  /** Such runs exist: from a calm state every dirty Sentinel is cleaned, with one reset each. */
  lemma {:induction false} AllCleaned(s: State) returns (events: seq<Event>)
    requires Inv(s) && Calm(s) && Incomplete(s) == {}
    ensures var t := Exec(s, events); DirtyOnes(t) == {} && t.resets == s.resets + |DirtyOnes(s)|
    decreases |DirtyOnes(s)|
  {
    if DirtyOnes(s) == {} {
      events := [];
    } else {
      var a := WholePass(|s.sentinels|);
      var o := PassResets(s);
      var t := Exec(s, a);
      var b := Rediscovers(t, o, |s.sentinels| - 1);
      var u := Exec(t, b);
      OneCleaned(s, u, o);
      var c := AllCleaned(u);
      ExecConcat(s, a, b);
      ExecConcat(s, a + b, c);
      events := a + b + c;
    }
  }

  // ------------------------------------------------------------- every fair run

  /** A run: whatever happens, then a whole pass, again and again. */
  ghost function Rounds(s: State, waits: seq<seq<Event>>): State {
    if waits == [] then s
    else Exec(Exec(Rounds(s, waits[..|waits| - 1]), waits[|waits| - 1]), WholePass(|s.sentinels|))
  }

  /** Each of those passes starts calm, with every Sentinel knowing its peers again. */
  ghost predicate Fair(s: State, waits: seq<seq<Event>>) {
    waits == [] ||
    var front := waits[..|waits| - 1];
    var t := Exec(Rounds(s, front), waits[|waits| - 1]);
    Fair(s, front) && Calm(t) && Incomplete(t) == {}
  }

  lemma {:induction false} ExecKeeps(s: State, events: seq<Event>)
    requires Inv(s)
    ensures var t := Exec(s, events);
            && Inv(t) && |t.sentinels| == |s.sentinels| && s.resets <= t.resets
            && t.resets + |DirtyOnes(t)| == s.resets + |DirtyOnes(s)|
  {
    if events != [] {
      ExecKeeps(s, events[..|events| - 1]);
      StepKeeps(Exec(s, events[..|events| - 1]), events[|events| - 1]);
    }
  }

  /** One round cleans one more Sentinel, if any is dirty. */
  lemma RoundCleans(s: State, wait: seq<Event>)
    requires Inv(s) && Calm(Exec(s, wait)) && Incomplete(Exec(s, wait)) == {}
    ensures var t := Exec(Exec(s, wait), WholePass(|s.sentinels|));
            && Inv(t) && |t.sentinels| == |s.sentinels| && t.resets + |DirtyOnes(t)| == s.resets + |DirtyOnes(s)|
            && (|DirtyOnes(t)| < |DirtyOnes(s)| || DirtyOnes(t) == {})
  {
    ExecKeeps(s, wait);
    var u := Exec(s, wait);
    ExecKeeps(u, WholePass(|s.sentinels|));
    if DirtyOnes(u) != {} { var o := PassResets(u); }
  }

  /**
   It terminates: in every run, whatever happens between its passes, as many fair passes
   as there were dirty Sentinels clean them all, with exactly one reset each.
   */
  lemma {:induction false} FairRunsClean(s: State, waits: seq<seq<Event>>)
    requires Init(s) && Fair(s, waits)
    ensures var t := Rounds(s, waits);
            && Inv(t) && |t.sentinels| == |s.sentinels| && t.resets + |DirtyOnes(t)| == |DirtyOnes(s)|
            && (DirtyOnes(t) == {} || |DirtyOnes(t)| + |waits| <= |DirtyOnes(s)|)
    ensures |waits| >= |DirtyOnes(s)| ==> DirtyOnes(Rounds(s, waits)) == {} && Rounds(s, waits).resets == |DirtyOnes(s)|
  {
    if waits == [] {
      OneAtATime(s, []);
    } else {
      FairRunsClean(s, waits[..|waits| - 1]);
      RoundCleans(Rounds(s, waits[..|waits| - 1]), waits[|waits| - 1]);
    }
  }
}
