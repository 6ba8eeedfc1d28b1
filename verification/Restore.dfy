/**
 Backup and restore of a Cluster's slot map: the dump loop that pairs each master's
 RDB with its manifest line, the assembly that gives every restored master the slots
 its RDB did not bring, and the round-robin of replicas.
 */
module Restore {
  import opened Common
  import opened ClusterNodes

  // ------------------------------------------------------ slots and ranges

  function Span(lo: nat, hi: nat): seq<nat>
    decreases hi
  {
    if lo > hi then [] else if lo == hi then [lo] else Span(lo, hi - 1) + [hi]
  }

  /** The slots of a list of ranges, in order. */
  function Expand(ranges: seq<Range>): seq<nat> {
    if ranges == [] then []
    else Expand(ranges[..|ranges| - 1]) + Span(ranges[|ranges| - 1].lo, ranges[|ranges| - 1].hi)
  }

  ghost predicate Ascending(s: seq<nat>) { forall i, j :: 0 <= i < j < |s| ==> s[i] < s[j] }

  /** Every range holds at least one slot. */
  ghost predicate Proper(ranges: seq<Range>) {
    forall k :: 0 <= k < |ranges| ==> ranges[k].lo <= ranges[k].hi
  }

  /** No range could be merged with the one before it. */
  ghost predicate Maximal(ranges: seq<Range>) {
    forall j, k :: 0 <= j && k == j + 1 && k < |ranges| ==> ranges[k].lo != ranges[j].hi + 1
  }

  lemma {:induction false} SpanIs(lo: nat, hi: nat)
    requires lo <= hi
    ensures |Span(lo, hi)| == hi - lo + 1 && Span(lo, hi)[0] == lo && Span(lo, hi)[hi - lo] == hi
    decreases hi
  {
    if lo < hi { SpanIs(lo, hi - 1); }
  }

  lemma ExpandAppend(ranges: seq<Range>, r: Range)
    ensures Expand(ranges + [r]) == Expand(ranges) + Span(r.lo, r.hi)
  {
    assert (ranges + [r])[..|ranges|] == ranges;
  }

  /** Ranges that hold slots and cannot be merged. */
  ghost predicate Tight(ranges: seq<Range>) { Proper(ranges) && Maximal(ranges) }

  ghost predicate Apart(ranges: seq<Range>, lo: nat) { ranges != [] ==> lo != ranges[|ranges| - 1].hi + 1 }

  lemma TightAppend(ranges: seq<Range>, r: Range)
    requires Tight(ranges) && r.lo <= r.hi && Apart(ranges, r.lo)
    ensures Tight(ranges + [r])
  {
    var all := ranges + [r];
    forall j, k | 0 <= j && k == j + 1 && k < |all| ensures all[k].lo != all[j].hi + 1 {
      if k < |ranges| { assert all[k] == ranges[k] && all[j] == ranges[j]; }
    }
  }

  /** The collapser after i slots: `ranges` closed, lo to p still open. */
  ghost predicate Collapsed(slots: seq<nat>, i: nat, ranges: seq<Range>, lo: nat, p: nat) {
    i <= |slots| && lo <= p && Tight(ranges) && Apart(ranges, lo) && Expand(ranges) + Span(lo, p) == slots[..i]
  }

  lemma Extended(slots: seq<nat>, i: nat, ranges: seq<Range>, lo: nat, p: nat)
    requires i < |slots| && Collapsed(slots, i, ranges, lo, p) && slots[i] == p + 1
    ensures Collapsed(slots, i + 1, ranges, lo, p + 1)
  {
    var done := Expand(ranges);
    assert slots[..i + 1] == slots[..i] + [p + 1];
    assert done + (Span(lo, p) + [p + 1]) == (done + Span(lo, p)) + [p + 1];
  }

  lemma Closed(slots: seq<nat>, i: nat, ranges: seq<Range>, lo: nat, p: nat)
    requires Collapsed(slots, i, ranges, lo, p)
    ensures Tight(ranges + [Range(lo, p)]) && Expand(ranges + [Range(lo, p)]) == slots[..i]
  {
    TightAppend(ranges, Range(lo, p));
    ExpandAppend(ranges, Range(lo, p));
  }

  lemma Reopened(slots: seq<nat>, i: nat, ranges: seq<Range>)
    requires i < |slots| && Tight(ranges) && Expand(ranges) == slots[..i] && Apart(ranges, slots[i])
    ensures Collapsed(slots, i + 1, ranges, slots[i], slots[i])
  {
    assert slots[..i + 1] == slots[..i] + [slots[i]];
  }

  /** The one-pass collapser: whatever the input, expanding its ranges gives the input back, and none can be merged. */
  method Collapse(slots: seq<nat>) returns (ranges: seq<Range>)
    ensures Expand(ranges) == slots && Proper(ranges) && Maximal(ranges)
  {
    ranges := [];
    if |slots| == 0 { return; }
    var lo, p := slots[0], slots[0];
    Reopened(slots, 0, []);
    for i := 1 to |slots|
      invariant Collapsed(slots, i, ranges, lo, p)
    {
      if slots[i] != p + 1 {
        Closed(slots, i, ranges, lo, p);
        ranges := ranges + [Range(lo, p)];
        Reopened(slots, i, ranges);
        lo := slots[i];
      } else {
        Extended(slots, i, ranges, lo, p);
      }
      p := slots[i];
    }
    Closed(slots, |slots|, ranges, lo, p);
    ranges := ranges + [Range(lo, p)];
    assert slots[..|slots|] == slots;
  }

  lemma {:induction false} ExpandAt(ranges: seq<Range>, k: nat)
    requires Proper(ranges) && k < |ranges|
    ensures Expand(ranges[..k]) + Span(ranges[k].lo, ranges[k].hi) <= Expand(ranges)
  {
    if k == |ranges| - 1 {
    } else {
      var front := ranges[..|ranges| - 1];
      ExpandAt(front, k);
      assert front[..k] == ranges[..k];
    }
  }

  lemma ExpandTwo(ranges: seq<Range>, k: nat)
    requires Proper(ranges) && 0 < k < |ranges|
    ensures var r, q := ranges[k - 1], ranges[k];
            Expand(ranges[..k - 1]) + Span(r.lo, r.hi) + Span(q.lo, q.hi) <= Expand(ranges)
  {
    assert ranges[..k] == ranges[..k - 1] + [ranges[k - 1]];
    ExpandAppend(ranges[..k - 1], ranges[k - 1]);
    ExpandAt(ranges, k);
  }

  lemma Neighbours(s: seq<nat>, head: seq<nat>, a: seq<nat>, b: seq<nat>)
    requires Ascending(s) && head + a + b <= s && a != [] && b != []
    ensures a[|a| - 1] < b[0]
  {
    var n := |head| + |a|;
    assert s[n - 1] == (head + a + b)[n - 1] && s[n] == (head + a + b)[n];
  }

  /** On ascending slots the ranges come out ascending, disjoint and separated by a gap. */
  lemma RangesAscend(ranges: seq<Range>, k: nat)
    requires Proper(ranges) && Maximal(ranges) && Ascending(Expand(ranges)) && 0 < k < |ranges|
    ensures ranges[k - 1].hi + 1 < ranges[k].lo
  {
    var r, q := ranges[k - 1], ranges[k];
    ExpandTwo(ranges, k);
    SpanIs(r.lo, r.hi);
    SpanIs(q.lo, q.hi);
    Neighbours(Expand(ranges), Expand(ranges[..k - 1]), Span(r.lo, r.hi), Span(q.lo, q.hi));
  }

  /** want minus have, in want's order. */
  function Minus(want: seq<nat>, have: seq<nat>): seq<nat> {
    if want == [] then []
    else
      var front := Minus(want[..|want| - 1], have);
      if want[|want| - 1] in have then front else front + [want[|want| - 1]]
  }

  lemma {:induction false} MinusIs(want: seq<nat>, have: seq<nat>)
    ensures forall x :: x in Minus(want, have) <==> x in want && x !in have
  {
    if want != [] {
      MinusIs(want[..|want| - 1], have);
      assert want == want[..|want| - 1] + [want[|want| - 1]];
    }
  }

  lemma BelowLast(want: seq<nat>, have: seq<nat>, x: nat)
    requires Ascending(want) && want != [] && x in Minus(want[..|want| - 1], have)
    ensures x < want[|want| - 1]
  {
    var front := want[..|want| - 1];
    MinusIs(front, have);
    var k :| 0 <= k < |front| && front[k] == x;
    assert want[k] == x;
  }

  lemma AppendAscends(s: seq<nat>, last: nat)
    requires Ascending(s) && forall x :: x in s ==> x < last
    ensures Ascending(s + [last])
  {
    forall i, j | 0 <= i < j < |s| + 1 ensures (s + [last])[i] < (s + [last])[j] {
      if j == |s| { assert s[i] in s; }
    }
  }

  lemma {:induction false} MinusAscends(want: seq<nat>, have: seq<nat>)
    requires Ascending(want)
    ensures Ascending(Minus(want, have))
  {
    if want != [] {
      var front, last := want[..|want| - 1], want[|want| - 1];
      MinusAscends(front, have);
      forall x | x in Minus(front, have) ensures x < last { BelowLast(want, have, x); }
      AppendAscends(Minus(front, have), last);
    }
  }

  /**
   The gap of one shard: the slots the manifest gives it that its RDB did not claim, as
   ascending, disjoint, unmergeable ranges.
   */
  method GapRanges(want: seq<nat>, have: seq<nat>) returns (ranges: seq<Range>)
    requires Ascending(want)
    ensures Expand(ranges) == Minus(want, have) && Proper(ranges)
    ensures forall j, k :: 0 <= j && k == j + 1 && k < |ranges| ==> ranges[j].hi + 1 < ranges[k].lo
    ensures forall x :: x in Expand(ranges) ==> x in want && x !in have
  {
    var gap: seq<nat> := [];
    for i := 0 to |want|
      invariant gap == Minus(want[..i], have)
    {
      assert want[..i + 1][..i] == want[..i];
      if want[i] !in have { gap := gap + [want[i]]; }
    }
    assert want[..|want|] == want;
    MinusIs(want, have);
    MinusAscends(want, have);
    ranges := Collapse(gap);
    forall j, k | 0 <= j && k == j + 1 && k < |ranges| ensures ranges[j].hi + 1 < ranges[k].lo {
      RangesAscend(ranges, k);
    }
  }

  // ----------------------------------------------------------------- backup

  /** A pod at backup time: the slots it owns when it is a master, and the RDB a dump of it yields. */
  datatype Pod = Pod(isMaster: bool, ranges: seq<Range>, rdb: nat)

  /** A manifest line shard-<shard>. */
  datatype Entry = Entry(shard: nat, ranges: seq<Range>)

  /** The masters in host order. */
  function MastersIn(pods: seq<Pod>): seq<Pod> {
    if pods == [] then []
    else
      var front := MastersIn(pods[..|pods| - 1]);
      if pods[|pods| - 1].isMaster then front + [pods[|pods| - 1]] else front
  }

  /** The dump loop: line shard-i of the manifest and file shard-i.rdb come from the same master, the i-th. */
  method Backup(pods: seq<Pod>) returns (manifest: seq<Entry>, rdbs: seq<nat>)
    ensures |manifest| == |rdbs| == |MastersIn(pods)|
    ensures forall k :: 0 <= k < |manifest| ==>
          manifest[k] == Entry(k, MastersIn(pods)[k].ranges) && rdbs[k] == MastersIn(pods)[k].rdb
  {
    manifest, rdbs := [], [];
    var i := 0;
    for h := 0 to |pods|
      invariant i == |manifest| == |rdbs| == |MastersIn(pods[..h])|
      invariant forall k :: 0 <= k < i ==>
            manifest[k] == Entry(k, MastersIn(pods[..h])[k].ranges) && rdbs[k] == MastersIn(pods[..h])[k].rdb
    {
      assert pods[..h + 1][..h] == pods[..h];
      if pods[h].isMaster {
        rdbs := rdbs + [pods[h].rdb];
        manifest := manifest + [Entry(i, pods[h].ranges)];
        i := i + 1;
      }
    }
    assert pods[..|pods|] == pods;
  }

  // ---------------------------------------------------------------- restore

  /** A restored node: the RDB it loaded, if any, and the slots it owns. */
  datatype Restored = Restored(rdb: Option<nat>, slots: seq<nat>)

  /** Master ordinals load shard-<ordinal>.rdb; an RDB brings a part `brought[k]` of its master's slots. */
  function Loaded(total: nat, shards: nat, rdbs: seq<nat>, brought: seq<seq<nat>>): seq<Restored>
    requires |rdbs| == |brought| == shards
  {
    seq(total, o requires 0 <= o < total => if o < shards
          then Restored(Some(rdbs[o]), brought[o]) else Restored(None, []))
  }

  /** What goes wrong on one line: whether CLUSTER NODES answers, and which of its ADDSLOTSRANGE commands fail. */
  datatype Luck = Luck(answered: bool, rejected: set<nat>)

  /** An attempt in which nothing goes wrong. */
  predicate Good(luck: seq<Luck>) { forall k :: 0 <= k < |luck| ==> luck[k] == Luck(true, {}) }

  /** One line of the manifest processed: the ranges computed from what the query showed, and the failures. */
  datatype Event = Process(shard: nat, ranges: seq<Range>, luck: Luck)

  /** A node takes a range whole, or not at all when the command fails or one of its slots is busy. */
  function AddRanges(slots: seq<nat>, ranges: seq<Range>, rejected: set<nat>): seq<nat> {
    if ranges == [] then slots
    else
      var n := |ranges| - 1;
      var before, more := AddRanges(slots, ranges[..n], rejected), Span(ranges[n].lo, ranges[n].hi);
      if n in rejected || exists x :: x in more && x in before then before else before + more
  }

  /** A failed query reads as a node that owns nothing. */
  function Shown(node: Restored, luck: Luck): seq<nat> { if luck.answered then node.slots else [] }

  ghost predicate Enabled(manifest: seq<Entry>, nodes: seq<Restored>, e: Event) {
    && e.shard < |manifest| && e.shard < |nodes|
    && Expand(e.ranges) == Minus(Expand(manifest[e.shard].ranges), Shown(nodes[e.shard], e.luck))
  }

  ghost function Step(manifest: seq<Entry>, nodes: seq<Restored>, e: Event): seq<Restored> {
    if !Enabled(manifest, nodes, e) then nodes
    else
      var node := nodes[e.shard];
      nodes[e.shard := node.(slots := AddRanges(node.slots, e.ranges, e.luck.rejected))]
  }

  /** Any lines in any order, any number of times: attempts cut short anywhere, and restarts. */
  ghost function Exec(manifest: seq<Entry>, nodes: seq<Restored>, events: seq<Event>): seq<Restored> {
    if events == [] then nodes
    else Step(manifest, Exec(manifest, nodes, events[..|events| - 1]), events[|events| - 1])
  }

  lemma ExecNext(manifest: seq<Entry>, nodes: seq<Restored>, events: seq<Event>, e: Event)
    ensures Exec(manifest, nodes, events + [e]) == Step(manifest, Exec(manifest, nodes, events), e)
  {
    assert (events + [e])[..|events|] == events;
  }

  /** What is added comes from the ranges, and nothing is lost. */
  lemma {:induction false} AddRangesWithin(slots: seq<nat>, ranges: seq<Range>, rejected: set<nat>)
    ensures slots <= AddRanges(slots, ranges, rejected)
    ensures forall x :: x in AddRanges(slots, ranges, rejected) ==> x in slots || x in Expand(ranges)
  {
    if ranges != [] { AddRangesWithin(slots, ranges[..|ranges| - 1], rejected); }
  }

  lemma PrefixAscends(a: seq<nat>, b: seq<nat>)
    requires Ascending(a + b)
    ensures Ascending(a) && forall x :: x in a ==> x in a + b && x !in b
    ensures forall x :: x in b ==> x in a + b
  {
    forall i, j | 0 <= i < j < |a| ensures a[i] < a[j] { assert (a + b)[i] < (a + b)[j]; }
    forall i, j | 0 <= i < |a| && 0 <= j < |b| ensures a[i] < b[j] {
      assert (a + b)[i] < (a + b)[|a| + j];
    }
  }

  /** With nothing rejected and nothing busy, every range is added. */
  lemma {:induction false} AddRangesAll(slots: seq<nat>, ranges: seq<Range>)
    requires Ascending(Expand(ranges)) && forall x :: x in Expand(ranges) ==> x !in slots
    ensures AddRanges(slots, ranges, {}) == slots + Expand(ranges)
  {
    if ranges == [] {
      assert slots + [] == slots;
    } else {
      var n := |ranges| - 1;
      var front, more := Expand(ranges[..n]), Span(ranges[n].lo, ranges[n].hi);
      PrefixAscends(front, more);
      AddRangesAll(slots, ranges[..n]);
      assert slots + front + more == slots + (front + more);
    }
  }

  /** Master m of the backup owns the slot. */
  ghost predicate OwnedBy(masters: seq<Pod>, slot: nat, m: nat) {
    m < |masters| && slot in Expand(masters[m].ranges)
  }

  /** Every node owns only slots of its own line. */
  ghost predicate OwnLine(masters: seq<Pod>, nodes: seq<Restored>) {
    forall slot: nat, o: nat :: o < |nodes| && slot in nodes[o].slots ==> OwnedBy(masters, slot, o)
  }

  /** A node owns exactly what the master whose dump it loaded owned at backup. */
  ghost predicate SameMap(masters: seq<Pod>, nodes: seq<Restored>) {
    forall slot: nat, o: nat :: o < |nodes| ==> (slot in nodes[o].slots <==> OwnedBy(masters, slot, o))
  }

  ghost predicate Covered(masters: seq<Pod>, slot: nat) { exists m: nat :: OwnedBy(masters, slot, m) }

  /** Some node owns the slot. */
  ghost predicate Served(nodes: seq<Restored>, slot: nat) {
    exists o :: 0 <= o < |nodes| && slot in nodes[o].slots
  }

  /** What the last step of the script waits for: all slots assigned. */
  ghost predicate AllAssigned(nodes: seq<Restored>) { forall slot: nat :: slot < SLOTS ==> Served(nodes, slot) }

  /** Every slot is owned by exactly one master of a complete cluster, and there are no others. */
  ghost predicate Complete(masters: seq<Pod>) {
    && (forall slot: nat :: slot < SLOTS ==> Covered(masters, slot))
    && (forall slot: nat, m: nat :: OwnedBy(masters, slot, m) ==> slot < SLOTS)
    && (forall slot: nat, m: nat, n: nat :: OwnedBy(masters, slot, m) && OwnedBy(masters, slot, n) ==> m == n)
  }

  /** The manifest of a backup of those masters. */
  ghost predicate ManifestOf(manifest: seq<Entry>, masters: seq<Pod>) {
    |manifest| == |masters| && forall k :: 0 <= k < |masters| ==> manifest[k] == Entry(k, masters[k].ranges)
  }

  lemma LineKeeps(masters: seq<Pod>, manifest: seq<Entry>, nodes: seq<Restored>, e: Event)
    requires ManifestOf(manifest, masters) && OwnLine(masters, nodes)
    ensures var after := Step(manifest, nodes, e);
            && OwnLine(masters, after) && |after| == |nodes|
            && forall o :: 0 <= o < |nodes| ==> after[o].rdb == nodes[o].rdb
  {
    if Enabled(manifest, nodes, e) {
      var node := nodes[e.shard];
      MinusIs(Expand(manifest[e.shard].ranges), Shown(node, e.luck));
      AddRangesWithin(node.slots, e.ranges, e.luck.rejected);
      var after := Step(manifest, nodes, e);
      forall slot: nat, o: nat | o < |after| && slot in after[o].slots ensures OwnedBy(masters, slot, o) {
        assert o != e.shard ==> after[o] == nodes[o];
      }
    }
  }

  /** Through failing queries, rejected ranges and restarts, every node owns only slots of its own line. */
  lemma {:induction false} OwnLineOnly(masters: seq<Pod>, manifest: seq<Entry>, nodes: seq<Restored>,
                                       events: seq<Event>)
    requires ManifestOf(manifest, masters) && OwnLine(masters, nodes)
    ensures var after := Exec(manifest, nodes, events);
            && OwnLine(masters, after) && |after| == |nodes|
            && forall o :: 0 <= o < |nodes| ==> after[o].rdb == nodes[o].rdb
  {
    if events != [] {
      OwnLineOnly(masters, manifest, nodes, events[..|events| - 1]);
      LineKeeps(masters, manifest, Exec(manifest, nodes, events[..|events| - 1]), events[|events| - 1]);
    }
  }

  /** Nodes that own only their own line's slots own all slots exactly when they own the map of the backup. */
  lemma AssignedIff(masters: seq<Pod>, nodes: seq<Restored>)
    requires Complete(masters) && |masters| <= |nodes| && OwnLine(masters, nodes)
    ensures AllAssigned(nodes) <==> SameMap(masters, nodes)
  {
    if AllAssigned(nodes) {
      forall slot: nat, o: nat | o < |nodes| && OwnedBy(masters, slot, o) ensures slot in nodes[o].slots {
        assert Served(nodes, slot);
        var p :| 0 <= p < |nodes| && slot in nodes[p].slots;
        assert OwnedBy(masters, slot, p);
      }
    }
    if SameMap(masters, nodes) {
      forall slot: nat | slot < SLOTS ensures Served(nodes, slot) {
        assert Covered(masters, slot);
        var m: nat :| OwnedBy(masters, slot, m);
        assert slot in nodes[m].slots;
      }
    }
  }

  /**
   The slot map comes back: whatever part of its slots each RDB brings, and through any run
   of the assembly, all slots are assigned exactly when every node owns what the master
   whose dump it loaded owned at backup. So an assembly that ends has restored the map.
   */
  lemma SlotMapRestored(masters: seq<Pod>, manifest: seq<Entry>, loaded: seq<Restored>, events: seq<Event>)
    requires Complete(masters) && ManifestOf(manifest, masters)
    requires |masters| <= |loaded| && OwnLine(masters, loaded)
    ensures var nodes := Exec(manifest, loaded, events); AllAssigned(nodes) <==> SameMap(masters, nodes)
  {
    OwnLineOnly(masters, manifest, loaded, events);
    AssignedIff(masters, Exec(manifest, loaded, events));
  }

  /** The slots of line k are all there. */
  ghost predicate LineDone(manifest: seq<Entry>, nodes: seq<Restored>, k: nat) {
    k < |manifest| && k < |nodes| && forall x :: x in Expand(manifest[k].ranges) ==> x in nodes[k].slots
  }

  ghost predicate AllLinesDone(manifest: seq<Entry>, nodes: seq<Restored>) {
    forall k :: 0 <= k < |manifest| ==> LineDone(manifest, nodes, k)
  }

  /** A line whose query is answered and whose commands work is done. */
  lemma GoodLine(manifest: seq<Entry>, nodes: seq<Restored>, e: Event)
    requires Enabled(manifest, nodes, e) && e.luck == Luck(true, {}) && Ascending(Expand(manifest[e.shard].ranges))
    ensures LineDone(manifest, Step(manifest, nodes, e), e.shard)
  {
    var want, have := Expand(manifest[e.shard].ranges), nodes[e.shard].slots;
    MinusIs(want, have);
    MinusAscends(want, have);
    AddRangesAll(have, e.ranges);
  }

  /** A done line stays done. */
  lemma DoneStays(manifest: seq<Entry>, nodes: seq<Restored>, e: Event, k: nat)
    requires LineDone(manifest, nodes, k)
    ensures LineDone(manifest, Step(manifest, nodes, e), k)
  {
    if Enabled(manifest, nodes, e) && e.shard == k { AddRangesWithin(nodes[k].slots, e.ranges, e.luck.rejected); }
  }

  lemma AllDone(masters: seq<Pod>, manifest: seq<Entry>, nodes: seq<Restored>)
    requires ManifestOf(manifest, masters) && OwnLine(masters, nodes) && |masters| <= |nodes|
    requires AllLinesDone(manifest, nodes)
    ensures SameMap(masters, nodes)
  {
    forall slot: nat, o: nat | o < |nodes| && OwnedBy(masters, slot, o) ensures slot in nodes[o].slots {
      assert LineDone(manifest, nodes, o);
    }
  }

  /** The loop over the ranges of a line. */
  method AddEach(slots: seq<nat>, ranges: seq<Range>, rejected: set<nat>) returns (after: seq<nat>)
    ensures after == AddRanges(slots, ranges, rejected)
  {
    after := slots;
    for i := 0 to |ranges|
      invariant after == AddRanges(slots, ranges[..i], rejected)
    {
      assert ranges[..i + 1][..i] == ranges[..i];
      var more := Span(ranges[i].lo, ranges[i].hi);
      if i !in rejected && !(exists x :: x in more && x in after) { after := after + more; }
    }
    assert ranges[..|ranges|] == ranges;
  }

  lemma LinesDone(manifest: seq<Entry>, nodes: seq<Restored>, e: Event, luck: seq<Luck>, k: nat)
    requires k < |manifest| == |luck| && e.shard == k && e.luck == luck[k] && Enabled(manifest, nodes, e)
    requires Ascending(Expand(manifest[k].ranges))
    requires forall j :: 0 <= j < k && luck[j] == Luck(true, {}) ==> LineDone(manifest, nodes, j)
    ensures forall j :: 0 <= j <= k && luck[j] == Luck(true, {}) ==> LineDone(manifest, Step(manifest, nodes, e), j)
  {
    forall j | 0 <= j <= k && luck[j] == Luck(true, {}) ensures LineDone(manifest, Step(manifest, nodes, e), j) {
      if j == k { GoodLine(manifest, nodes, e); } else { DoneStays(manifest, nodes, e, j); }
    }
  }

  /**
   One attempt of the script over the manifest. It stops at a line without slots; what it
   does is a run of the protocol, and lines without a failure end up done.
   */
  method Assemble(manifest: seq<Entry>, start: seq<Restored>, luck: seq<Luck>)
    returns (nodes: seq<Restored>, ok: bool, ghost events: seq<Event>)
    requires |luck| == |manifest|
    requires forall k :: 0 <= k < |manifest| ==>
          manifest[k].shard == k < |start| && Ascending(Expand(manifest[k].ranges))
    ensures ok <==> forall k :: 0 <= k < |manifest| ==> manifest[k].ranges != []
    ensures nodes == Exec(manifest, start, events)
    ensures ok ==> forall k :: 0 <= k < |manifest| && luck[k] == Luck(true, {}) ==> LineDone(manifest, nodes, k)
  {
    nodes, events := start, [];
    for k := 0 to |manifest|
      invariant nodes == Exec(manifest, start, events) && |nodes| == |start|
      invariant forall j :: 0 <= j < k ==> manifest[j].ranges != []
      invariant forall j :: 0 <= j < k && luck[j] == Luck(true, {}) ==> LineDone(manifest, nodes, j)
    {
      if |manifest[k].ranges| == 0 { return nodes, false, events; }
      var ranges := GapRanges(Expand(manifest[k].ranges), Shown(nodes[k], luck[k]));
      ghost var e := Process(k, ranges, luck[k]);
      ghost var before := nodes;
      var slots := AddEach(nodes[k].slots, ranges, luck[k].rejected);
      nodes := nodes[k := nodes[k].(slots := slots)];
      assert nodes == Step(manifest, before, e);
      LinesDone(manifest, before, e, luck, k);
      ExecNext(manifest, start, events, e);
      events := events + [e];
    }
    ok := true;
  }

  lemma {:induction false} ExecConcat(manifest: seq<Entry>, nodes: seq<Restored>, a: seq<Event>, b: seq<Event>)
    ensures Exec(manifest, nodes, a + b) == Exec(manifest, Exec(manifest, nodes, a), b)
  {
    if b == [] {
      assert a + b == a;
    } else {
      ExecConcat(manifest, nodes, a, b[..|b| - 1]);
      ExecNext(manifest, nodes, a + b[..|b| - 1], b[|b| - 1]);
      AppendLast(a, b);
    }
  }

  /** What a restore starts from: masters with slots, and dumps that bring a part of them. */
  ghost predicate Restorable(masters: seq<Pod>, total: nat, brought: seq<seq<nat>>) {
    && Complete(masters) && |brought| == |masters| <= total
    && (forall k :: 0 <= k < |masters| ==> masters[k].ranges != [] && Ascending(Expand(masters[k].ranges)))
    && (forall k, x :: 0 <= k < |masters| && x in brought[k] ==> x in Expand(masters[k].ranges))
  }

  lemma LoadedOwnLine(masters: seq<Pod>, total: nat, rdbs: seq<nat>, brought: seq<seq<nat>>)
    requires Restorable(masters, total, brought) && |rdbs| == |masters|
    ensures OwnLine(masters, Loaded(total, |rdbs|, rdbs, brought))
  {
  }

  /** No slot has two owners. */
  ghost predicate OneOwner(nodes: seq<Restored>) {
    forall slot: nat, o: nat, p: nat ::
      o < |nodes| && p < |nodes| && slot in nodes[o].slots && slot in nodes[p].slots ==> o == p
  }

  /** What holds after any run of the assembly. */
  lemma Conclude(masters: seq<Pod>, manifest: seq<Entry>, loaded: seq<Restored>, events: seq<Event>)
    requires Complete(masters) && ManifestOf(manifest, masters) && |masters| <= |loaded| && OwnLine(masters, loaded)
    ensures var nodes := Exec(manifest, loaded, events);
            && (AllAssigned(nodes) <==> SameMap(masters, nodes)) && OwnLine(masters, nodes) && OneOwner(nodes)
            && |nodes| == |loaded| && forall o :: 0 <= o < |nodes| ==> nodes[o].rdb == loaded[o].rdb
  {
    OwnLineOnly(masters, manifest, loaded, events);
    SlotMapRestored(masters, manifest, loaded, events);
  }

  /**
   Backup, then restore into a cluster of as many shards: the whole round trip, over any
   number of attempts. Whatever fails, nodes keep their dumps, all slots are assigned
   exactly when the slot map is the one backed up, and no slot has two owners; one last
   attempt without failures restores it.
   */
  method RoundTrip(pods: seq<Pod>, total: nat, brought: seq<seq<nat>>, attempts: seq<seq<Luck>>)
    returns (nodes: seq<Restored>)
    requires Restorable(MastersIn(pods), total, brought)
    requires forall a :: a in attempts ==> |a| == |MastersIn(pods)|
    ensures |nodes| == total && (AllAssigned(nodes) <==> SameMap(MastersIn(pods), nodes))
    ensures forall o: nat :: o < |MastersIn(pods)| ==> o < |nodes| && nodes[o].rdb == Some(MastersIn(pods)[o].rdb)
    ensures OneOwner(nodes)
    ensures attempts != [] && Good(attempts[|attempts| - 1]) ==> SameMap(MastersIn(pods), nodes)
  {
    ghost var masters := MastersIn(pods);
    var manifest, rdbs := Backup(pods);
    var loaded := Loaded(total, |rdbs|, rdbs, brought);
    nodes := loaded;
    ghost var events: seq<Event> := [];
    LoadedOwnLine(masters, total, rdbs, brought);
    for a := 0 to |attempts|
      invariant nodes == Exec(manifest, loaded, events) && |nodes| == total
      invariant a > 0 && Good(attempts[a - 1]) ==> AllLinesDone(manifest, nodes)
    {
      assert |attempts[a]| == |manifest| by { assert attempts[a] in attempts; }
      var ok: bool;
      ghost var more: seq<Event>;
      ghost var before := nodes;
      nodes, ok, more := Assemble(manifest, nodes, attempts[a]);
      ExecConcat(manifest, loaded, events, more);
      assert |nodes| == total by {
        OwnLineOnly(masters, manifest, loaded, events);
        OwnLineOnly(masters, manifest, before, more);
      }
      events := events + more;
    }
    Conclude(masters, manifest, loaded, events);
    if AllLinesDone(manifest, nodes) { AllDone(masters, manifest, nodes); }
  }

  // --------------------------------------------------------------- replicas

  /** Replica ordinals below `upto` attached to master m. */
  function Followers(m: nat, shards: nat, upto: nat): nat
    requires shards > 0
  {
    if upto <= shards then 0
    else Followers(m, shards, upto - 1) + (if (upto - 1 - shards) % shards == m then 1 else 0)
  }

  /** A list that goes round the masters in order gives each as many as it is due. */
  lemma {:induction false} CountIs(masterOf: seq<nat>, shards: nat, m: nat)
    requires shards > 0 && forall i :: 0 <= i < |masterOf| ==> masterOf[i] == i % shards
    ensures multiset(masterOf)[m] == Followers(m, shards, shards + |masterOf|)
  {
    if masterOf != [] {
      var n := |masterOf| - 1;
      CountIs(masterOf[..n], shards, m);
      assert masterOf == masterOf[..n] + [masterOf[n]];
    }
  }

  lemma MulAtLeast(d: nat, k: int)
    requires k >= 1
    ensures d * k >= d
  {
  }

  lemma MulMinus(d: nat, a: int, b: int)
    ensures d * (a - b) == d * a - d * b
  {
  }

  lemma ModBlock(shards: nat, r: nat, j: nat)
    requires j < shards
    ensures (shards * r + j) % shards == j
  {
    var x := shards * r + j;
    var q := x / shards;
    MulMinus(shards, q, r);
    MulMinus(shards, r, q);
    if q > r { MulAtLeast(shards, q - r); }
    if q < r { MulAtLeast(shards, r - q); }
  }

  /** Round-robin is even: after r full rounds and j more ordinals, master m has r replicas, plus one if m < j. */
  lemma {:induction false} RoundRobin(m: nat, shards: nat, r: nat, j: nat)
    requires m < shards && j <= shards
    ensures Followers(m, shards, shards * (1 + r) + j) == r + if m < j then 1 else 0
    decreases r, j
  {
    var upto := shards * (1 + r) + j;
    assert upto == shards + (shards * r + j);
    if j > 0 {
      RoundRobin(m, shards, r, j - 1);
      ModBlock(shards, r, j - 1);
      assert upto - 1 - shards == shards * r + (j - 1);
    } else if r > 0 {
      RoundRobin(m, shards, r - 1, shards);
      assert shards * (1 + (r - 1)) + shards == upto;
    }
  }

  /** The replicate loop: ordinal o >= shards follows master (o - shards) % shards. */
  method AttachReplicas(shards: nat, perShard: nat) returns (masterOf: seq<nat>, total: nat)
    requires shards > 0
    ensures total == shards * (1 + perShard) && |masterOf| == total - shards
    ensures forall i :: 0 <= i < |masterOf| ==> masterOf[i] < shards && masterOf[i] == i % shards
    ensures forall m: nat :: m < shards ==> multiset(masterOf)[m] == perShard
  {
    total := shards * (1 + perShard);
    masterOf := [];
    var o := shards;
    assert total == shards + shards * perShard;
    while o < total
      invariant shards <= o <= total && |masterOf| == o - shards
      invariant forall i :: 0 <= i < |masterOf| ==> masterOf[i] < shards && masterOf[i] == i % shards
    {
      masterOf := masterOf + [(o - shards) % shards];
      o := o + 1;
    }
    forall m: nat | m < shards ensures multiset(masterOf)[m] == perShard {
      CountIs(masterOf, shards, m);
      RoundRobin(m, shards, perShard, 0);
    }
  }
}
