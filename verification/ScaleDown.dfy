/**
 Resizing a single-StatefulSet Cluster. The StatefulSet is held at
 LastAppliedReplicas while a Job drains the leaving nodes behind an ownership
 gate; the Job, the StatefulSet controller, gossip and the user all move on
 their own between two operator passes. The script asks the cluster through pod-0;
 a query that fails reads as an empty answer, since its pipelines hide the failure.
 */
module ScaleDown {
  import opened Common

  /** The fewest shards the API admits. */
  const MIN_SIZE: nat := 3

  predicate IsSlot(i: nat) { i < SLOTS }

  ghost function AllSlots(): set<nat> { set i: nat | i < SLOTS && IsSlot(i) }

  /** How far the script is with the leaving node it is at. */
  datatype Phase = Arrived | Found | Gated

  /** The scale-down Job: its script has reached leaving ordinal `at`. */
  datatype DownJob = NoDown | Draining(lo: nat, hi: nat, at: nat, phase: Phase) | Drained | DrainFailed

  datatype UpJob = NoUp | Adding(lo: nat, hi: nat) | Added | AddFailed

  /**
   `owner` is the slot table of the converged cluster, `members` the ordinals in
   it, `sts` the pods that exist (ordinals below it), `applied` and `target` are
   Status.LastAppliedReplicas and the size the spec asks for.
   */
  datatype State = State(owner: map<nat, nat>, members: set<nat>, sts: nat, applied: nat, target: nat,
                         down: DownJob, up: UpJob)

  datatype Event =
    | SetTarget(size: nat)
    | SyncStatefulSet
    | DownPass(jobDeleted: bool)       // runClusterScaleDown; its Job deletion may fail
    | DownExpires                      // TTL of a finished Job
    | Lookup(answered: bool)           // the query for the leaving node's id
    | ReshardSlot(slot: nat)           // reshard away from the leaving node moves one slot
    | Gate(answered: bool)             // the query for the slots it still owns
    | DelNode(ok: bool)                // refused by the tool, or done
    | ScriptEnds
    | ScriptDies(retry: bool)
    | UpPass(jobDeleted: bool)         // runClusterScaleUp
    | UpExpires
    | AddNode(ordinal: nat)
    | UpScriptEnds(ok: bool)
    | MoveSlot(slot: nat, to: nat)     // rebalance, manual reshard, another Job or a gossip failover

  /** statefulSetReplicas: hold the size up while it is above the spec's. */
  function HeldSize(s: State): nat { if s.applied > s.target then s.applied else s.target }

  function OwnedBelow(owner: map<nat, nat>, size: nat): map<nat, nat> {
    map k | k in owner && owner[k] < size :: owner[k]
  }

  /** Pods at or above the size go, and the slots their nodes own go with them. */
  function Shrunk(s: State, size: nat): State {
    s.(sts := size, members := (set m | m in s.members && m < size), owner := OwnedBelow(s.owner, size))
  }

  predicate Owns(owner: map<nat, nat>, node: nat) {
    exists k :: k in owner && owner[k] == node
  }

  function Without(owner: map<nat, nat>, node: nat): map<nat, nat> {
    map k | k in owner && owner[k] != node :: owner[k]
  }

  /** The script is at a leaving node, in the given phase. */
  predicate At(s: State, phase: Phase) { s.down.Draining? && s.down.phase == phase && s.down.at < s.down.hi }

  /** Done with the leaving node: on to the next. */
  function Next(job: DownJob): DownJob
    requires job.Draining?
  {
    job.(at := job.at + 1, phase := Arrived)
  }

  /** The Job's pod starts the script over, with the leaving list it was created with. */
  function Restarted(job: DownJob): DownJob
    requires job.Draining?
  {
    job.(at := job.lo, phase := Arrived)
  }

  function Step(s: State, e: Event): State {
    match e
    case SetTarget(size) => if size >= MIN_SIZE then s.(target := size) else s  // admission refuses fewer shards
    case SyncStatefulSet => Shrunk(s, HeldSize(s))
    case DownPass(deleted) =>
      if s.applied <= s.target then s
      else (match s.down
            case NoDown => s.(down := Draining(s.target, s.applied, s.target, Arrived))
            case Drained => s.(applied := s.target, down := if deleted then NoDown else Drained)
            case _ => s)
    case DownExpires => if s.down.Drained? || s.down.DrainFailed? then s.(down := NoDown) else s
    case Lookup(answered) =>  // an empty answer means: not in the cluster, skip
      if !At(s, Arrived) then s
      else s.(down := if answered && s.down.at in s.members then s.down.(phase := Found) else Next(s.down))
    case ReshardSlot(slot) =>
      if At(s, Found) && slot in s.owner && s.owner[slot] == s.down.at && 0 in s.members
      then s.(owner := s.owner[slot := 0]) else s
    case Gate(answered) =>    // an empty answer means: owns nothing
      if !At(s, Found) then s
      else s.(down := if answered && Owns(s.owner, s.down.at) then Restarted(s.down) else s.down.(phase := Gated))
    case DelNode(ok) =>
      if !At(s, Gated) then s
      else if !ok then s.(down := Restarted(s.down))
      else s.(members := s.members - {s.down.at}, owner := Without(s.owner, s.down.at), down := Next(s.down))
    case ScriptEnds => if s.down.Draining? && s.down.at == s.down.hi then s.(down := Drained) else s
    case ScriptDies(retry) =>
      if !s.down.Draining? then s else s.(down := if retry then Restarted(s.down) else DrainFailed)
    case UpPass(deleted) =>
      if s.applied >= s.target || s.sts != s.target then s
      else (match s.up
            case NoUp => s.(up := Adding(s.applied, s.target))
            case Added => s.(applied := s.target, up := if deleted then NoUp else Added)
            case _ => s)
    case UpExpires => if s.up.Added? || s.up.AddFailed? then s.(up := NoUp) else s
    case AddNode(i) =>
      if s.up.Adding? && s.up.lo <= i < s.up.hi && i < s.sts then s.(members := s.members + {i}) else s
    case UpScriptEnds(ok) => if s.up.Adding? then s.(up := if ok then Added else AddFailed) else s
    case MoveSlot(slot, to) =>
      if slot in s.owner && to in s.members then s.(owner := s.owner[slot := to]) else s
  }

  function Exec(s: State, events: seq<Event>): State {
    if events == [] then s else Step(Exec(s, events[..|events| - 1]), events[|events| - 1])
  }

  /** Every slot has an owner, and the pod behind it exists. */
  ghost predicate AllServed(s: State) {
    s.owner.Keys == AllSlots() && forall slot :: slot in s.owner ==> s.owner[slot] < s.sts
  }

  ghost predicate Init(s: State) {
    && s.owner.Keys == AllSlots() && s.owner.Values <= s.members
    && 0 in s.members && (forall m :: m in s.members ==> m < s.sts)
    && s.sts == s.applied == s.target && s.target >= MIN_SIZE
    && s.down == NoDown && s.up == NoUp
  }

  /** The success of the scale-down Job object there is, if any, will mean that no node at or above `size` is left. */
  ghost predicate Covered(s: State, size: nat) {
    match s.down
    case Drained => forall m :: m in s.members ==> m < size
    case Draining(_, hi, at, _) => forall m :: m in s.members ==> m < size || at <= m < hi
    case _ => true
  }

  /**
   What makes a new size safe: no node of the cluster lies at or above both sizes
   involved, no scale-up Job is still adding nodes at or above it, and, if it is below
   the applied size, a scale-down Job object still around covers every node at or above it.
   */
  ghost predicate SafeTarget(s: State, size: nat) {
    && (forall m :: m in s.members ==> m < s.applied || m < size)
    && (s.up.Adding? ==> s.up.hi <= size)
    && (s.applied > size ==> Covered(s, size))
  }

  /** A node in the cluster whose pod goes when the size is applied. */
  predicate Leaving(s: State, m: nat) { m in s.members && s.target <= m && s.applied > s.target }

  /**
   The three steps that can go wrong: changing the size; a lookup that fails on a leaving
   node in the cluster; a deletion the tool carries out on a node that owns slots.
   */
  ghost predicate Safe(s: State, e: Event) {
    && (e.SetTarget? && e.size >= MIN_SIZE ==> SafeTarget(s, e.size))
    && (e == Lookup(false) && At(s, Arrived) ==> !Leaving(s, s.down.at))
    && (e == DelNode(true) && At(s, Gated) ==> !Owns(s.owner, s.down.at))
  }

  /** Every step of the run was safe where it was taken. */
  ghost predicate Disciplined(s: State, events: seq<Event>) {
    events == [] ||
    var front := events[..|events| - 1];
    Disciplined(s, front) && Safe(Exec(s, front), events[|events| - 1])
  }

  ghost predicate DownInv(s: State) {
    && (s.applied > s.target ==> Covered(s, s.target))
    && (s.down.Draining? ==>
          && 0 < s.down.lo <= s.down.at <= s.down.hi <= s.applied && s.down.lo < s.down.hi
          && (s.down.phase != Arrived ==> s.down.at < s.down.hi))
  }

  ghost predicate UpInv(s: State) {
    s.up.Adding? ==> s.up.lo == s.applied < s.up.hi <= s.target && s.up.hi <= s.sts
  }

  ghost predicate Inv(s: State) {
    && s.owner.Keys == AllSlots()
    && (forall slot :: slot in s.owner ==> s.owner[slot] in s.members)
    && 0 in s.members && s.target >= MIN_SIZE
    && (forall m :: m in s.members ==> m < s.sts && m < HeldSize(s))
    && DownInv(s) && UpInv(s)
  }

  /** Moving one slot to any member. */
  lemma SlotMoved(s: State, slot: nat, to: nat)
    requires Inv(s) && slot in s.owner && to in s.members
    ensures Inv(s.(owner := s.owner[slot := to]))
  {
    var after := s.owner[slot := to];
    assert after.Keys == s.owner.Keys;
    forall k | k in after ensures after[k] == s.owner[k] || after[k] == to {}
  }

  /** del-node loses exactly the slots the node owns at that moment. */
  lemma DeleteKeepsIff(s: State)
    requires Inv(s) && At(s, Gated)
    ensures Step(s, DelNode(true)).owner.Keys == AllSlots() <==> !Owns(s.owner, s.down.at)
    ensures Inv(Step(s, DelNode(true))) <==> !Owns(s.owner, s.down.at)
  {
    var t := Step(s, DelNode(true));
    if k :| k in s.owner && s.owner[k] == s.down.at {
      assert k in AllSlots() && k !in t.owner;
    } else {
      assert t.owner == s.owner;
    }
  }

  /** A failed lookup is harmless exactly when the node is not a leaving node of the cluster. */
  lemma LookupKeepsIff(s: State)
    requires Inv(s) && At(s, Arrived)
    ensures Inv(Step(s, Lookup(false))) <==> !Leaving(s, s.down.at)
  {
  }

  /** A new size keeps the invariant exactly when it is safe. */
  lemma TargetKeepsIff(s: State, size: nat)
    requires Inv(s) && size >= MIN_SIZE
    ensures Inv(s.(target := size)) <==> SafeTarget(s, size)
  {
  }

  /** Once a node has passed its gate owning nothing, exactly a slot moved onto it makes the gate stale. */
  lemma GateHolds(s: State, e: Event)
    requires Inv(s) && At(s, Gated) && !Owns(s.owner, s.down.at)
    requires Step(s, e).down == s.down
    ensures Owns(Step(s, e).owner, s.down.at) <==>
          e.MoveSlot? && e.to == s.down.at && e.to in s.members && e.slot in s.owner
  {
    var t := Step(s, e);
    if e.MoveSlot? && e.to == s.down.at && e.to in s.members && e.slot in s.owner {
      assert t.owner[e.slot] == s.down.at;
    }
    if k :| k in t.owner && t.owner[k] == s.down.at { assert k in s.owner; }
  }

  lemma Synced(s: State)
    requires Inv(s)
    ensures Step(s, SyncStatefulSet) == s.(sts := HeldSize(s)) && Inv(Step(s, SyncStatefulSet))
  {
    var t := Step(s, SyncStatefulSet);
    assert t.members == s.members;
    assert t.owner == s.owner;
  }

  lemma PassKeeps(s: State, e: Event)
    requires Inv(s) && (e.DownPass? || e.UpPass? || e.DownExpires? || e.UpExpires? || e.AddNode? || e.UpScriptEnds?)
    ensures Inv(Step(s, e))
  {
  }

  lemma ScriptKeeps(s: State, e: Event)
    requires Inv(s) && (e == Lookup(true) || e.Gate? || e == DelNode(false) || e.ScriptEnds? || e.ScriptDies?)
    ensures Inv(Step(s, e))
  {
  }

  lemma StepKeeps(s: State, e: Event)
    requires Inv(s) && Safe(s, e)
    ensures Inv(Step(s, e))
  {
    match e
    case SetTarget(size) => if size >= MIN_SIZE { TargetKeepsIff(s, size); }
    case SyncStatefulSet => Synced(s);
    case Lookup(answered) => if answered { ScriptKeeps(s, e); } else if At(s, Arrived) { LookupKeepsIff(s); }
    case DelNode(ok) => if !ok { ScriptKeeps(s, e); } else if At(s, Gated) { DeleteKeepsIff(s); }
    case MoveSlot(slot, to) => if Step(s, e) != s { SlotMoved(s, slot, to); }
    case ReshardSlot(slot) => if Step(s, e) != s { SlotMoved(s, slot, 0); }
    case Gate(_) => ScriptKeeps(s, e);
    case ScriptEnds => ScriptKeeps(s, e);
    case ScriptDies(_) => ScriptKeeps(s, e);
    case _ => PassKeeps(s, e);
  }

  /** Exactly the safe steps keep the invariant. */
  lemma StepKeepsIff(s: State, e: Event)
    requires Inv(s)
    ensures Inv(Step(s, e)) <==> Safe(s, e)
  {
    if Safe(s, e) {
      StepKeeps(s, e);
    } else if e.SetTarget? {
      TargetKeepsIff(s, e.size);
    } else if e.Lookup? {
      LookupKeepsIff(s);
    } else {
      DeleteKeepsIff(s);
    }
  }

  /**
   Every run of safe steps, from a converged cluster or any state reached so: through
   partial and failing reshards, failing gate queries, Jobs dying anywhere, slots moving at
   any time, failed deletions and expiries, every slot keeps an owner whose pod exists; and
   whenever the StatefulSet shrinks, no slot was owned at or above the new size.
   */
  lemma {:induction false} NoSlotOrphaned(s: State, events: seq<Event>)
    requires Inv(s) && Disciplined(s, events)
    ensures Inv(Exec(s, events)) && AllServed(Exec(s, events))
    ensures var t := Exec(s, events); var u := Step(t, SyncStatefulSet);
            u.owner == t.owner && forall slot :: slot in t.owner ==> t.owner[slot] < u.sts
  {
    if events != [] {
      NoSlotOrphaned(s, events[..|events| - 1]);
      StepKeeps(Exec(s, events[..|events| - 1]), events[|events| - 1]);
    }
    Synced(Exec(s, events));
  }

  /** A converged cluster is such a start. */
  lemma InitInv(s: State)
    requires Init(s)
    ensures Inv(s)
  {
    forall slot | slot in s.owner ensures s.owner[slot] in s.members { assert s.owner[slot] in s.owner.Values; }
  }

  /**
   Conditions on the events themselves: sizes change safely, every query is answered, nothing moves
   onto a gated node.
   */
  ghost predicate Undisturbed(s: State, events: seq<Event>) {
    events == [] ||
    var front, e := events[..|events| - 1], events[|events| - 1];
    var t := Exec(s, front);
    && Undisturbed(s, front) && (e.SetTarget? && e.size >= MIN_SIZE ==> SafeTarget(t, e.size))
    && e != Lookup(false) && e != Gate(false) && (e.MoveSlot? && At(t, Gated) ==> e.to != t.down.at)
  }

  ghost predicate GateTrue(s: State) { At(s, Gated) ==> !Owns(s.owner, s.down.at) }

  lemma GateStaysTrue(s: State, e: Event)
    requires Inv(s) && GateTrue(s) && e != Gate(false) && (e.MoveSlot? && At(s, Gated) ==> e.to != s.down.at)
    ensures GateTrue(Step(s, e))
  {
    if At(s, Gated) && Step(s, e).down == s.down { GateHolds(s, e); }
  }

  /** Such runs are safe at every step, so no slot is ever orphaned. */
  lemma {:induction false} UndisturbedIsSafe(s: State, events: seq<Event>)
    requires Init(s) && Undisturbed(s, events)
    ensures Disciplined(s, events) && AllServed(Exec(s, events)) && GateTrue(Exec(s, events))
  {
    InitInv(s);
    if events != [] {
      UndisturbedIsSafe(s, events[..|events| - 1]);
      NoSlotOrphaned(s, events[..|events| - 1]);
      GateStaysTrue(Exec(s, events[..|events| - 1]), events[|events| - 1]);
    }
    NoSlotOrphaned(s, events);
  }

  // ------------------------------------------------ each condition is necessary

  /** The StatefulSet sync keeps every slot exactly when no owner is at or above the held size. */
  lemma SyncKeepsIff(s: State)
    requires s.owner.Keys == AllSlots()
    ensures Step(s, SyncStatefulSet).owner.Keys == AllSlots()
       <==> forall slot :: slot in s.owner ==> s.owner[slot] < HeldSize(s)
  {
    var t := Step(s, SyncStatefulSet);
    if slot :| slot in s.owner && s.owner[slot] >= HeldSize(s) {
      assert slot !in t.owner && slot in AllSlots();
    } else {
      assert t.owner == s.owner;
    }
  }

  lemma ExecStep(s: State, events: seq<Event>, e: Event)
    ensures Exec(s, events + [e]) == Step(Exec(s, events), e)
  {
    assert (events + [e])[..|events|] == events;
  }

  lemma ExecOne(s: State, e: Event)
    ensures Exec(s, [e]) == Step(s, e)
  {
    ExecStep(s, [], e);
    assert [] + [e] == [e];
  }

  lemma {:induction false} ExecConcat(s: State, a: seq<Event>, b: seq<Event>)
    ensures Exec(s, a + b) == Exec(Exec(s, a), b)
  {
    if b == [] {
      assert a + b == a;
    } else {
      ExecConcat(s, a, b[..|b| - 1]);
      ExecStep(s, a + b[..|b| - 1], b[|b| - 1]);
      AppendLast(a, b);
    }
  }

  /**
   Between gate and deletion any slot can move onto the node; if the tool deletes it all the same,
   the slot is lost.
   */
  lemma GateWindowOrphans(s: State, slot: nat)
    requires Inv(s) && At(s, Gated) && s.down.at in s.members && slot in s.owner
    ensures slot !in Exec(s, [MoveSlot(slot, s.down.at), DelNode(true)]).owner
  {
    ExecOne(s, MoveSlot(slot, s.down.at));
    ExecStep(s, [MoveSlot(slot, s.down.at)], DelNode(true));
    assert [MoveSlot(slot, s.down.at)] + [DelNode(true)] == [MoveSlot(slot, s.down.at), DelNode(true)];
  }

  /** A gate query that fails on a node owning slots lets the deletion lose exactly those. */
  lemma FailedGateLoses(s: State, slot: nat)
    requires Inv(s) && At(s, Found) && slot in s.owner
    ensures slot !in Exec(s, [Gate(false), DelNode(true)]).owner <==> s.owner[slot] == s.down.at
  {
    ExecOne(s, Gate(false));
    ExecStep(s, [Gate(false)], DelNode(true));
    assert [Gate(false)] + [DelNode(true)] == [Gate(false), DelNode(true)];
  }

  lemma DisciplinedNext(s: State, events: seq<Event>, e: Event)
    requires Disciplined(s, events) && Safe(Exec(s, events), e)
    ensures Disciplined(s, events + [e])
  {
    assert (events + [e])[..|events|] == events;
  }

  lemma DisciplinedOne(s: State, e: Event)
    requires Safe(s, e)
    ensures Disciplined(s, [e])
  {
    DisciplinedNext(s, [], e);
    assert [] + [e] == [e];
  }

  lemma {:induction false} DisciplinedConcat(s: State, a: seq<Event>, b: seq<Event>)
    requires Disciplined(s, a) && Disciplined(Exec(s, a), b)
    ensures Disciplined(s, a + b)
  {
    if b == [] {
      assert a + b == a;
    } else {
      DisciplinedConcat(s, a, b[..|b| - 1]);
      ExecConcat(s, a, b[..|b| - 1]);
      DisciplinedNext(s, a + b[..|b| - 1], b[|b| - 1]);
      AppendLast(a, b);
    }
  }

  /** The slot table once node `at` has handed pod-0 those of the slots `moved` that are below k. */
  ghost function HandedOver(owner: map<nat, nat>, at: nat, moved: set<nat>, k: nat): map<nat, nat> {
    map x | x in owner :: if owner[x] == at && x in moved && x < k then 0 else owner[x]
  }

  lemma HandOverOne(s: State, owner: map<nat, nat>, moved: set<nat>, k: nat)
    requires At(s, Found) && 0 in s.members && s.down.at > 0 && s.owner == HandedOver(owner, s.down.at, moved, k)
    ensures k in moved ==> Step(s, ReshardSlot(k)) == s.(owner := HandedOver(owner, s.down.at, moved, k + 1))
    ensures k !in moved ==> s.owner == HandedOver(owner, s.down.at, moved, k + 1)
  {
    if k in moved { assert Step(s, ReshardSlot(k)).owner == HandedOver(owner, s.down.at, moved, k + 1); }
  }

  /** The slot table once `at` owns none of the slots below k any more. */
  ghost function Emptied(owner: map<nat, nat>, at: nat, k: nat): map<nat, nat> {
    map x | x in owner :: if owner[x] == at && x < k then 0 else owner[x]
  }

  /** How a slot leaves the node the script is at: by its reshard, or on its own after the gate. */
  function Emptying(s: State, x: nat): Event { if At(s, Found) then ReshardSlot(x) else MoveSlot(x, 0) }

  lemma EmptyOne(s: State, t: State, k: nat)
    requires (At(s, Found) || At(s, Gated)) && 0 in s.members && s.down.at > 0 && k > 0
    requires t == s.(owner := Emptied(s.owner, s.down.at, k - 1)) && k - 1 in s.owner && s.owner[k - 1] == s.down.at
    ensures Step(t, Emptying(s, k - 1)) == s.(owner := Emptied(s.owner, s.down.at, k)) && Safe(t, Emptying(s, k - 1))
  {
    assert t.owner[k - 1 := 0] == Emptied(s.owner, s.down.at, k);
  }

  lemma {:induction false} Empties(s: State, k: nat) returns (events: seq<Event>)
    requires (At(s, Found) || At(s, Gated)) && 0 in s.members && s.down.at > 0
    ensures Exec(s, events) == s.(owner := Emptied(s.owner, s.down.at, k)) && Disciplined(s, events)
    ensures forall e :: e in events ==> if At(s, Found) then e.ReshardSlot? else e.MoveSlot?
  {
    if k == 0 {
      events := [];
      assert Emptied(s.owner, s.down.at, 0) == s.owner;
    } else {
      events := Empties(s, k - 1);
      if k - 1 in s.owner && s.owner[k - 1] == s.down.at {
        EmptyOne(s, Exec(s, events), k);
        ExecStep(s, events, Emptying(s, k - 1));
        DisciplinedNext(s, events, Emptying(s, k - 1));
        events := events + [Emptying(s, k - 1)];
      } else {
        assert Emptied(s.owner, s.down.at, k - 1) == Emptied(s.owner, s.down.at, k);
      }
    }
  }

  lemma EmptiedOwnsNothing(owner: map<nat, nat>, at: nat)
    requires owner.Keys == AllSlots() && at > 0
    ensures !Owns(Emptied(owner, at, SLOTS), at) && Emptied(owner, at, SLOTS).Keys == AllSlots()
  {
    forall x | x in owner ensures Emptied(owner, at, SLOTS)[x] != at { assert x in AllSlots(); }
  }

  /** A step of the script, the operator or the StatefulSet with every query answered. */
  predicate Quiet(e: Event) {
    e == Lookup(true) || e.ReshardSlot? || e == Gate(true) || e == DelNode(true) || e == ScriptEnds || e.DownPass?
          || e == SyncStatefulSet
  }

  /** A node that owns nothing passes its gate, if that is still to come, and is deleted. */
  lemma EmptyNodeLeaves(s: State) returns (events: seq<Event>)
    requires (At(s, Found) || At(s, Gated)) && !Owns(s.owner, s.down.at)
    ensures Exec(s, events) == s.(members := s.members - {s.down.at}, down := Next(s.down))
    ensures Disciplined(s, events) && forall e :: e in events ==> Quiet(e)
  {
    var gate := if At(s, Found) then [Gate(true)] else [];
    ExecOne(s, Gate(true));
    DisciplinedOne(s, Gate(true));
    ExecStep(s, gate, DelNode(true));
    DisciplinedNext(s, gate, DelNode(true));
    assert Without(s.owner, s.down.at) == s.owner;
    events := gate + [DelNode(true)];
  }

  /** The script can be done with the node it is at: drained and deleted, every query answered. */
  lemma NodeLeaves(s: State) returns (events: seq<Event>)
    requires (At(s, Found) || At(s, Gated)) && 0 in s.members && s.down.at > 0 && s.owner.Keys == AllSlots()
    ensures Exec(s, events) == s.(owner := Emptied(s.owner, s.down.at, SLOTS),
                                  members := s.members - {s.down.at}, down := Next(s.down))
    ensures Disciplined(s, events) && forall e :: e in events ==> Quiet(e) || (e.MoveSlot? && At(s, Gated))
  {
    var moves := Empties(s, SLOTS);
    EmptiedOwnsNothing(s.owner, s.down.at);
    var rest := EmptyNodeLeaves(Exec(s, moves));
    ExecConcat(s, moves, rest);
    DisciplinedConcat(s, moves, rest);
    events := moves + rest;
  }

  /**
   Of the run that follows, every step is safe, none changes the size, and slots move only by
   reshard or out of the way.
   */
  ghost predicate Follows(s: State, events: seq<Event>) {
    Disciplined(s, events) && forall e :: e in events ==> Quiet(e) || e.MoveSlot? || e.AddNode?
  }

  /** The script can run to its end, leaving alone the slots of nodes it has passed or does not list. */
  lemma {:induction false} ScriptFinishes(s: State, slot: nat) returns (events: seq<Event>)
    requires s.down.Draining? && 0 < s.down.at <= s.down.hi && (s.down.phase != Arrived ==> s.down.at < s.down.hi)
    requires 0 in s.members && s.owner.Keys == AllSlots() && slot in s.owner
          && !(s.down.at <= s.owner[slot] < s.down.hi)
    ensures var t := Exec(s, events);
            t == s.(owner := t.owner, members := t.members, down := Drained) && slot in t.owner
                  && t.owner[slot] == s.owner[slot]
    ensures Follows(s, events) && (s.down.phase != Gated ==> forall e :: e in events ==> Quiet(e))
    decreases s.down.hi - s.down.at, if s.down.phase == Arrived then 1 else 0
  {
    if s.down.at == s.down.hi {
      ExecOne(s, ScriptEnds);
      DisciplinedOne(s, ScriptEnds);
      events := [ScriptEnds];
    } else {
      var first: seq<Event>;
      if s.down.phase == Arrived {
        first := [Lookup(true)];
        ExecOne(s, Lookup(true));
        DisciplinedOne(s, Lookup(true));
      } else {
        first := NodeLeaves(s);
        EmptiedOwnsNothing(s.owner, s.down.at);
      }
      var rest := ScriptFinishes(Exec(s, first), slot);
      ExecConcat(s, first, rest);
      DisciplinedConcat(s, first, rest);
      events := first + rest;
    }
  }

  /** With the Job done, the operator lowers the size to the target and the pods go. */
  lemma PodsGo(s: State, slot: nat)
    requires s.down == Drained && s.applied > s.target && slot in s.owner && s.owner[slot] >= s.target
    ensures slot !in Exec(s, [DownPass(true), SyncStatefulSet]).owner && Follows(s, [DownPass(true), SyncStatefulSet])
  {
    ExecOne(s, DownPass(true));
    DisciplinedOne(s, DownPass(true));
    ExecStep(s, [DownPass(true)], SyncStatefulSet);
    DisciplinedNext(s, [DownPass(true)], SyncStatefulSet);
    assert [DownPass(true)] + [SyncStatefulSet] == [DownPass(true), SyncStatefulSet];
  }

  lemma FollowsConcat(s: State, a: seq<Event>, b: seq<Event>)
    requires Follows(s, a) && Follows(Exec(s, a), b)
    ensures Follows(s, a + b) && Exec(s, a + b) == Exec(Exec(s, a), b)
  {
    ExecConcat(s, a, b);
    DisciplinedConcat(s, a, b);
  }

  /** A running Job that leaves a slot behind costs it. */
  lemma LeftBehind(s: State, slot: nat) returns (events: seq<Event>)
    requires s.down.Draining? && 0 < s.down.at <= s.down.hi && (s.down.phase != Arrived ==> s.down.at < s.down.hi)
    requires 0 in s.members && s.owner.Keys == AllSlots() && s.applied > s.target
    requires slot in s.owner && s.target <= s.owner[slot] && !(s.down.at <= s.owner[slot] < s.down.hi)
    ensures slot !in Exec(s, events).owner && Follows(s, events)
    ensures s.down.phase != Gated ==> forall e :: e in events ==> Quiet(e)
  {
    var script := ScriptFinishes(s, slot);
    PodsGo(Exec(s, script), slot);
    FollowsConcat(s, script, [DownPass(true), SyncStatefulSet]);
    events := script + [DownPass(true), SyncStatefulSet];
  }

  lemma MovedTo(s: State, slot: nat, m: nat)
    requires slot in s.owner && m in s.members
    ensures Exec(s, [MoveSlot(slot, m)]) == s.(owner := s.owner[slot := m]) && Follows(s, [MoveSlot(slot, m)])
  {
    ExecOne(s, MoveSlot(slot, m));
    DisciplinedOne(s, MoveSlot(slot, m));
  }

  /** A node at or above the held size costs any slot that moves to it. */
  lemma AboveHeld(s: State, slot: nat, m: nat)
    requires slot in s.owner && m in s.members && m >= HeldSize(s)
    ensures slot !in Exec(s, [MoveSlot(slot, m), SyncStatefulSet]).owner
          && Follows(s, [MoveSlot(slot, m), SyncStatefulSet])
  {
    MovedTo(s, slot, m);
    ExecStep(s, [MoveSlot(slot, m)], SyncStatefulSet);
    DisciplinedNext(s, [MoveSlot(slot, m)], SyncStatefulSet);
    assert [MoveSlot(slot, m)] + [SyncStatefulSet] == [MoveSlot(slot, m), SyncStatefulSet];
  }

  lemma MoveKeepsKeys(s: State, slot: nat, m: nat)
    requires slot in s.owner
    ensures s.owner[slot := m].Keys == s.owner.Keys
  {
  }

  /** A scale-up Job still adding nodes at or above the size adds one, and a slot moves there. */
  lemma StillAdding(s: State, slot: nat) returns (events: seq<Event>)
    requires s.up.Adding? && s.up.lo == s.applied < s.up.hi <= s.sts && s.up.hi > s.target && slot in s.owner
    ensures slot !in Exec(s, events).owner && Follows(s, events)
  {
    var m := s.up.hi - 1;
    ExecOne(s, AddNode(m));
    DisciplinedOne(s, AddNode(m));
    AboveHeld(Exec(s, [AddNode(m)]), slot, m);
    FollowsConcat(s, [AddNode(m)], [MoveSlot(slot, m), SyncStatefulSet]);
    events := [AddNode(m)] + [MoveSlot(slot, m), SyncStatefulSet];
  }

  /**
   Every condition on a size change is necessary: after one that is not safe, any slot can
   be lost with every further step safe and no further size change.
   */
  lemma UnsafeTargetOrphans(s: State, size: nat, slot: nat) returns (events: seq<Event>)
    requires Inv(s) && size >= MIN_SIZE && !SafeTarget(s, size) && slot in s.owner
    ensures slot !in Exec(s.(target := size), events).owner && Follows(s.(target := size), events)
  {
    var t := s.(target := size);
    if m :| m in s.members && m >= s.applied && m >= size {
      AboveHeld(t, slot, m);
      events := [MoveSlot(slot, m), SyncStatefulSet];
    } else if s.up.Adding? && s.up.hi > size {
      events := StillAdding(t, slot);
    } else {
      var m :| m in s.members && m >= size
            && (s.down == Drained || (s.down.Draining? && !(s.down.at <= m < s.down.hi)));
      MovedTo(t, slot, m);
      var u := Exec(t, [MoveSlot(slot, m)]);
      MoveKeepsKeys(t, slot, m);
      var rest: seq<Event>;
      if s.down == Drained {
        PodsGo(u, slot);
        rest := [DownPass(true), SyncStatefulSet];
      } else {
        rest := LeftBehind(u, slot);
      }
      FollowsConcat(t, [MoveSlot(slot, m)], rest);
      events := [MoveSlot(slot, m)] + rest;
    }
  }

  /**
   In particular the finished Job object must be gone: its success is taken for the new
   size, and every slot owned at or above it is lost with nothing moving at all.
   */
  lemma StaleJobOrphans(s: State, size: nat, slot: nat)
    requires Inv(s) && s.down == Drained && s.applied == s.target && size >= MIN_SIZE
    requires slot in s.owner && size <= s.owner[slot]
    ensures slot !in Exec(s, [SetTarget(size)] + [DownPass(true), SyncStatefulSet]).owner
  {
    assert s.owner[slot] in s.members;
    ExecOne(s, SetTarget(size));
    PodsGo(s.(target := size), slot);
    ExecConcat(s, [SetTarget(size)], [DownPass(true), SyncStatefulSet]);
  }

  /**
   The condition on lookups is necessary: one lookup that fails on a leaving node of the
   cluster is enough for the Job to succeed past it and for any slot the node owns, or
   comes to own, to be lost, with every later step safe.
   */
  lemma FailedLookupOrphans(s: State, slot: nat) returns (events: seq<Event>)
    requires Inv(s) && At(s, Arrived) && Leaving(s, s.down.at) && slot in s.owner
    ensures slot !in Exec(s, [Lookup(false)] + events).owner && Follows(Exec(s, [Lookup(false)]), events)
    ensures s.owner[slot] == s.down.at ==> forall e :: e in events ==> Quiet(e)
  {
    ExecOne(s, Lookup(false));
    var t := Exec(s, [Lookup(false)]);
    if s.owner[slot] == s.down.at {
      events := LeftBehind(t, slot);
    } else {
      MovedTo(t, slot, s.down.at);
      MoveKeepsKeys(t, slot, s.down.at);
      var rest := LeftBehind(Exec(t, [MoveSlot(slot, s.down.at)]), slot);
      FollowsConcat(t, [MoveSlot(slot, s.down.at)], rest);
      events := [MoveSlot(slot, s.down.at)] + rest;
    }
    ExecConcat(s, [Lookup(false)], events);
  }

  /**
   So a step is safe exactly when no run of safe steps after it loses a slot: the others
   can each cost one, with every further step safe and no further size change.
   */
  lemma UnsafeStepOrphans(s: State, e: Event) returns (slot: nat, events: seq<Event>)
    requires Inv(s) && !Safe(s, e)
    ensures slot in s.owner && slot !in Exec(Step(s, e), events).owner && Follows(Step(s, e), events)
  {
    if e.DelNode? {
      slot :| slot in s.owner && s.owner[slot] == s.down.at;
      events := [];
    } else {
      assert IsSlot(0) && 0 in AllSlots();
      slot := 0;
      if e.SetTarget? {
        events := UnsafeTargetOrphans(s, e.size, slot);
      } else {
        events := FailedLookupOrphans(s, slot);
        ExecOne(s, e);
        ExecConcat(s, [e], events);
      }
    }
  }

  // ------------------------------------------------------------------ script

  /**
   One leaving node's share of an attempt: whether the queries for it are answered, which slots
   reshard moves, whether del-node works.
   */
  datatype Luck = Luck(found: bool, moved: set<nat>, gate: bool, deletable: bool)

  /** Where a slot is after the nodes from lo up to `at` have been dealt with. */
  ghost predicate DealtWith(before: map<nat, nat>, after: map<nat, nat>, k: nat, lo: nat, at: nat, luck: seq<Luck>)
    requires k in before && lo <= at <= lo + |luck|
  {
    var n := before[k];
    if lo <= n < at && luck[n - lo].found
    then if k in luck[n - lo].moved then k in after && after[k] == 0 else k !in after
    else k in after && after[k] == n
  }

  ghost predicate AllDealtWith(before: map<nat, nat>, after: map<nat, nat>, lo: nat, at: nat, luck: seq<Luck>)
    requires lo <= at <= lo + |luck|
  {
    after.Keys <= before.Keys && forall k :: k in before ==> DealtWith(before, after, k, lo, at, luck)
  }

  /** The attempt does not stop at this node. */
  ghost predicate Passes(s0: State, n: nat, l: Luck) {
    n in s0.members && l.found ==>
          l.deletable && (l.gate ==> forall k :: k in s0.owner && s0.owner[k] == n ==> k in l.moved)
  }

  ghost predicate ScriptEvent(e: Event) {
    e.Lookup? || e.ReshardSlot? || e.Gate? || e.DelNode? || e.ScriptEnds?
  }

  /** Events of the script lead from s0 to s. */
  ghost predicate Reached(s0: State, events: seq<Event>, s: State) {
    s == Exec(s0, events) && forall e :: e in events ==> ScriptEvent(e)
  }

  lemma ReachNext(s0: State, events: seq<Event>, s: State, e: Event)
    requires Reached(s0, events, s) && ScriptEvent(e)
    ensures Reached(s0, events + [e], Step(s, e))
  {
    ExecStep(s0, events, e);
  }

  ghost predicate MovedAway(s0: State, luck: seq<Luck>, k: nat)
    requires s0.down.Draining? && k in s0.owner
  {
    var i := s0.owner[k] - s0.down.lo;
    0 <= i < |luck| && luck[i].found && k in luck[i].moved
  }

  /** The target has not changed since the Job was created. */
  ghost predicate TargetFixed(s0: State) {
    s0.down.Draining? && s0.down.lo == s0.target && s0.down.hi == s0.applied
  }

  /** An attempt starts over the whole leaving list. */
  ghost predicate Starts(s0: State, luck: seq<Luck>) {
    && Inv(s0) && s0.down.Draining? && s0.down.at == s0.down.lo && s0.down.phase == Arrived
    && |luck| == s0.down.hi - s0.down.lo
  }

  /** Between two leaving nodes of an attempt. */
  ghost predicate Underway(s0: State, s: State, at: nat, luck: seq<Luck>)
    requires Starts(s0, luck)
  {
    && s0.down.lo <= at <= s0.down.hi
    && s == s0.(owner := s.owner, members := s.members, down := s0.down.(at := at))
    && AllDealtWith(s0.owner, s.owner, s0.down.lo, at, luck)
    && 0 in s.members && (forall m :: m >= at ==> (m in s.members <==> m in s0.members))
  }

  /** A node not found, or not there, is passed over with its slots. */
  lemma Skipped(s0: State, s: State, at: nat, luck: seq<Luck>)
    requires Starts(s0, luck) && Underway(s0, s, at, luck) && at < s0.down.hi
    requires !luck[at - s0.down.lo].found || at !in s0.members
    ensures Underway(s0, s.(down := Next(s.down)), at + 1, luck)
  {
    forall k | k in s0.owner ensures DealtWith(s0.owner, s.owner, k, s0.down.lo, at + 1, luck) {
      assert s0.owner[k] in s0.members && DealtWith(s0.owner, s.owner, k, s0.down.lo, at, luck);
    }
  }

  /** A node deleted takes along the slots reshard did not move. */
  lemma Deleted(s0: State, s: State, t: State, at: nat, luck: seq<Luck>)
    requires Starts(s0, luck) && Underway(s0, s, at, luck) && at < s0.down.hi && luck[at - s0.down.lo].found
    requires t == s.(owner := Without(HandedOver(s.owner, at, luck[at - s0.down.lo].moved, SLOTS), at),
                     members := s.members - {at}, down := Next(s.down))
    ensures Underway(s0, t, at + 1, luck)
  {
    forall k | k in s0.owner ensures DealtWith(s0.owner, t.owner, k, s0.down.lo, at + 1, luck) {
      assert DealtWith(s0.owner, s.owner, k, s0.down.lo, at, luck);
      assert k in AllSlots() && k < SLOTS;
    }
  }

  /** At node `at` the table still shows the slots it owned at the start. */
  lemma StillOwns(s0: State, s: State, at: nat, luck: seq<Luck>)
    requires Starts(s0, luck) && Underway(s0, s, at, luck) && at < s0.down.hi
    ensures forall k :: k in s.owner && s.owner[k] == at <==> k in s0.owner && s0.owner[k] == at
  {
    forall k | k in s0.owner ensures k in s.owner && s.owner[k] == at <==> s0.owner[k] == at {
      assert DealtWith(s0.owner, s.owner, k, s0.down.lo, at, luck);
    }
  }

  lemma GateAnswer(s0: State, s: State, at: nat, luck: seq<Luck>, moved: set<nat>)
    requires Starts(s0, luck) && Underway(s0, s, at, luck) && at < s0.down.hi
    ensures Owns(HandedOver(s.owner, at, moved, SLOTS), at) <==>
          exists k :: k in s0.owner && s0.owner[k] == at && k !in moved
  {
    var after := HandedOver(s.owner, at, moved, SLOTS);
    StillOwns(s0, s, at, luck);
    if k :| k in after && after[k] == at { assert k in s0.owner && k in AllSlots(); }
    if k :| k in s0.owner && s0.owner[k] == at && k !in moved { assert after[k] == at; }
  }

  /** After a successful attempt the operator lowers the size, and the pods go. */
  lemma SizeDrops(s0: State, s: State, luck: seq<Luck>)
    requires Starts(s0, luck) && Underway(s0, s, s0.down.hi, luck) && TargetFixed(s0)
    ensures Step(Step(s.(down := Drained), DownPass(true)), SyncStatefulSet).owner.Keys == AllSlots()
       <==> forall k :: k in s0.owner && s0.owner[k] >= s0.down.lo ==> MovedAway(s0, luck, k)
  {
    var t := Step(Step(s.(down := Drained), DownPass(true)), SyncStatefulSet);
    assert t.owner == OwnedBelow(s.owner, s0.down.lo);
    forall k | k in s0.owner ensures k in t.owner <==> s0.owner[k] < s0.down.lo || MovedAway(s0, luck, k) {
      assert DealtWith(s0.owner, s.owner, k, s0.down.lo, s0.down.hi, luck) && s0.owner[k] in s0.members;
    }
    assert t.owner.Keys <= AllSlots();
  }

  /** With every query answered, an attempt that passes every node has moved every leaving slot. */
  lemma AnsweredAttemptKeeps(s0: State, luck: seq<Luck>, k: nat)
    requires Starts(s0, luck) && TargetFixed(s0) && k in s0.owner && s0.owner[k] >= s0.down.lo
    requires forall i :: 0 <= i < |luck| ==> luck[i].found && luck[i].gate && Passes(s0, s0.down.lo + i, luck[i])
    ensures MovedAway(s0, luck, k)
  {
    assert s0.owner[k] in s0.members;
    var i := s0.owner[k] - s0.down.lo;
    assert Passes(s0, s0.down.lo + i, luck[i]);
  }

  /** reshard --cluster-from leaving --cluster-to pod-0: it may move any of its slots. */
  method ReshardAway(ghost s0: State, s1: State, moved: set<nat>, ghost before: seq<Event>)
    returns (s: State, ghost events: seq<Event>)
    requires Reached(s0, before, s1) && At(s1, Found) && 0 in s1.members && s1.down.at > 0
    ensures Reached(s0, events, s)
    ensures s == s1.(owner := HandedOver(s1.owner, s1.down.at, moved, SLOTS))
  {
    s, events := s1, before;
    assert HandedOver(s1.owner, s1.down.at, moved, 0) == s1.owner;
    for slot := 0 to SLOTS
      invariant Reached(s0, events, s) && s == s1.(owner := HandedOver(s1.owner, s1.down.at, moved, slot))
    {
      HandOverOne(s, s1.owner, moved, slot);
      if slot in moved {
        ReachNext(s0, events, s, ReshardSlot(slot));
        events := events + [ReshardSlot(slot)];
        s := Step(s, ReshardSlot(slot));
      }
    }
  }

  /** Reshard best-effort, gate, del-node. */
  method Drain(ghost s0: State, s1: State, luck: seq<Luck>, ghost before: seq<Event>)
    returns (s: State, ok: bool, ghost events: seq<Event>)
    requires Starts(s0, luck) && s1.down.Draining? && s1.down.at < s1.down.hi && Underway(s0, s1, s1.down.at, luck)
    requires s1.down.at in s1.members && luck[s1.down.at - s1.down.lo].found
    requires Reached(s0, before, s1.(down := s1.down.(phase := Found)))
    ensures Reached(s0, events, s)
    ensures ok <==> Passes(s0, s1.down.at, luck[s1.down.at - s0.down.lo])
    ensures if ok then Underway(s0, s, s1.down.at + 1, luck) else s.down == s0.down
  {
    var at, l := s1.down.at, luck[s1.down.at - s1.down.lo];
    s, events := ReshardAway(s0, s1.(down := s1.down.(phase := Found)), l.moved, before);
    GateAnswer(s0, s1, at, luck, l.moved);
    ReachNext(s0, events, s, Gate(l.gate));
    s, events := Step(s, Gate(l.gate)), events + [Gate(l.gate)];
    if s.down.phase == Arrived { return s, false, events; }  // FATAL: still owns slots
    ReachNext(s0, events, s, DelNode(l.deletable));
    s, events := Step(s, DelNode(l.deletable)), events + [DelNode(l.deletable)];
    if l.deletable { Deleted(s0, s1, s, at, luck); }
    ok := l.deletable;
  }

  /** One leaving node: look it up, and unless it is skipped drain and delete it. */
  method Leave(ghost s0: State, s1: State, luck: seq<Luck>, ghost before: seq<Event>)
    returns (s: State, ok: bool, ghost events: seq<Event>)
    requires Starts(s0, luck) && s1.down.Draining? && s1.down.at < s1.down.hi
    requires Reached(s0, before, s1) && Underway(s0, s1, s1.down.at, luck)
    ensures Reached(s0, events, s)
    ensures ok <==> Passes(s0, s1.down.at, luck[s1.down.at - s0.down.lo])
    ensures if ok then Underway(s0, s, s1.down.at + 1, luck) else s.down == s0.down
  {
    var at, found := s1.down.at, luck[s1.down.at - s1.down.lo].found;
    ReachNext(s0, before, s1, Lookup(found));
    s, events := Step(s1, Lookup(found)), before + [Lookup(found)];
    if s.down.phase == Arrived {  // not in the cluster, or the query failed: skip
      Skipped(s0, s1, at, luck);
      return s, true, events;
    }
    s, ok, events := Drain(s0, s1, luck, events);
  }

  /**
   One attempt of the script, undisturbed. It succeeds exactly when every leaving node
   found is deleted and, where the gate is answered, was emptied. The size change that
   follows keeps every slot exactly when every leaving node owning slots was found and
   all its slots were moved.
   */
  method ScaleDownScript(s0: State, luck: seq<Luck>) returns (s: State, ok: bool, ghost events: seq<Event>)
    requires Starts(s0, luck)
    ensures Reached(s0, events, s)
    ensures ok <==> forall i :: 0 <= i < |luck| ==> Passes(s0, s0.down.lo + i, luck[i])
    ensures ok ==> s.down == Drained && AllDealtWith(s0.owner, s.owner, s0.down.lo, s0.down.hi, luck)
    ensures !ok ==> s.down == s0.down
    ensures ok && TargetFixed(s0) ==> (Step(Step(s, DownPass(true)), SyncStatefulSet).owner.Keys == AllSlots()
               <==> forall k :: k in s0.owner && s0.owner[k] >= s0.down.lo ==> MovedAway(s0, luck, k))
  {
    s, ok, events := s0, true, [];
    var lo, hi := s0.down.lo, s0.down.hi;
    for leaving := lo to hi
      invariant Reached(s0, events, s) && Underway(s0, s, leaving, luck)
      invariant forall i :: 0 <= i < leaving - lo ==> Passes(s0, lo + i, luck[i])
    {
      s, ok, events := Leave(s0, s, luck, events);
      if !ok { return; }
    }
    ReachNext(s0, events, s, ScriptEnds);
    if TargetFixed(s0) { SizeDrops(s0, s, luck); }
    return Step(s, ScriptEnds), true, events + [ScriptEnds];
  }
}
