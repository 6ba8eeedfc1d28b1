/**
 Handing the Sentinel-managed master over: pause its writes, wait for the replicas
 to catch up, have the Sentinels promote one, point the old master at it, unpause.
 Clients, replication, the Sentinels and the clock move between any two commands.
 */
module Handover {
  import opened Common

  /** CLIENT PAUSE timeout, in milliseconds. */
  const PAUSE: nat := 15_000

  /** An element of the master's replication stream; its offset is the stream's length. */
  datatype Entry = Write(id: nat) | Beat

  /** `ack` is the offset the master last heard from the replica; `data` what the replica really holds. */
  datatype Replica = Replica(data: seq<Entry>, ack: nat, connected: bool, online: bool, promoted: bool)

  datatype Outcome = Done | Refused | ReplyLost  // a command whose reply is lost was still executed

  datatype Command = Pause | ReplicaOf(host: nat) | Unpause

  datatype Pc =
    | Start
    | Linked
    | CatchingUp
    | CaughtUp(listed: set<nat>)
    | Promoting(listed: set<nat>)
    | Found(listed: set<nat>, host: nat)
    | Leaving(ok: bool, listed: set<nat>, host: nat, held: bool)
    | Finished(ok: bool, listed: set<nat>, host: nat, held: bool)

  /**
   `acked`: every client write the old master ever acknowledged. `hosts`: the
   replicas the operator polls, in order. `held` in the program counter records
   whether the pause was still in force at REPLICAOF. `trace`: commands issued to the old master.
   */
  datatype State = State(stream: seq<Entry>, acked: set<nat>, isMaster: bool, until: Option<nat>, now: nat,
                         replicas: seq<Replica>, hosts: seq<nat>, pc: Pc, trace: seq<Command>)

  datatype Event =
    // the environment
    | Tick
    | ClientWrite(id: nat)
    | Heartbeat
    | Deliver(r: nat)
    | Acknowledge(r: nat)
    | Connect(r: nat, online: bool)
    | Drop(r: nat)
    | Promote(r: nat)
    | OwnWrite(r: nat, id: nat)  // a client writes to a promoted replica
    | SentinelDemotes
    // the operator
    | CheckLinked(answered: bool)
    | SendPause(outcome: Outcome)
    | PollCatchUp(answered: bool)
    | CatchUpTimesOut
    | SendFailover(accepted: bool)  // accepted, or INPROG
    | PollRoles(answering: set<nat>)
    | PromotionTimesOut
    | SendReplicaOf(outcome: Outcome)
    | SendUnpause(outcome: Outcome)

  predicate Paused(s: State) { s.until.Some? && s.now < s.until.value }

  // ------------------------------------------------------ what INFO tells

  /** The replicas a master's INFO replication lists. */
  function Listed(s: State): set<nat> { set r | 0 <= r < |s.replicas| && s.replicas[r].connected }

  /** replicasLinked: at least `want` are listed and all are online. */
  predicate ReplicasLinked(s: State, want: nat) {
    |Listed(s)| >= want && forall r :: r in Listed(s) ==> s.replicas[r].online
  }

  /** replicasCaughtUp: at least one is listed, and all are online at the master's offset. */
  predicate ReplicasCaughtUp(s: State) {
    Listed(s) != {} && forall r :: r in Listed(s) ==> s.replicas[r].online && s.replicas[r].ack >= |s.stream|
  }

  /** The first polled host that answers and reports role:master. */
  function FirstPromoted(s: State, answering: set<nat>, hosts: seq<nat>): Option<nat> {
    if hosts == [] then None
    else if hosts[0] in answering && hosts[0] < |s.replicas| && s.replicas[hosts[0]].promoted then Some(hosts[0])
    else FirstPromoted(s, answering, hosts[1..])
  }

  // --------------------------------------------------------------- the steps

  function With(s: State, r: nat, replica: Replica): State
    requires r < |s.replicas|
  {
    s.(replicas := s.replicas[r := replica])
  }

  predicate IsEnvironment(e: Event) {
    || e.Tick? || e.ClientWrite? || e.Heartbeat? || e.Deliver? || e.Acknowledge? || e.Connect? || e.Drop?
    || e.Promote? || e.OwnWrite? || e.SentinelDemotes?
  }

  function EnvStep(s: State, e: Event): State {
    match e
    case Tick => s.(now := s.now + 1)
    case ClientWrite(id) =>
      if s.isMaster && !Paused(s) then s.(stream := s.stream + [Write(id)], acked := s.acked + {id}) else s
    case Heartbeat => if s.isMaster then s.(stream := s.stream + [Beat]) else s
    case Deliver(r) =>
      if r < |s.replicas| && s.replicas[r].connected && !s.replicas[r].promoted && |s.replicas[r].data| < |s.stream|
      then With(s, r, s.replicas[r].(data := s.stream[..|s.replicas[r].data| + 1])) else s
    case Acknowledge(r) =>
      if r < |s.replicas| && s.replicas[r].connected && !s.replicas[r].promoted
      then With(s, r, s.replicas[r].(ack := |s.replicas[r].data|)) else s
    case Connect(r, online) =>
      if r < |s.replicas| && !s.replicas[r].promoted then
            With(s, r, s.replicas[r].(connected := true, online := online)) else s
    case Drop(r) =>
      if r < |s.replicas| then With(s, r, s.replicas[r].(connected := false)) else s
    case Promote(r) =>
      if r < |s.replicas| then With(s, r, s.replicas[r].(promoted := true)) else s
    case OwnWrite(r, id) =>
      if r < |s.replicas| && s.replicas[r].promoted
      then With(s, r, s.replicas[r].(data := s.replicas[r].data + [Write(id)])) else s
    case SentinelDemotes =>
      if exists r :: 0 <= r < |s.replicas| && s.replicas[r].promoted then s.(isMaster := false) else s
    case _ => s
  }

  function Leave(s: State): State {
    s.(pc := Leaving(false, {}, 0, false))
  }

  function OperatorStep(s: State, e: Event): State {
    match e
    case CheckLinked(answered) =>
      if s.pc != Start then s
      else if s.hosts != [] && answered && ReplicasLinked(s, |s.hosts|) then s.(pc := Linked)
      else s.(pc := Finished(false, {}, 0, false))
    case SendPause(outcome) =>
      if s.pc != Linked then s
      else
        var t := if outcome == Refused then s else s.(until := Some(s.now + PAUSE));
        t.(trace := s.trace + [Pause], pc := if outcome == Done then CatchingUp else Finished(false, {}, 0, false))
    case PollCatchUp(answered) =>
      if s.pc == CatchingUp && answered && ReplicasCaughtUp(s) then s.(pc := CaughtUp(Listed(s))) else s
    case CatchUpTimesOut => if s.pc == CatchingUp then Leave(s) else s
    case SendFailover(accepted) =>
      if !s.pc.CaughtUp? then s else if accepted then s.(pc := Promoting(s.pc.listed)) else Leave(s)
    case PollRoles(answering) =>
      if !s.pc.Promoting? then s
      else (match FirstPromoted(s, answering, s.hosts)
            case None => s
            case Some(host) => s.(pc := Found(s.pc.listed, host)))
    case PromotionTimesOut => if s.pc.Promoting? then Leave(s) else s
    case SendReplicaOf(outcome) =>
      if !s.pc.Found? then s
      else
        var t := if outcome == Refused then s else s.(isMaster := false);
        t.(trace := s.trace + [ReplicaOf(s.pc.host)], pc := Leaving(outcome == Done, s.pc.listed, s.pc.host, Paused(s)))
    case SendUnpause(outcome) =>
      if !s.pc.Leaving? then s
      else
        var t := if outcome == Refused then s else s.(until := None);
        t.(trace := s.trace + [Unpause], pc := Finished(s.pc.ok && outcome == Done, s.pc.listed, s.pc.host, s.pc.held))
    case _ => s
  }

  function Step(s: State, e: Event): State { OperatorStep(EnvStep(s, e), e) }

  function Exec(s: State, events: seq<Event>): State {
    if events == [] then s else Step(Exec(s, events[..|events| - 1]), events[|events| - 1])
  }

  // --------------------------------------------------------------- invariants

  /** The writes recorded in a stream or held by a replica. */
  ghost predicate Holds(data: seq<Entry>, acked: set<nat>) {
    forall id :: id in acked ==> Write(id) in data
  }

  ghost predicate ReplicaInv(s: State, r: Replica) {
    && r.ack <= |r.data| && r.ack <= |s.stream| && r.data[..r.ack] == s.stream[..r.ack]
    && (!r.promoted ==> r.data <= s.stream)
  }

  /** Every replica listed when the catch-up check passed holds every acknowledged write. */
  ghost predicate ListedHold(s: State, listed: set<nat>) {
    forall r :: r in listed ==> 0 <= r < |s.replicas| && Holds(s.replicas[r].data, s.acked)
  }

  ghost predicate PcInv(s: State) {
    match s.pc
    case CaughtUp(listed) => Paused(s) ==> ListedHold(s, listed)
    case Promoting(listed) => Paused(s) ==> ListedHold(s, listed)
    case Found(listed, host) =>
      host < |s.replicas| && s.replicas[host].promoted && host in s.hosts && (Paused(s) ==> ListedHold(s, listed))
    case Leaving(ok, listed, host, held) =>
      ok ==> !s.isMaster && host < |s.replicas| && s.replicas[host].promoted && (held ==> ListedHold(s, listed))
    case Finished(ok, listed, host, held) =>
      ok ==> !s.isMaster && host < |s.replicas| && s.replicas[host].promoted && (held ==> ListedHold(s, listed))
    case _ => true
  }

  /** Commands issued so far, in the one order the code allows. */
  ghost predicate TraceInv(s: State) {
    match s.pc
    case Start => s.trace == []
    case Linked => s.trace == []
    case Leaving(ok, _, host, _) =>
      (s.trace == [Pause] && !ok) || (exists h :: s.trace == [Pause, ReplicaOf(h)] && (ok ==> h == host))
    case Finished(ok, _, host, _) =>
      || (!ok && s.trace == []) || (!ok && s.trace == [Pause]) || (!ok && s.trace == [Pause, Unpause])
      || (exists h :: s.trace == [Pause, ReplicaOf(h), Unpause] && (ok ==> h == host))
    case _ => s.trace == [Pause]
  }

  ghost predicate Inv(s: State) {
    && Holds(s.stream, s.acked)
    && (forall r :: 0 <= r < |s.replicas| ==> ReplicaInv(s, s.replicas[r]))
    && PcInv(s)
  }

  ghost predicate Init(s: State) {
    && s.pc == Start && s.trace == [] && s.isMaster && Holds(s.stream, s.acked)
    && forall r :: 0 <= r < |s.replicas| ==> ReplicaInv(s, s.replicas[r])
  }

  /** One replica before and after an environment step. */
  ghost predicate Grows(s: State, t: State, p: Replica, q: Replica) {
    ReplicaInv(t, q) && p.data <= q.data && (p.promoted ==> q.promoted)
  }

  lemma SameReplicaGrows(s: State, t: State, p: Replica)
    requires ReplicaInv(s, p) && s.stream <= t.stream
    ensures Grows(s, t, p, p)
  {
  }

  /** What the environment can do to the replicas: data and acknowledgements only grow. */
  lemma EnvKeepsReplicas(s: State, e: Event)
    requires forall r :: 0 <= r < |s.replicas| ==> ReplicaInv(s, s.replicas[r])
    ensures var t := EnvStep(s, e);
            && |t.replicas| == |s.replicas| && s.stream <= t.stream
            && forall r :: 0 <= r < |t.replicas| ==> Grows(s, t, s.replicas[r], t.replicas[r])
  {
    var t := EnvStep(s, e);
    forall r | 0 <= r < |t.replicas| ensures Grows(s, t, s.replicas[r], t.replicas[r]) {
      assert ReplicaInv(s, s.replicas[r]);
      SameReplicaGrows(s, t, s.replicas[r]);
    }
  }

  /** While the pause holds or the old master is demoted, no write is acknowledged. */
  lemma EnvKeepsAcked(s: State, e: Event)
    requires Paused(EnvStep(s, e)) || !s.isMaster
    ensures EnvStep(s, e).acked == s.acked && (Paused(EnvStep(s, e)) ==> Paused(s))
    ensures !s.isMaster ==> !EnvStep(s, e).isMaster
  {
  }

  /** Replicas that hold everything still do while no write is acknowledged. */
  lemma ListedStay(s: State, t: State, listed: set<nat>)
    requires ListedHold(s, listed) && t.acked == s.acked && |t.replicas| == |s.replicas|
    requires forall r :: 0 <= r < |t.replicas| ==> s.replicas[r].data <= t.replicas[r].data
    ensures ListedHold(t, listed)
  {
  }

  lemma EnvKeepsPc(s: State, t: State)
    requires PcInv(s) && t.pc == s.pc && t.hosts == s.hosts && |t.replicas| == |s.replicas|
    requires forall r :: 0 <= r < |t.replicas| ==>
          s.replicas[r].data <= t.replicas[r].data && (s.replicas[r].promoted ==> t.replicas[r].promoted)
    requires Paused(t) || !s.isMaster ==>
          t.acked == s.acked && (Paused(t) ==> Paused(s)) && (!s.isMaster ==> !t.isMaster)
    ensures PcInv(t)
  {
    if (s.pc.CaughtUp? || s.pc.Promoting? || s.pc.Found?) && Paused(t) { ListedStay(s, t, s.pc.listed); }
    if (s.pc.Leaving? || s.pc.Finished?) && s.pc.ok && s.pc.held { ListedStay(s, t, s.pc.listed); }
  }

  lemma EnvKeeps(s: State, e: Event)
    requires Inv(s)
    ensures Inv(EnvStep(s, e))
  {
    var t := EnvStep(s, e);
    EnvKeepsReplicas(s, e);
    if Paused(t) || !s.isMaster { EnvKeepsAcked(s, e); }
    EnvKeepsPc(s, t);
  }

  lemma CaughtUpHold(s: State)
    requires Inv(s) && ReplicasCaughtUp(s)
    ensures ListedHold(s, Listed(s))
  {
    forall r | r in Listed(s) ensures Holds(s.replicas[r].data, s.acked) {
      assert ReplicaInv(s, s.replicas[r]);
      assert s.replicas[r].data[..|s.stream|] == s.stream;
    }
  }

  lemma {:induction false} FirstPromotedIs(s: State, answering: set<nat>, hosts: seq<nat>)
    ensures var h := FirstPromoted(s, answering, hosts);
            h.Some? ==> h.value in hosts && h.value < |s.replicas| && s.replicas[h.value].promoted
  {
    if hosts != [] { FirstPromotedIs(s, answering, hosts[1..]); }
  }

  /** Operator steps leave the data alone. */
  lemma OperatorKeepsData(s: State, e: Event)
    ensures var t := OperatorStep(s, e);
            t.stream == s.stream && t.acked == s.acked && t.replicas == s.replicas && t.hosts == s.hosts
                  && t.now == s.now
  {
  }

  lemma SameData(s: State, t: State)
    requires Inv(s) && t.stream == s.stream && t.acked == s.acked && t.replicas == s.replicas && PcInv(t)
    ensures Inv(t)
  {
    forall r | 0 <= r < |t.replicas| ensures ReplicaInv(t, t.replicas[r]) { assert ReplicaInv(s, s.replicas[r]); }
  }

  lemma ListedSame(s: State, t: State, listed: set<nat>)
    requires t.acked == s.acked && t.replicas == s.replicas
    ensures ListedHold(t, listed) <==> ListedHold(s, listed)
  {
  }

  /** The steps up to the promotion keep what the program counter records. */
  lemma WaitingKeepsPc(s: State, e: Event)
    requires Inv(s)
          && (e.CheckLinked? || e.SendPause? || e.PollCatchUp? || e.CatchUpTimesOut? || e.SendFailover?
                || e.PollRoles? || e.PromotionTimesOut?)
    ensures PcInv(OperatorStep(s, e))
  {
    var t := OperatorStep(s, e);
    if s.pc.CaughtUp? || s.pc.Promoting? || s.pc.Found? { ListedSame(s, t, s.pc.listed); }
    if e.PollCatchUp? && ReplicasCaughtUp(s) {
      CaughtUpHold(s);
      ListedSame(s, t, Listed(s));
    }
    if e.PollRoles? { FirstPromotedIs(s, e.answering, s.hosts); }
  }

  /** So do demotion and unpause. */
  lemma LeavingKeepsPc(s: State, e: Event)
    requires Inv(s) && (e.SendReplicaOf? || e.SendUnpause?)
    ensures PcInv(OperatorStep(s, e))
  {
    var t := OperatorStep(s, e);
    if s.pc.CaughtUp? || s.pc.Promoting? || s.pc.Found? || s.pc.Leaving? { ListedSame(s, t, s.pc.listed); }
  }

  lemma OperatorKeeps(s: State, e: Event)
    requires Inv(s)
    ensures Inv(OperatorStep(s, e))
  {
    OperatorKeepsData(s, e);
    if e.SendReplicaOf? || e.SendUnpause? {
      LeavingKeepsPc(s, e);
    } else if !IsEnvironment(e) {
      WaitingKeepsPc(s, e);
    }
    SameData(s, OperatorStep(s, e));
  }

  lemma TraceKeeps(s: State, e: Event)
    requires TraceInv(s)
    ensures TraceInv(Step(s, e))
  {
  }

  lemma {:induction false} ExecKeeps(s: State, events: seq<Event>)
    requires Inv(s) && TraceInv(s)
    ensures Inv(Exec(s, events)) && TraceInv(Exec(s, events))
  {
    if events != [] {
      var t := Exec(s, events[..|events| - 1]);
      ExecKeeps(s, events[..|events| - 1]);
      EnvKeeps(t, events[|events| - 1]);
      OperatorKeeps(EnvStep(t, events[|events| - 1]), events[|events| - 1]);
      TraceKeeps(t, events[|events| - 1]);
    }
  }

  // ----------------------------------------------------------------- theorems

  /** One step after the old master's demotion. */
  lemma NothingNext(s: State, e: Event)
    requires Inv(s) && !s.isMaster
    ensures var t := Step(s, e);
            && !t.isMaster && t.acked == s.acked && |t.replicas| == |s.replicas|
            && forall r :: 0 <= r < |s.replicas| ==> s.replicas[r].data <= t.replicas[r].data
  {
    var u := EnvStep(s, e);
    EnvKeepsReplicas(s, e);
    EnvKeepsAcked(s, e);
    OperatorKeepsData(u, e);
    forall r | 0 <= r < |s.replicas| ensures s.replicas[r].data <= u.replicas[r].data {
      assert Grows(s, u, s.replicas[r], u.replicas[r]);
    }
  }

  /** A demoted old master acknowledges nothing more, and no replica loses what it holds. */
  lemma {:induction false} NothingAfter(s: State, more: seq<Event>)
    requires Inv(s) && TraceInv(s) && !s.isMaster
    ensures var t := Exec(s, more);
            && !t.isMaster && t.acked == s.acked && |t.replicas| == |s.replicas|
            && forall r :: 0 <= r < |s.replicas| ==> s.replicas[r].data <= t.replicas[r].data
  {
    if more != [] {
      var front, e := more[..|more| - 1], more[|more| - 1];
      var t := Exec(s, front);
      NothingAfter(s, front);
      assert Inv(t) by { ExecKeeps(s, front); }
      NothingNext(t, e);
    }
  }

  /**
   No acknowledged write is lost. In every interleaving: a handover that returns
   success with the pause still in force at REPLICAOF, and whose promoted replica was
   in the INFO that passed the catch-up check, leaves that replica holding every write
   the old master ever acknowledged, for good, and the old master acknowledges none after.
   */
  lemma NoWriteLost(s: State, events: seq<Event>, more: seq<Event>)
    requires Init(s)
    ensures var t := Exec(s, events); var u := Exec(t, more);
            t.pc.Finished? && t.pc.ok && t.pc.held && t.pc.host in t.pc.listed
            ==> && t.pc.host < |u.replicas| && Holds(u.replicas[t.pc.host].data, u.acked)
                && u.acked == t.acked && !u.isMaster
  {
    var t := Exec(s, events);
    ExecKeeps(s, events);
    if t.pc.Finished? && t.pc.ok && t.pc.held && t.pc.host in t.pc.listed {
      NothingAfter(t, more);
      var u := Exec(t, more);
      assert t.replicas[t.pc.host].data <= u.replicas[t.pc.host].data;
    }
  }

  /** The handover past an acknowledged pause. */
  ghost predicate AfterPause(s: State) {
    match s.pc
    case Start => false
    case Linked => false
    case Leaving(_, _, _, _) => s.trace == [Pause] || (exists h :: s.trace == [Pause, ReplicaOf(h)])
    case Finished(_, _, _, _) => s.trace == [Pause, Unpause] || (exists h :: s.trace == [Pause, ReplicaOf(h), Unpause])
    case _ => s.trace == [Pause]
  }

  lemma AfterPauseKeeps(s: State, e: Event)
    requires AfterPause(s)
    ensures AfterPause(Step(s, e))
  {
  }

  /** Once the pause is acknowledged, every exit ends with UNPAUSE, after REPLICAOF if one was sent. */
  lemma {:induction false} UnpauseIsLast(s: State, before: seq<Event>, after: seq<Event>)
    requires Init(s) && Exec(s, before).pc == CatchingUp
    ensures AfterPause(Exec(Exec(s, before), after))
  {
    ExecKeeps(s, before);
    if after != [] {
      UnpauseIsLast(s, before, after[..|after| - 1]);
      AfterPauseKeeps(Exec(Exec(s, before), after[..|after| - 1]), after[|after| - 1]);
    }
  }

  lemma ExecNext(s: State, events: seq<Event>, e: Event)
    ensures Exec(s, events + [e]) == Step(Exec(s, events), e)
  {
    assert (events + [e])[..|events|] == events;
  }

  lemma {:induction false} OnlyAnswer(s: State, host: nat, hosts: seq<nat>)
    requires host in hosts && host < |s.replicas| && s.replicas[host].promoted
    ensures FirstPromoted(s, {host}, hosts) == Some(host)
  {
    if hosts[0] != host { OnlyAnswer(s, host, hosts[1..]); }
  }

  /** The Sentinels promote `host`, and the operator finds it. */
  lemma FindsHost(s: State, host: nat) returns (events: seq<Event>)
    requires s.pc.CaughtUp? && host in s.hosts && host < |s.replicas|
    ensures Exec(s, events) == With(s, host, s.replicas[host].(promoted := true)).(pc := Found(s.pc.listed, host))
  {
    ExecNext(s, [], Promote(host));
    var r1 := [] + [Promote(host)];
    ExecNext(s, r1, SendFailover(true));
    var r2 := r1 + [SendFailover(true)];
    OnlyAnswer(Exec(s, r2), host, s.hosts);
    ExecNext(s, r2, PollRoles({host}));
    events := r2 + [PollRoles({host})];
  }

  /** From a caught-up state with the pause in force, promoting `host` makes the handover succeed. */
  lemma HandoverTo(s: State, host: nat) returns (events: seq<Event>)
    requires s.pc.CaughtUp? && host in s.hosts && host < |s.replicas|
    ensures var t := Exec(s, events);
            && t.pc == Finished(true, s.pc.listed, host, Paused(s)) && t.acked == s.acked
            && |t.replicas| == |s.replicas| && t.replicas[host].data == s.replicas[host].data
  {
    var first := FindsHost(s, host);
    ExecNext(s, first, SendReplicaOf(Done));
    ExecNext(s, first + [SendReplicaOf(Done)], SendUnpause(Done));
    events := first + [SendReplicaOf(Done)] + [SendUnpause(Done)];
  }

  lemma {:induction false} ExecConcat(s: State, a: seq<Event>, b: seq<Event>)
    ensures Exec(s, a + b) == Exec(Exec(s, a), b)
  {
    if b == [] {
      assert a + b == a;
    } else {
      ExecConcat(s, a, b[..|b| - 1]);
      ExecNext(s, a + b[..|b| - 1], b[|b| - 1]);
      AppendLast(a, b);
    }
  }

  /**
   Being listed is needed: in any state whose listed replicas have caught up, a polled
   replica that INFO does not list and that lacks an acknowledged write can be the one
   promoted, and the handover still succeeds.
   */
  lemma UnlistedPromotionLoses(s: State, id: nat, host: nat) returns (events: seq<Event>)
    requires s.pc == CatchingUp && ReplicasCaughtUp(s) && Paused(s) && id in s.acked
    requires host in s.hosts && host < |s.replicas| && host !in Listed(s) && Write(id) !in s.replicas[host].data
    ensures var t := Exec(s, events);
            && t.pc == Finished(true, Listed(s), host, true) && id in t.acked
            && host < |t.replicas| && Write(id) !in t.replicas[host].data
  {
    var a := Step(s, PollCatchUp(true));
    ExecNext(s, [], PollCatchUp(true));
    assert Exec(s, [PollCatchUp(true)]) == a by { assert [] + [PollCatchUp(true)] == [PollCatchUp(true)]; }
    var rest := HandoverTo(a, host);
    ExecConcat(s, [PollCatchUp(true)], rest);
    events := [PollCatchUp(true)] + rest;
  }

  /** Time passing changes nothing else. */
  lemma {:induction false} Ticks(s: State, n: nat)
    ensures Exec(s, seq(n, i => Tick)) == s.(now := s.now + n)
  {
    if n > 0 {
      Ticks(s, n - 1);
      assert seq(n, i => Tick)[..n - 1] == seq(n - 1, i => Tick);
    }
  }

  /**
   So is the pause: in any caught-up state, if the pause runs out before REPLICAOF a
   write can be acknowledged that the replica promoted in the end lacks.
   */
  lemma ExpiredPauseLoses(s: State, id: nat, host: nat) returns (events: seq<Event>)
    requires s.pc.CaughtUp? && s.isMaster && Paused(s)
    requires host in s.hosts && host < |s.replicas| && Write(id) !in s.replicas[host].data
    ensures var t := Exec(s, events);
            && t.pc == Finished(true, s.pc.listed, host, false) && id in t.acked
            && host < |t.replicas| && Write(id) !in t.replicas[host].data
  {
    var n := s.until.value - s.now;
    var later := seq(n, i => Tick);
    Ticks(s, n);
    ExecNext(s, later, ClientWrite(id));
    var b := Exec(s, later + [ClientWrite(id)]);
    var rest := HandoverTo(b, host);
    ExecConcat(s, later + [ClientWrite(id)], rest);
    events := later + [ClientWrite(id)] + rest;
  }

  /** A master at rest: no pause, every polled replica linked, and all listed replicas at its offset. */
  ghost predicate Quiet(s: State) {
    Init(s) && s.until == None && s.hosts != [] && ReplicasLinked(s, |s.hosts|) && ReplicasCaughtUp(s)
  }

  /** Up to the acknowledged pause, with nothing else happening. */
  lemma ReachesPause(s: State)
    requires s.pc == Start && s.hosts != [] && ReplicasLinked(s, |s.hosts|)
    ensures Exec(s, [CheckLinked(true), SendPause(Done)])
         == s.(pc := CatchingUp, until := Some(s.now + PAUSE), trace := s.trace + [Pause])
  {
    ExecNext(s, [], CheckLinked(true));
    ExecNext(s, [CheckLinked(true)], SendPause(Done));
    assert [] + [CheckLinked(true)] == [CheckLinked(true)];
    assert [CheckLinked(true)] + [SendPause(Done)] == [CheckLinked(true), SendPause(Done)];
  }

  /** Both losses happen from the very start: from any quiet master, the pause running out loses a new write. */
  lemma ExpiryReached(s: State, id: nat, host: nat) returns (events: seq<Event>)
    requires Quiet(s) && host in s.hosts && host < |s.replicas| && Write(id) !in s.replicas[host].data
    ensures var t := Exec(s, events);
            && t.pc.Finished? && t.pc.ok && t.pc.host == host && id in t.acked
            && host < |t.replicas| && Write(id) !in t.replicas[host].data
  {
    ReachesPause(s);
    var start := [CheckLinked(true), SendPause(Done)];
    var a := Exec(s, start);
    assert Listed(a) == Listed(s) && ReplicasCaughtUp(a);
    ExecNext(s, start, PollCatchUp(true));
    var rest := ExpiredPauseLoses(Step(a, PollCatchUp(true)), id, host);
    ExecConcat(s, start + [PollCatchUp(true)], rest);
    events := start + [PollCatchUp(true)] + rest;
  }

  lemma DroppedListed(s: State, host: nat)
    requires host < |s.replicas|
    ensures Listed(With(s, host, s.replicas[host].(connected := false))) == Listed(s) - {host}
  {
  }

  /** The link is checked, then one replica drops, then a write is acknowledged. */
  lemma DropAndWrite(s: State, id: nat, host: nat, other: nat) returns (events: seq<Event>)
    requires Quiet(s) && host != other && Listed(s) == {host, other} && !s.replicas[other].promoted
    ensures host < |s.replicas| && other < |s.replicas|
    ensures Exec(s, events) == s.(pc := Linked, replicas := s.replicas[host := s.replicas[host].(connected := false)],
                                  stream := s.stream + [Write(id)], acked := s.acked + {id})
    ensures Listed(Exec(s, events)) == {other} && s.replicas[other].data == s.stream
  {
    assert host in Listed(s) && other in Listed(s);
    assert ReplicaInv(s, s.replicas[other]);
    ExecNext(s, [], CheckLinked(true));
    var r1 := [] + [CheckLinked(true)];
    ExecNext(s, r1, Drop(host));
    var r2 := r1 + [Drop(host)];
    ExecNext(s, r2, ClientWrite(id));
    events := r2 + [ClientWrite(id)];
    DroppedListed(s, host);
  }

  /** The one listed replica receives the write and acknowledges it. */
  lemma CatchUpOne(s: State, r: nat) returns (events: seq<Event>)
    requires Listed(s) == {r} && s.stream != [] && s.pc == Linked && s.isMaster && s.replicas[r].online
          && !s.replicas[r].promoted
    requires s.replicas[r].data == s.stream[..|s.stream| - 1]
    ensures r < |s.replicas| && Exec(s, events) == With(s, r, s.replicas[r].(data := s.stream, ack := |s.stream|))
    ensures Listed(Exec(s, events)) == {r} && ReplicasCaughtUp(Exec(s, events))
  {
    assert r in Listed(s);
    ExecNext(s, [], Deliver(r));
    var r1 := [] + [Deliver(r)];
    ExecNext(s, r1, Acknowledge(r));
    events := r1 + [Acknowledge(r)];
    assert s.stream[..|s.stream|] == s.stream;
    var t := With(s, r, s.replicas[r].(data := s.stream, ack := |s.stream|));
    assert forall k :: k in Listed(t) <==> k in Listed(s);
    assert Listed(t) == Listed(s);
  }

  /** And from any quiet master with two replicas, one of them dropping its link once checked loses a new write. */
  lemma DropReached(s: State, id: nat, host: nat, other: nat) returns (events: seq<Event>)
    requires Quiet(s) && host in s.hosts && host != other && Listed(s) == {host, other} && !s.replicas[other].promoted
    requires Write(id) !in s.replicas[host].data
    ensures var t := Exec(s, events);
            && t.pc.Finished? && t.pc.ok && t.pc.held && t.pc.host == host && host !in t.pc.listed && id in t.acked
            && host < |t.replicas| && Write(id) !in t.replicas[host].data
  {
    var first := DropAndWrite(s, id, host, other);
    var c := Exec(s, first);
    var second := CatchUpOne(c, other);
    var d := Exec(c, second);
    ExecConcat(s, first, second);
    ExecNext(s, first + second, SendPause(Done));
    var f := Exec(s, first + second + [SendPause(Done)]);
    assert f == Step(d, SendPause(Done)) && Listed(f) == Listed(d);
    var rest := UnlistedPromotionLoses(f, id, host);
    ExecConcat(s, first + second + [SendPause(Done)], rest);
    events := first + second + [SendPause(Done)] + rest;
  }

  // ---------------------------------------------------- the procedure as code

  /** What happens around one command: the events before it and how it is answered. */
  datatype Turn = Turn(meanwhile: seq<Event>, answered: bool, outcome: Outcome, answering: set<nat>)

  lemma Result(s0: State, events: seq<Event>)
    requires Init(s0)
    ensures var t := Exec(s0, events);
            t.pc.Finished? && t.pc.ok
            ==> && t.trace == [Pause, ReplicaOf(t.pc.host), Unpause]
                && (t.pc.held && t.pc.host in t.pc.listed ==>
                      t.pc.host < |t.replicas| && Holds(t.replicas[t.pc.host].data, t.acked))
  {
    ExecKeeps(s0, events);
  }

  /** One call of handOverMaster against a world that moves between its commands. */
  class Session {
    ghost const s0: State
    const turns: nat -> Turn
    var s: State
    var turn: nat
    ghost var events: seq<Event>

    ghost predicate Valid()
      reads this
    {
      s == Exec(s0, events)
    }

    constructor (s0: State, turns: nat -> Turn)
      ensures Valid() && s == s0 && this.s0 == s0 && this.turns == turns
    {
      this.s0, this.turns, this.s, turn, events := s0, turns, s0, 0, [];
    }

    method Do(e: Event)
      requires Valid()
      modifies this`s, this`events
      ensures Valid() && s == Step(old(s), e)
    {
      var t := Step(s, e);
      ExecNext(s0, events, e);
      events := events + [e];
      s := t;
    }

    /** The world moves on its own before the next command. */
    method NextTurn() returns (t: Turn)
      requires Valid()
      modifies this
      ensures Valid() && s.pc == old(s.pc) && s.hosts == old(s.hosts)
    {
      t := turns(turn);
      turn := turn + 1;
      for i := 0 to |t.meanwhile|
        invariant Valid() && s.pc == old(s.pc) && s.hosts == old(s.hosts)
      {
        if IsEnvironment(t.meanwhile[i]) { Do(t.meanwhile[i]); }
      }
    }

    /** Poll the old master's INFO until every listed replica has caught up. */
    method AwaitCatchUp(polls: nat)
      requires Valid() && s.pc == CatchingUp
      modifies this
      ensures Valid() && (s.pc.CaughtUp? || (s.pc.Leaving? && !s.pc.ok))
    {
      var n := 0;
      while n < polls && s.pc == CatchingUp
        invariant Valid() && (s.pc == CatchingUp || s.pc.CaughtUp?)
        decreases polls - n
      {
        var t := NextTurn();
        Do(PollCatchUp(t.answered));
        n := n + 1;
      }
      if s.pc == CatchingUp { Do(CatchUpTimesOut); }
    }

    /** Poll the replicas, in order, until one reports itself promoted. */
    method AwaitPromotion(polls: nat)
      requires Valid() && s.pc.Promoting?
      modifies this
      ensures Valid() && (s.pc.Found? || (s.pc.Leaving? && !s.pc.ok))
    {
      var n := 0;
      while n < polls && s.pc.Promoting?
        invariant Valid() && (s.pc.Promoting? || s.pc.Found?)
        decreases polls - n
      {
        var t := NextTurn();
        Do(PollRoles(t.answering));
        n := n + 1;
      }
      if s.pc.Promoting? { Do(PromotionTimesOut); }
    }

    /** From the acknowledged pause to the deferred UNPAUSE. */
    method WhilePaused(catchUpPolls: nat, promotePolls: nat)
      requires Valid() && s.pc == CatchingUp
      modifies this
      ensures Valid() && s.pc.Leaving?
    {
      AwaitCatchUp(catchUpPolls);
      if s.pc.Leaving? { return; }
      var t := NextTurn();
      Do(SendFailover(t.answered));
      if s.pc.Leaving? { return; }
      AwaitPromotion(promotePolls);
      if s.pc.Leaving? { return; }
      t := NextTurn();
      Do(SendReplicaOf(t.outcome));
    }

    /** Up to the acknowledged pause; every other exit leaves the master unpaused or the pause to lapse. */
    method PauseWrites()
      requires Valid() && s.pc == Start
      modifies this
      ensures Valid() && (s.pc == CatchingUp || s.pc.Finished?)
    {
      var t := NextTurn();
      Do(CheckLinked(t.answered));
      if s.pc == Linked {
        t := NextTurn();
        Do(SendPause(t.outcome));
      }
    }

    /**
     handOverMaster. Whatever happens meanwhile it ends, and what it did is a run of
     the protocol: success with the pause held and a listed replica loses no write.
     */
    method HandOverMaster(catchUpPolls: nat, promotePolls: nat) returns (ok: bool)
      requires Valid() && s == s0 && Init(s0) && events == []
      modifies this
      ensures Valid() && s.pc.Finished? && ok == s.pc.ok
      ensures ok && s.pc.held && s.pc.host in s.pc.listed ==>
            s.pc.host < |s.replicas| && Holds(s.replicas[s.pc.host].data, s.acked)
      ensures ok ==> s.trace == [Pause, ReplicaOf(s.pc.host), Unpause]
    {
      PauseWrites();
      if s.pc == CatchingUp {
        WhilePaused(catchUpPolls, promotePolls);
        var t := NextTurn();
        Do(SendUnpause(t.outcome));
      }
      ok := s.pc.ok;
      Result(s0, events);
    }
  }
}
